/*
 * The water-management contract: usage records indexed by farmer and by
 * parcel, period reports over them, incentives for efficient usage, and
 * alerts raised against a parcel's thresholds.
 *
 * The contract's validators and scoring helpers (identifier, volume and
 * timestamp checks, the efficiency score, the incentive rule and amount,
 * the start of a day or week) are not part of this model; they enter as
 * the fields of `Helpers`.
 */
module WaterManagement {
  import opened Common

  /** Usage, parcel and alert ids are 32-byte values compared for equality. */
  type UsageId = nat
  type ParcelId = nat
  type AlertId = nat

  /** The reward an automatic incentive starts from. */
  const DEFAULT_BASE_REWARD: int := 100
  const SECONDS_PER_WEEK: nat := 604800

  datatype WaterUsage = WaterUsage(usageId: UsageId, farmer: Address, parcel: ParcelId, volume: int,
                                   timestamp: nat)

  datatype WaterThreshold = WaterThreshold(parcel: ParcelId, dailyLimit: int, weeklyLimit: int,
                                           monthlyLimit: int)

  datatype Incentive = Incentive(farmer: Address, rewardAmount: int, timestamp: nat, usageId: UsageId)

  datatype AlertType = ThresholdExceeded | ExcessiveUsage

  datatype Alert = Alert(alertId: AlertId, farmer: Address, parcel: ParcelId, alertType: AlertType,
                         message: string, timestamp: nat, resolved: bool)

  /** A report for one parcel (`parcel.Some?`) or for all of a farmer's
      parcels. */
  datatype UsageReport = UsageReport(farmer: Address, parcel: Option<ParcelId>, totalUsage: int,
                                     periodStart: nat, periodEnd: nat, efficiencyScore: nat)

  datatype WaterError =
    | ValidationFailed
    | Unauthorized
    | UsageAlreadyExists
    | UsageNotFound
    | InvalidTimestamp
    | IncentiveAlreadyExists
    | ThresholdNotFound
    | InsufficientEfficiency
    | InvalidRewardAmount
    | InvalidThreshold
    | InvalidInput
    | AlertAlreadyExists
    | AlertNotFound

  /** The alerts `check_usage_and_alert` can raise, one id suffix each. */
  datatype AlertKind = DailyExceeded | WeeklyExceeded | ExcessiveSingle

  /** The contract's own helpers, taken as given: `validUsage` stands for
      the identifier, volume and data-hash validators, `validTime` for the
      timestamp validator, `validId` for the identifier validator,
      `efficiency(volume, dailyLimit)`, `qualifies(volume, dailyLimit)` and
      `reward(volume, dailyLimit, base)` for the scoring helpers,
      and `dayStart`/`weekStart` for the period starts. */
  datatype Helpers = Helpers(
    validUsage: (UsageId, ParcelId, int) -> bool,
    validTime: nat -> bool,
    validId: nat -> bool,
    efficiency: (int, int) -> nat,
    qualifies: (int, int) -> bool,
    reward: (int, int, int) -> int,
    dayStart: nat -> nat,
    weekStart: nat -> nat)

  function ListAt<K>(m: map<K, seq<nat>>, k: K): seq<nat>
  {
    if k in m then m[k] else []
  }

  /** Appending an id that is not yet listed keeps a list duplicate-free. */
  lemma AppendFresh(s: seq<nat>, x: nat)
    requires NoDuplicates(s) && x !in s
    ensures NoDuplicates(s + [x])
  {
  }

  // ---------------------------------------------------------------------
  // Reports
  // ---------------------------------------------------------------------

  /** A record counts in a report when its timestamp lies in the closed
      period and, for a parcel report, it belongs to that parcel. */
  predicate Counted(u: WaterUsage, parcel: Option<ParcelId>, start: nat, end: nat)
  {
    start <= u.timestamp <= end && (parcel.None? || parcel.value == u.parcel)
  }

  predicate CountedAt(usages: map<UsageId, WaterUsage>, id: UsageId, parcel: Option<ParcelId>,
                      start: nat, end: nat)
  {
    id in usages && Counted(usages[id], parcel, start, end)
  }

  /** The total volume of the listed records that count. */
  function PeriodVolume(ids: seq<UsageId>, usages: map<UsageId, WaterUsage>, parcel: Option<ParcelId>,
                        start: nat, end: nat): int
  {
    if ids == [] then 0
    else
      var id := ids[|ids| - 1];
      PeriodVolume(ids[..|ids| - 1], usages, parcel, start, end) +
      (if CountedAt(usages, id, parcel, start, end) then usages[id].volume else 0)
  }

  /** The number of listed records that count. */
  function PeriodCount(ids: seq<UsageId>, usages: map<UsageId, WaterUsage>, parcel: Option<ParcelId>,
                       start: nat, end: nat): nat
  {
    if ids == [] then 0
    else
      PeriodCount(ids[..|ids| - 1], usages, parcel, start, end) +
      (if CountedAt(usages, ids[|ids| - 1], parcel, start, end) then 1 else 0)
  }

  /** The efficiency score of one counted record: scored against its
      parcel's daily limit, and nothing when the parcel has no threshold. */
  function RecordEfficiency(h: Helpers, u: WaterUsage, thresholds: map<ParcelId, WaterThreshold>): nat
  {
    if u.parcel in thresholds then h.efficiency(u.volume, thresholds[u.parcel].dailyLimit) else 0
  }

  /** The summed efficiency scores of the listed records that count. */
  function PeriodEfficiency(h: Helpers, ids: seq<UsageId>, usages: map<UsageId, WaterUsage>,
                            thresholds: map<ParcelId, WaterThreshold>, parcel: Option<ParcelId>,
                            start: nat, end: nat): nat
  {
    if ids == [] then 0
    else
      var id := ids[|ids| - 1];
      PeriodEfficiency(h, ids[..|ids| - 1], usages, thresholds, parcel, start, end) +
      (if CountedAt(usages, id, parcel, start, end) then RecordEfficiency(h, usages[id], thresholds) else 0)
  }

  /** At most every listed record counts. */
  lemma {:induction false} PeriodCountAtMost(ids: seq<UsageId>, usages: map<UsageId, WaterUsage>,
                                             parcel: Option<ParcelId>, start: nat, end: nat)
    ensures PeriodCount(ids, usages, parcel, start, end) <= |ids|
  {
    if ids != [] {
      PeriodCountAtMost(ids[..|ids| - 1], usages, parcel, start, end);
    }
  }

  /** With no record counted, the period's volume is zero. */
  lemma {:induction false} NothingCountedNoVolume(ids: seq<UsageId>, usages: map<UsageId, WaterUsage>,
                                                  parcel: Option<ParcelId>, start: nat, end: nat)
    requires PeriodCount(ids, usages, parcel, start, end) == 0
    ensures PeriodVolume(ids, usages, parcel, start, end) == 0
  {
    if ids != [] {
      NothingCountedNoVolume(ids[..|ids| - 1], usages, parcel, start, end);
    }
  }

  /** Storing a record under an id that is not listed leaves the period's
      volume of the list unchanged. */
  lemma {:induction false} PeriodVolumeFrame(ids: seq<UsageId>, usages: map<UsageId, WaterUsage>, id: UsageId,
                                             u: WaterUsage, parcel: Option<ParcelId>, start: nat, end: nat)
    requires id !in ids
    ensures PeriodVolume(ids, usages[id := u], parcel, start, end) == PeriodVolume(ids, usages, parcel, start, end)
  {
    if ids != [] {
      PeriodVolumeFrame(ids[..|ids| - 1], usages, id, u, parcel, start, end);
    }
  }

  /** A newly recorded usage, appended to a list that does not hold its id,
      adds its volume to every report period that covers its timestamp and
      leaves the others unchanged. */
  lemma RecordedUsageCounted(ids: seq<UsageId>, usages: map<UsageId, WaterUsage>, u: WaterUsage,
                             parcel: Option<ParcelId>, start: nat, end: nat)
    requires u.usageId !in ids
    ensures PeriodVolume(ids + [u.usageId], usages[u.usageId := u], parcel, start, end) ==
            PeriodVolume(ids, usages, parcel, start, end) + (if Counted(u, parcel, start, end) then u.volume else 0)
  {
    var ids' := ids + [u.usageId];
    assert ids'[..|ids'| - 1] == ids;
    PeriodVolumeFrame(ids, usages, u.usageId, u, parcel, start, end);
  }

  /** The floor of an average lies within one step of the sum. */
  lemma FloorAverage(sum: nat, count: nat)
    requires count > 0
    ensures (sum / count) * count <= sum < (sum / count + 1) * count
  {
  }

  // ---------------------------------------------------------------------
  // Incentives
  // ---------------------------------------------------------------------

  /** The sum of the stored rewards of the listed usages whose incentive
      timestamp lies in the closed period. */
  function PeriodRewards(ids: seq<UsageId>, incentives: map<UsageId, Incentive>, start: nat, end: nat): int
  {
    if ids == [] then 0
    else
      var id := ids[|ids| - 1];
      PeriodRewards(ids[..|ids| - 1], incentives, start, end) +
      (if id in incentives && start <= incentives[id].timestamp <= end then incentives[id].rewardAmount else 0)
  }

  /** Rewards are positive when issued, so a farmer's period total is never
      negative. */
  lemma {:induction false} PeriodRewardsNonNegative(ids: seq<UsageId>, incentives: map<UsageId, Incentive>,
                                                    start: nat, end: nat)
    requires forall id :: id in incentives ==> incentives[id].rewardAmount > 0
    ensures PeriodRewards(ids, incentives, start, end) >= 0
  {
    if ids != [] {
      PeriodRewardsNonNegative(ids[..|ids| - 1], incentives, start, end);
    }
  }

  /** The thresholds `set_threshold` accepts: positive limits, a week at
      least seven days and a month at least four weeks. */
  function ThresholdCheck(daily: int, weekly: int, monthly: int): (e: Option<WaterError>)
    ensures e.None? <==> daily > 0 && weekly >= 7 * daily && monthly >= 4 * weekly
    ensures e.Some? ==> e == Some(InvalidThreshold)
  {
    if daily <= 0 || weekly <= 0 || monthly <= 0 then Some(InvalidThreshold)
    else if weekly < daily * 7 || monthly < weekly * 4 then Some(InvalidThreshold)
    else None
  }

  /** The errors automatic processing passes on: not qualifying and an
      incentive that already exists are successes. */
  function AutomaticOutcome(r: Result<(), WaterError>): (o: Result<(), WaterError>)
    ensures o.Ok? <==> r.Ok? || r.error == InsufficientEfficiency || r.error == IncentiveAlreadyExists
    ensures o.Err? ==> o == r
  {
    if r.Ok? || r.error == InsufficientEfficiency || r.error == IncentiveAlreadyExists then Ok(()) else r
  }

  // ---------------------------------------------------------------------
  // Alerts
  // ---------------------------------------------------------------------

  /** An alert listed for a farmer, filtered by its resolved flag. */
  predicate Shown(alerts: map<AlertId, Alert>, id: AlertId, includeResolved: bool)
  {
    id in alerts && (includeResolved || !alerts[id].resolved)
  }

  /** The listed alerts that are stored and, unless resolved ones are
      wanted, unresolved, in listing order. */
  function FarmerAlerts(ids: seq<AlertId>, alerts: map<AlertId, Alert>, includeResolved: bool): seq<Alert>
  {
    if ids == [] then []
    else
      var id := ids[|ids| - 1];
      FarmerAlerts(ids[..|ids| - 1], alerts, includeResolved) +
      (if Shown(alerts, id, includeResolved) then [alerts[id]] else [])
  }

  /** Without resolved alerts the listing holds exactly the unresolved
      alerts of the listed ids. */
  lemma {:induction false} FarmerAlertsExact(ids: seq<AlertId>, alerts: map<AlertId, Alert>, includeResolved: bool,
                                             a: Alert)
    requires forall id :: id in alerts ==> alerts[id].alertId == id
    ensures a in FarmerAlerts(ids, alerts, includeResolved) <==>
            a.alertId in ids && Shown(alerts, a.alertId, includeResolved) && alerts[a.alertId] == a
  {
    if ids != [] {
      FarmerAlertsExact(ids[..|ids| - 1], alerts, includeResolved, a);
      assert ids == ids[..|ids| - 1] + [ids[|ids| - 1]];
    }
  }

  /** The alerts one usage record triggers against its parcel's threshold:
      the day's or the week's parcel total above its limit, or the record
      alone above half the daily limit (the halving truncates). */
  function AlertsFor(dailyTotal: int, weeklyTotal: int, volume: int, t: WaterThreshold): (ks: seq<AlertKind>)
    ensures DailyExceeded in ks <==> dailyTotal > t.dailyLimit
    ensures WeeklyExceeded in ks <==> weeklyTotal > t.weeklyLimit
    ensures ExcessiveSingle in ks <==> volume > Quot(t.dailyLimit, 2)
    ensures NoDuplicates(ks)
  {
    (if dailyTotal > t.dailyLimit then [DailyExceeded] else []) +
    (if weeklyTotal > t.weeklyLimit then [WeeklyExceeded] else []) +
    (if volume > Quot(t.dailyLimit, 2) then [ExcessiveSingle] else [])
  }

  function AlertTypeOf(k: AlertKind): AlertType
  {
    if k == ExcessiveSingle then ExcessiveUsage else ThresholdExceeded
  }

  function MessageOf(k: AlertKind): (m: string)
    ensures |m| > 0
  {
    match k
    case DailyExceeded => "Daily water limit exceeded"
    case WeeklyExceeded => "Weekly water limit exceeded"
    case ExcessiveSingle => "Excessive single usage detected"
  }

  /** The first eight bytes of each kind's id suffix ("daily_ex",
      "weekly_e", "excessiv"), read big-endian. */
  function SuffixCode(k: AlertKind): (c: nat)
    ensures c < 0x1_0000_0000_0000_0000
  {
    match k
    case DailyExceeded => 0x6461696c795f6578
    case WeeklyExceeded => 0x7765656b6c795f65
    case ExcessiveSingle => 0x6578636573736976
  }

  /** `generate_alert_id`, with ids read as big-endian 256-bit numbers: the
      eight bytes of the timestamp, the first sixteen bytes of the parcel
      id, then the eight suffix bytes. The farmer plays no part. */
  function AlertIdOf(time: nat, parcel: ParcelId, k: AlertKind): (id: AlertId)
  {
    AlertPrefix(time, parcel) * 0x1_0000_0000_0000_0000 + SuffixCode(k)
  }

  /** The first 24 bytes of an alert id: the timestamp's eight bytes, then
      the parcel id's first sixteen. */
  function AlertPrefix(time: nat, parcel: ParcelId): (p: nat)
    ensures p < 0x1_0000_0000_0000_0000_0000_0000_0000_0000_0000_0000_0000_0000
  {
    (time % 0x1_0000_0000_0000_0000) * 0x1_0000_0000_0000_0000_0000_0000_0000_0000
    + (parcel / 0x1_0000_0000_0000_0000_0000_0000_0000_0000) % 0x1_0000_0000_0000_0000_0000_0000_0000_0000
  }

  /** Within one call the kinds get distinct ids. */
  lemma AlertIdsDistinct(time: nat, parcel: ParcelId, k1: AlertKind, k2: AlertKind)
    requires k1 != k2
    ensures AlertIdOf(time, parcel, k1) != AlertIdOf(time, parcel, k2)
  {
  }

  /** The alert `check_usage_and_alert` generates for one kind. */
  function NewAlert(u: WaterUsage, k: AlertKind, time: nat): (a: Alert)
    ensures a.alertId == AlertIdOf(time, u.parcel, k) && a.farmer == u.farmer && a.parcel == u.parcel
    ensures a.alertType == ExcessiveUsage <==> k == ExcessiveSingle
    ensures |a.message| > 0 && a.timestamp == time && !a.resolved
  {
    Alert(AlertIdOf(time, u.parcel, k), u.farmer, u.parcel, AlertTypeOf(k), MessageOf(k), time, false)
  }

  /** The ids of the kinds, in order, that are not stored yet: the ones the
      farmer's alert list gains. */
  function FreshIds(alerts: map<AlertId, Alert>, parcel: ParcelId, time: nat, kinds: seq<AlertKind>)
    : seq<AlertId>
  {
    if kinds == [] then []
    else
      var id := AlertIdOf(time, parcel, kinds[|kinds| - 1]);
      FreshIds(alerts, parcel, time, kinds[..|kinds| - 1]) + (if id in alerts then [] else [id])
  }

  /** The farmer's list gains exactly the ids of the kinds not stored yet,
      each once. */
  lemma {:induction false} FreshIdsExact(alerts: map<AlertId, Alert>, parcel: ParcelId, time: nat,
                                         kinds: seq<AlertKind>)
    requires NoDuplicates(kinds)
    ensures forall x :: x in FreshIds(alerts, parcel, time, kinds) <==>
      x !in alerts && exists k :: k in kinds && AlertIdOf(time, parcel, k) == x
    ensures NoDuplicates(FreshIds(alerts, parcel, time, kinds))
  {
    if kinds != [] {
      var init, last := kinds[..|kinds| - 1], kinds[|kinds| - 1];
      assert kinds == init + [last];
      PrefixNoDuplicates(kinds, |kinds| - 1);
      FreshIdsExact(alerts, parcel, time, init);
      forall k | k in init ensures AlertIdOf(time, parcel, k) != AlertIdOf(time, parcel, last) {
        var i :| 0 <= i < |init| && init[i] == k;
        assert kinds[i] == k && kinds[|kinds| - 1] == last;
        AlertIdsDistinct(time, parcel, k, last);
      }
      forall x ensures x in FreshIds(alerts, parcel, time, kinds) <==>
        x !in alerts && exists k :: k in kinds && AlertIdOf(time, parcel, k) == x
      {
        if x !in alerts && exists k :: k in kinds && AlertIdOf(time, parcel, k) == x {
          var k :| k in kinds && AlertIdOf(time, parcel, k) == x;
          if k != last {
            assert k in init;
          }
        }
      }
    }
  }

  lemma PrefixNoDuplicates<T>(s: seq<T>, n: nat)
    requires NoDuplicates(s) && n <= |s|
    ensures NoDuplicates(s[..n])
  {
    forall i, j | 0 <= i < j < n ensures s[..n][i] != s[..n][j] {
      assert s[..n][i] == s[i] && s[..n][j] == s[j];
    }
  }

  /** The identifier checks `generate_alert` makes for every kind raised:
      the parcel id and each alert id must be valid. */
  predicate AlertIdsValid(h: Helpers, parcel: ParcelId, time: nat, kinds: seq<AlertKind>)
  {
    forall k :: k in kinds ==> h.validId(parcel) && h.validId(AlertIdOf(time, parcel, k))
  }

  /** How many of the kinds, from the first, pass those checks: the
      alerts `check_usage_and_alert` writes before a failing
      `generate_alert` stops it. */
  function ValidPrefix(h: Helpers, parcel: ParcelId, time: nat, kinds: seq<AlertKind>): (n: nat)
    ensures n <= |kinds| && AlertIdsValid(h, parcel, time, kinds[..n])
    ensures n < |kinds| ==> !(h.validId(parcel) && h.validId(AlertIdOf(time, parcel, kinds[n])))
    ensures n == |kinds| <==> AlertIdsValid(h, parcel, time, kinds)
  {
    if kinds == [] then 0
    else if !(h.validId(parcel) && h.validId(AlertIdOf(time, parcel, kinds[0]))) then
      assert kinds[0] in kinds;
      0
    else
      var n := 1 + ValidPrefix(h, parcel, time, kinds[1..]);
      assert kinds[..n] == [kinds[0]] + kinds[1..][..n - 1];
      assert kinds == [kinds[0]] + kinds[1..];
      n
  }

  /** The alerts after raising the kinds one after the other, each one
      generated only when its id is not stored yet. */
  function RaisedAlerts(alerts: map<AlertId, Alert>, u: WaterUsage, time: nat, kinds: seq<AlertKind>)
    : map<AlertId, Alert>
  {
    if kinds == [] then alerts
    else
      var before := RaisedAlerts(alerts, u, time, kinds[..|kinds| - 1]);
      var k := kinds[|kinds| - 1];
      var id := AlertIdOf(time, u.parcel, k);
      if id in before then before else before[id := NewAlert(u, k, time)]
  }

  /** Raising the kinds adds exactly their ids to the stored ones. */
  lemma {:induction false} RaisedKeys(alerts: map<AlertId, Alert>, u: WaterUsage, time: nat,
                                      kinds: seq<AlertKind>)
    ensures RaisedAlerts(alerts, u, time, kinds).Keys
         == alerts.Keys + (set k | k in kinds :: AlertIdOf(time, u.parcel, k))
  {
    if kinds != [] {
      var init, last := kinds[..|kinds| - 1], kinds[|kinds| - 1];
      RaisedKeys(alerts, u, time, init);
      assert kinds == init + [last];
      assert (set k | k in kinds :: AlertIdOf(time, u.parcel, k))
          == (set k | k in init :: AlertIdOf(time, u.parcel, k)) + {AlertIdOf(time, u.parcel, last)};
    }
  }

  /** Raising keeps every stored alert as it was. */
  lemma {:induction false} RaisedKeepsStored(alerts: map<AlertId, Alert>, u: WaterUsage, time: nat,
                                             kinds: seq<AlertKind>, a: AlertId)
    requires a in alerts
    ensures a in RaisedAlerts(alerts, u, time, kinds) && RaisedAlerts(alerts, u, time, kinds)[a] == alerts[a]
  {
    if kinds != [] {
      RaisedKeepsStored(alerts, u, time, kinds[..|kinds| - 1], a);
    }
  }

  /** Raising distinct kinds stores each new one as `generate_alert`
      builds it. */
  lemma {:induction false} RaisedNew(alerts: map<AlertId, Alert>, u: WaterUsage, time: nat,
                                     kinds: seq<AlertKind>, k: AlertKind)
    requires NoDuplicates(kinds) && k in kinds && AlertIdOf(time, u.parcel, k) !in alerts
    ensures AlertIdOf(time, u.parcel, k) in RaisedAlerts(alerts, u, time, kinds)
    ensures RaisedAlerts(alerts, u, time, kinds)[AlertIdOf(time, u.parcel, k)] == NewAlert(u, k, time)
  {
    var init, last := kinds[..|kinds| - 1], kinds[|kinds| - 1];
    assert kinds == init + [last];
    PrefixNoDuplicates(kinds, |kinds| - 1);
    if k == last {
      RaisedKeepsNextAbsent(alerts, u, time, kinds, |kinds| - 1);
    } else {
      assert k in init;
      RaisedNew(alerts, u, time, init, k);
      AlertIdsDistinct(time, u.parcel, k, last);
    }
  }

  /** The id of a kind not raised yet is stored after raising the earlier
      kinds exactly when it was stored before. */
  lemma RaisedKeepsNextAbsent(alerts: map<AlertId, Alert>, u: WaterUsage, time: nat,
                              kinds: seq<AlertKind>, i: nat)
    requires NoDuplicates(kinds) && i < |kinds|
    ensures AlertIdOf(time, u.parcel, kinds[i]) in RaisedAlerts(alerts, u, time, kinds[..i])
        <==> AlertIdOf(time, u.parcel, kinds[i]) in alerts
  {
    RaisedKeys(alerts, u, time, kinds[..i]);
    forall k | k in kinds[..i] ensures AlertIdOf(time, u.parcel, k) != AlertIdOf(time, u.parcel, kinds[i]) {
      var j :| 0 <= j < i && kinds[j] == k;
      AlertIdsDistinct(time, u.parcel, k, kinds[i]);
    }
  }

  /** The farmer index after the `added` ids are appended to `farmer`'s
      list: untouched when there are none. */
  function ListedAfter(lists: map<Address, seq<AlertId>>, farmer: Address, added: seq<AlertId>)
    : (m: map<Address, seq<AlertId>>)
    ensures ListAt(m, farmer) == ListAt(lists, farmer) + added
    ensures forall f :: f != farmer ==> ListAt(m, f) == ListAt(lists, f)
  {
    if added == [] then lists else lists[farmer := ListAt(lists, farmer) + added]
  }

  /** Appending one more id to the farmer's list. */
  lemma ListedAfterAppend(lists: map<Address, seq<AlertId>>, farmer: Address, added: seq<AlertId>, id: AlertId)
    ensures ListedAfter(lists, farmer, added + [id])
         == ListedAfter(lists, farmer, added)[farmer := ListAt(ListedAfter(lists, farmer, added), farmer) + [id]]
  {
    assert ListAt(lists, farmer) + added + [id] == ListAt(lists, farmer) + (added + [id]);
  }

  class WaterContract {
    const helpers: Helpers
    const admin: Address
    var now: nat
    var usages: map<UsageId, WaterUsage>
    var farmerUsages: map<Address, seq<UsageId>>
    var parcelUsages: map<ParcelId, seq<UsageId>>
    var thresholds: map<ParcelId, WaterThreshold>
    var incentives: map<UsageId, Incentive>
    var farmerIncentives: map<Address, seq<UsageId>>
    var alerts: map<AlertId, Alert>
    var farmerAlerts: map<Address, seq<AlertId>>

    /** Records, incentives and alerts are stored under their own ids;
        every listed usage id is a record of that farmer (or parcel), and
        no list repeats an id; every incentive is positive, belongs to its
        usage's farmer and is listed once for that farmer. */
    ghost predicate Valid()
      reads this`usages, this`farmerUsages, this`parcelUsages, this`incentives, this`farmerIncentives,
            this`alerts
    {
      (forall id :: id in usages ==> usages[id].usageId == id) &&
      (forall f :: f in farmerUsages ==> FarmerListValid(farmerUsages[f], f, usages)) &&
      (forall p :: p in parcelUsages ==> ParcelListValid(parcelUsages[p], p, usages)) &&
      (forall id :: id in incentives ==>
         incentives[id].usageId == id && incentives[id].rewardAmount > 0) &&
      (forall f :: f in farmerIncentives ==> IncentiveListValid(farmerIncentives[f], f, incentives)) &&
      (forall id :: id in alerts ==> alerts[id].alertId == id)
    }

    static ghost predicate FarmerListValid(s: seq<UsageId>, f: Address, usages: map<UsageId, WaterUsage>)
    {
      NoDuplicates(s) && forall i :: 0 <= i < |s| ==> s[i] in usages && usages[s[i]].farmer == f
    }

    static ghost predicate ParcelListValid(s: seq<UsageId>, p: ParcelId, usages: map<UsageId, WaterUsage>)
    {
      NoDuplicates(s) && forall i :: 0 <= i < |s| ==> s[i] in usages && usages[s[i]].parcel == p
    }

    static ghost predicate IncentiveListValid(s: seq<UsageId>, f: Address, incentives: map<UsageId, Incentive>)
    {
      NoDuplicates(s) && forall i :: 0 <= i < |s| ==> s[i] in incentives && incentives[s[i]].farmer == f
    }

    constructor (h: Helpers, adminAddress: Address, time: nat)
      ensures helpers == h && admin == adminAddress && now == time
      ensures usages == map[] && farmerUsages == map[] && parcelUsages == map[] && thresholds == map[]
      ensures incentives == map[] && farmerIncentives == map[] && alerts == map[] && farmerAlerts == map[]
      ensures Valid()
    {
      helpers := h;
      admin := adminAddress;
      now := time;
      usages := map[];
      farmerUsages := map[];
      parcelUsages := map[];
      thresholds := map[];
      incentives := map[];
      farmerIncentives := map[];
      alerts := map[];
      farmerAlerts := map[];
    }

    method Tick(time: nat)
      requires now <= time
      modifies this`now
      ensures now == time
    {
      now := time;
    }

    /** `record_usage`: after the validators, a duplicate id is refused;
        otherwise the record is stored at the current time and its id is
        appended to the farmer's and the parcel's lists. */
    method RecordUsage(id: UsageId, farmer: Address, parcel: ParcelId, volume: int)
      returns (r: Result<(), WaterError>)
      requires Valid()
      modifies this`usages, this`farmerUsages, this`parcelUsages
      ensures Valid()
      ensures r.Err? ==> unchanged(this)
      ensures !helpers.validUsage(id, parcel, volume) ==> r == Err(ValidationFailed)
      ensures helpers.validUsage(id, parcel, volume) && id in old(usages) ==> r == Err(UsageAlreadyExists)
      ensures r.Ok? <==> helpers.validUsage(id, parcel, volume) && id !in old(usages) && helpers.validTime(now)
      ensures r.Ok? ==>
        var u := WaterUsage(id, farmer, parcel, volume, now);
        usages == old(usages)[id := u] &&
        farmerUsages == old(farmerUsages)[farmer := old(ListAt(farmerUsages, farmer)) + [id]] &&
        parcelUsages == old(parcelUsages)[parcel := old(ListAt(parcelUsages, parcel)) + [id]]
    {
      if !helpers.validUsage(id, parcel, volume) {
        return Err(ValidationFailed);
      }
      if id in usages {
        return Err(UsageAlreadyExists);
      }
      if !helpers.validTime(now) {
        return Err(ValidationFailed);
      }
      var u := WaterUsage(id, farmer, parcel, volume, now);
      var fl, pl := ListAt(farmerUsages, farmer), ListAt(parcelUsages, parcel);
      assert FarmerListValid(fl, farmer, usages) && ParcelListValid(pl, parcel, usages);
      AppendFresh(fl, id);
      AppendFresh(pl, id);
      var usages' := usages[id := u];
      assert FarmerListValid(fl + [id], farmer, usages');
      assert ParcelListValid(pl + [id], parcel, usages');
      forall f | f in farmerUsages
        ensures FarmerListValid(farmerUsages[f], f, usages')
      {
        assert FarmerListValid(farmerUsages[f], f, usages);
      }
      forall p | p in parcelUsages
        ensures ParcelListValid(parcelUsages[p], p, usages')
      {
        assert ParcelListValid(parcelUsages[p], p, usages);
      }
      usages := usages';
      farmerUsages := farmerUsages[farmer := fl + [id]];
      parcelUsages := parcelUsages[parcel := pl + [id]];
      r := Ok(());
    }

    function ListedUsages(farmer: Address, parcel: Option<ParcelId>): seq<UsageId>
      reads this`farmerUsages, this`parcelUsages
    {
      if parcel.Some? then ListAt(parcelUsages, parcel.value) else ListAt(farmerUsages, farmer)
    }

    /** `get_usage_report`: an empty or inverted period is refused; the
        total is the volume of the records that count, and the efficiency
        score their average score, rounded down (0 with no record). */
    method UsageReportOf(farmer: Address, parcel: Option<ParcelId>, start: nat, end: nat)
      returns (r: Result<UsageReport, WaterError>)
      ensures start >= end <==> r == Err(InvalidTimestamp)
      ensures r.Ok? ==>
        var ids := ListedUsages(farmer, parcel);
        var count := PeriodCount(ids, usages, parcel, start, end);
        var eff := PeriodEfficiency(helpers, ids, usages, thresholds, parcel, start, end);
        r.value.farmer == farmer && r.value.parcel == parcel &&
        r.value.periodStart == start && r.value.periodEnd == end &&
        r.value.totalUsage == PeriodVolume(ids, usages, parcel, start, end) &&
        (count == 0 ==> r.value.efficiencyScore == 0) &&
        (count > 0 ==> r.value.efficiencyScore * count <= eff < (r.value.efficiencyScore + 1) * count)
    {
      if start >= end {
        return Err(InvalidTimestamp);
      }
      var ids := ListedUsages(farmer, parcel);
      var total, count, eff := PeriodTotals(ids, parcel, start, end);
      var score := 0;
      if count > 0 {
        score := eff / count;
        FloorAverage(eff, count);
      }
      r := Ok(UsageReport(farmer, parcel, total, start, end, score));
    }

    /** The volume, the number and the summed efficiency of the records
        among `ids` that count for the period. */
    method PeriodTotals(ids: seq<UsageId>, parcel: Option<ParcelId>, start: nat, end: nat)
      returns (total: int, count: nat, eff: int)
      ensures total == PeriodVolume(ids, usages, parcel, start, end)
      ensures count == PeriodCount(ids, usages, parcel, start, end)
      ensures eff == PeriodEfficiency(helpers, ids, usages, thresholds, parcel, start, end)
    {
      total, count, eff := 0, 0, 0;
      var i := 0;
      while i < |ids|
        invariant 0 <= i <= |ids|
        invariant total == PeriodVolume(ids[..i], usages, parcel, start, end)
        invariant count == PeriodCount(ids[..i], usages, parcel, start, end)
        invariant eff == PeriodEfficiency(helpers, ids[..i], usages, thresholds, parcel, start, end)
      {
        assert ids[..i + 1][..i] == ids[..i];
        var id := ids[i];
        if CountedAt(usages, id, parcel, start, end) {
          var u := usages[id];
          total := total + u.volume;
          count := count + 1;
          if u.parcel in thresholds {
            eff := eff + helpers.efficiency(u.volume, thresholds[u.parcel].dailyLimit);
          }
        }
        i := i + 1;
      }
      assert ids[..|ids|] == ids;
    }

    /** `issue_incentive`: the usage must exist and have no incentive yet,
        its parcel must have a threshold, the usage must qualify and the
        reward be positive; the incentive is stored at the current time and
        the usage id appended to the farmer's incentive list. */
    method IssueIncentive(id: UsageId, baseReward: int) returns (r: Result<(), WaterError>)
      requires Valid()
      modifies this`incentives, this`farmerIncentives
      ensures Valid()
      ensures r.Err? ==> unchanged(this)
      ensures id !in old(usages) ==> r == Err(UsageNotFound)
      ensures id in old(usages) && id in old(incentives) ==> r == Err(IncentiveAlreadyExists)
      ensures id in usages && id !in old(incentives) && usages[id].parcel !in thresholds ==>
        r == Err(ThresholdNotFound)
      ensures id in usages && id !in old(incentives) && usages[id].parcel in thresholds ==>
        var daily := thresholds[usages[id].parcel].dailyLimit;
        var amount := helpers.reward(usages[id].volume, daily, baseReward);
        (!helpers.qualifies(usages[id].volume, daily) ==> r == Err(InsufficientEfficiency)) &&
        (helpers.qualifies(usages[id].volume, daily) && amount <= 0 ==> r == Err(InvalidRewardAmount))
      ensures r.Ok? <==>
        id in usages && id !in old(incentives) && usages[id].parcel in thresholds &&
        helpers.qualifies(usages[id].volume, thresholds[usages[id].parcel].dailyLimit) &&
        helpers.reward(usages[id].volume, thresholds[usages[id].parcel].dailyLimit, baseReward) > 0
      ensures r.Ok? ==>
        var u := usages[id];
        var amount := helpers.reward(u.volume, thresholds[u.parcel].dailyLimit, baseReward);
        incentives == old(incentives)[id := Incentive(u.farmer, amount, now, id)] &&
        farmerIncentives == old(farmerIncentives)[u.farmer := old(ListAt(farmerIncentives, u.farmer)) + [id]]
    {
      if id !in usages {
        return Err(UsageNotFound);
      }
      var u := usages[id];
      if id in incentives {
        return Err(IncentiveAlreadyExists);
      }
      if u.parcel !in thresholds {
        return Err(ThresholdNotFound);
      }
      var daily := thresholds[u.parcel].dailyLimit;
      if !helpers.qualifies(u.volume, daily) {
        return Err(InsufficientEfficiency);
      }
      var amount := helpers.reward(u.volume, daily, baseReward);
      if amount <= 0 {
        return Err(InvalidRewardAmount);
      }
      var list := ListAt(farmerIncentives, u.farmer);
      assert IncentiveListValid(list, u.farmer, incentives);
      AppendFresh(list, id);
      var incentives' := incentives[id := Incentive(u.farmer, amount, now, id)];
      assert IncentiveListValid(list + [id], u.farmer, incentives');
      forall f | f in farmerIncentives
        ensures IncentiveListValid(farmerIncentives[f], f, incentives')
      {
        assert IncentiveListValid(farmerIncentives[f], f, incentives);
      }
      incentives := incentives';
      farmerIncentives := farmerIncentives[u.farmer := list + [id]];
      r := Ok(());
    }

    /** `calculate_farmer_rewards`: an empty or inverted period is refused;
        otherwise the rewards of the farmer's incentives in the period. */
    method FarmerRewards(farmer: Address, start: nat, end: nat) returns (r: Result<int, WaterError>)
      requires Valid()
      ensures start >= end <==> r == Err(InvalidTimestamp)
      ensures r.Ok? ==> r.value == PeriodRewards(ListAt(farmerIncentives, farmer), incentives, start, end)
      ensures r.Ok? ==> r.value >= 0
    {
      if start >= end {
        return Err(InvalidTimestamp);
      }
      var ids := ListAt(farmerIncentives, farmer);
      var total := 0;
      var i := 0;
      while i < |ids|
        invariant 0 <= i <= |ids|
        invariant total == PeriodRewards(ids[..i], incentives, start, end)
      {
        assert ids[..i + 1][..i] == ids[..i];
        var id := ids[i];
        if id in incentives && start <= incentives[id].timestamp <= end {
          total := total + incentives[id].rewardAmount;
        }
        i := i + 1;
      }
      assert ids[..|ids|] == ids;
      PeriodRewardsNonNegative(ids, incentives, start, end);
      r := Ok(total);
    }

    /** `process_automatic_incentive`: issuing with the default base reward,
        where not qualifying or an existing incentive are successes that
        change nothing. */
    method ProcessAutomaticIncentive(id: UsageId) returns (r: Result<(), WaterError>)
      requires Valid()
      modifies this`incentives, this`farmerIncentives
      ensures Valid()
      ensures r.Err? ==> unchanged(this)
      ensures id in old(usages) && id in old(incentives) ==> r.Ok? && unchanged(this)
      ensures id !in old(usages) ==> r == Err(UsageNotFound)
      ensures id in usages && id !in old(incentives) && usages[id].parcel !in thresholds ==>
        r == Err(ThresholdNotFound)
      ensures id in usages && id !in old(incentives) && usages[id].parcel in thresholds ==>
        var u := usages[id];
        var daily := thresholds[u.parcel].dailyLimit;
        var amount := helpers.reward(u.volume, daily, DEFAULT_BASE_REWARD);
        (!helpers.qualifies(u.volume, daily) ==> r.Ok? && unchanged(this)) &&
        (helpers.qualifies(u.volume, daily) && amount <= 0 ==> r == Err(InvalidRewardAmount)) &&
        (helpers.qualifies(u.volume, daily) && amount > 0 ==>
           r.Ok? &&
           incentives == old(incentives)[id := Incentive(u.farmer, amount, now, id)] &&
           farmerIncentives == old(farmerIncentives)[u.farmer := old(ListAt(farmerIncentives, u.farmer)) + [id]])
    {
      var issued := IssueIncentive(id, DEFAULT_BASE_REWARD);
      r := AutomaticOutcome(issued);
    }

    /** `set_threshold`: the admin stores a parcel's limits when they are
        consistent. */
    method SetThreshold(caller: Address, parcel: ParcelId, daily: int, weekly: int, monthly: int)
      returns (r: Result<(), WaterError>)
      modifies this`thresholds
      ensures r.Err? ==> unchanged(this)
      ensures caller != admin ==> r == Err(Unauthorized)
      ensures r.Ok? <==> caller == admin && helpers.validId(parcel) && ThresholdCheck(daily, weekly, monthly).None?
      ensures r.Ok? ==> thresholds == old(thresholds)[parcel := WaterThreshold(parcel, daily, weekly, monthly)]
    {
      if caller != admin {
        return Err(Unauthorized);
      }
      if !helpers.validId(parcel) {
        return Err(ValidationFailed);
      }
      var e := ThresholdCheck(daily, weekly, monthly);
      if e.Some? {
        return Err(e.value);
      }
      thresholds := thresholds[parcel := WaterThreshold(parcel, daily, weekly, monthly)];
      r := Ok(());
    }

    /** `generate_alert`: after the identifier checks, an empty message and
        a duplicate id are refused; a new alert is stored unresolved at the
        current time and appended to the farmer's alert list. */
    method GenerateAlert(id: AlertId, farmer: Address, parcel: ParcelId, alertType: AlertType, message: string)
      returns (r: Result<(), WaterError>)
      requires Valid()
      modifies this`alerts, this`farmerAlerts
      ensures Valid()
      ensures r.Err? ==> unchanged(this)
      ensures helpers.validId(id) && helpers.validId(parcel) && |message| > 0 && id in old(alerts) ==>
                r == Err(AlertAlreadyExists)
      ensures r.Ok? <==> helpers.validId(id) && helpers.validId(parcel) && |message| > 0 && id !in old(alerts)
      ensures r.Ok? ==>
        alerts == old(alerts)[id := Alert(id, farmer, parcel, alertType, message, now, false)] &&
        farmerAlerts == old(farmerAlerts)[farmer := old(ListAt(farmerAlerts, farmer)) + [id]]
    {
      if !helpers.validId(id) || !helpers.validId(parcel) {
        return Err(ValidationFailed);
      }
      if |message| == 0 {
        return Err(InvalidInput);
      }
      if id in alerts {
        return Err(AlertAlreadyExists);
      }
      alerts := alerts[id := Alert(id, farmer, parcel, alertType, message, now, false)];
      farmerAlerts := farmerAlerts[farmer := ListAt(farmerAlerts, farmer) + [id]];
      r := Ok(());
    }

    /** `resolve_alert`: a stored alert is marked resolved; resolving it
        again succeeds and changes nothing. */
    method ResolveAlert(id: AlertId) returns (r: Result<(), WaterError>)
      requires Valid()
      modifies this`alerts
      ensures Valid()
      ensures id !in old(alerts) <==> r == Err(AlertNotFound)
      ensures r.Err? ==> unchanged(this)
      ensures r.Ok? ==> alerts == old(alerts)[id := old(alerts)[id].(resolved := true)]
      ensures id in old(alerts) && old(alerts)[id].resolved ==> unchanged(this)
    {
      if id !in alerts {
        return Err(AlertNotFound);
      }
      if alerts[id].resolved {
        assert alerts == alerts[id := alerts[id].(resolved := true)];
        return Ok(());
      }
      alerts := alerts[id := alerts[id].(resolved := true)];
      r := Ok(());
    }

    /** `get_farmer_alerts`: the farmer's listed alerts, without the
        resolved ones unless they are asked for. */
    method FarmerAlertsOf(farmer: Address, includeResolved: bool) returns (result: seq<Alert>)
      ensures result == FarmerAlerts(ListAt(farmerAlerts, farmer), alerts, includeResolved)
    {
      var ids := ListAt(farmerAlerts, farmer);
      result := [];
      var i := 0;
      while i < |ids|
        invariant 0 <= i <= |ids|
        invariant result == FarmerAlerts(ids[..i], alerts, includeResolved)
      {
        assert ids[..i + 1][..i] == ids[..i];
        if ids[i] in alerts && (includeResolved || !alerts[ids[i]].resolved) {
          result := result + [alerts[ids[i]]];
        }
        i := i + 1;
      }
      assert ids[..|ids|] == ids;
    }

    /** `check_usage_and_alert`: with a threshold for the usage's parcel,
        raises the alerts `AlertsFor` names from the parcel's day and week
        totals, treating an alert that already exists as raised. The first
        alert whose identifiers fail validation stops it with an error, and
        the alerts raised before it stay: its only caller, `record_usage`,
        ignores the error, so nothing is reverted. */
    method CheckUsageAndAlert(id: UsageId) returns (r: Result<(), WaterError>)
      requires Valid()
      modifies this`alerts, this`farmerAlerts
      ensures Valid()
      ensures id !in old(usages) ==> r == Err(UsageNotFound) && unchanged(this)
      ensures id in old(usages) && usages[id].parcel !in thresholds ==> r.Ok? && unchanged(this)
      ensures id in usages && usages[id].parcel in thresholds ==>
        var u := usages[id];
        var kinds := Triggered(u);
        var n := ValidPrefix(helpers, u.parcel, now, kinds);
        (r.Ok? <==> AlertIdsValid(helpers, u.parcel, now, kinds)) &&
        alerts == RaisedAlerts(old(alerts), u, now, kinds[..n]) &&
        farmerAlerts == ListedAfter(old(farmerAlerts), u.farmer, FreshIds(old(alerts), u.parcel, now, kinds[..n]))
      ensures id in usages && usages[id].parcel in thresholds && r.Err? ==> r == Err(ValidationFailed)
    {
      if id !in usages {
        return Err(UsageNotFound);
      }
      var u := usages[id];
      if u.parcel !in thresholds {
        return Ok(());
      }
      var kinds := Triggered(u);
      var n := ValidPrefix(helpers, u.parcel, now, kinds);
      PrefixNoDuplicates(kinds, n);
      RaiseAlerts(u, kinds[..n]);
      if n == |kinds| {
        r := Ok(());
      } else {
        r := Err(ValidationFailed);
      }
    }

    /** The alerts of `check_usage_and_alert`, one after the other: the
        alerts not stored yet are added as `generate_alert` builds them and
        listed under the farmer, in order; nothing else changes. */
    method RaiseAlerts(u: WaterUsage, kinds: seq<AlertKind>)
      requires Valid() && NoDuplicates(kinds)
      requires AlertIdsValid(helpers, u.parcel, now, kinds)
      modifies this`alerts, this`farmerAlerts
      ensures Valid()
      ensures alerts.Keys == old(alerts).Keys + (set k | k in kinds :: AlertIdOf(now, u.parcel, k))
      ensures forall a :: a in old(alerts) ==> alerts[a] == old(alerts)[a]
      ensures forall k :: k in kinds && AlertIdOf(now, u.parcel, k) !in old(alerts) ==>
        alerts[AlertIdOf(now, u.parcel, k)] == NewAlert(u, k, now)
      ensures alerts == RaisedAlerts(old(alerts), u, now, kinds)
      ensures farmerAlerts == ListedAfter(old(farmerAlerts), u.farmer, FreshIds(old(alerts), u.parcel, now, kinds))
    {
      ghost var alerts0, lists0 := alerts, farmerAlerts;
      var i := 0;
      while i < |kinds|
        invariant 0 <= i <= |kinds|
        invariant Valid()
        invariant alerts == RaisedAlerts(alerts0, u, now, kinds[..i])
        invariant farmerAlerts == ListedAfter(lists0, u.farmer, FreshIds(alerts0, u.parcel, now, kinds[..i]))
      {
        var k := kinds[i];
        RaisedKeepsNextAbsent(alerts0, u, now, kinds, i);
        assert kinds[..i + 1][..i] == kinds[..i];
        assert kinds[..i + 1][i] == k;
        assert k in kinds;
        var aid := AlertIdOf(now, u.parcel, k);
        ghost var added := FreshIds(alerts0, u.parcel, now, kinds[..i]);
        assert FreshIds(alerts0, u.parcel, now, kinds[..i + 1]) == added + (if aid in alerts0 then [] else [aid]);
        ListedAfterAppend(lists0, u.farmer, added, aid);
        assert added + [] == added;
        RaiseAlert(u, k);
        i := i + 1;
      }
      assert kinds[..|kinds|] == kinds;
      RaisedKeys(alerts0, u, now, kinds);
      forall a | a in alerts0 ensures alerts[a] == alerts0[a] {
        RaisedKeepsStored(alerts0, u, now, kinds, a);
      }
      forall k | k in kinds && AlertIdOf(now, u.parcel, k) !in alerts0
        ensures alerts[AlertIdOf(now, u.parcel, k)] == NewAlert(u, k, now)
      {
        RaisedNew(alerts0, u, now, kinds, k);
      }
    }

    /** One alert of `check_usage_and_alert`: generated unless its id is
        already stored, in which case nothing changes. */
    method RaiseAlert(u: WaterUsage, k: AlertKind)
      requires Valid()
      requires helpers.validId(u.parcel) && helpers.validId(AlertIdOf(now, u.parcel, k))
      modifies this`alerts, this`farmerAlerts
      ensures Valid()
      ensures var aid := AlertIdOf(now, u.parcel, k);
        if aid in old(alerts) then alerts == old(alerts) && farmerAlerts == old(farmerAlerts)
        else alerts == old(alerts)[aid := NewAlert(u, k, now)] &&
             farmerAlerts == old(farmerAlerts)[u.farmer := old(ListAt(farmerAlerts, u.farmer)) + [aid]]
    {
      var aid := AlertIdOf(now, u.parcel, k);
      if aid !in alerts {
        var g := GenerateAlert(aid, u.farmer, u.parcel, AlertTypeOf(k), MessageOf(k));
      }
    }

    /** The alerts a stored usage with a parcel threshold triggers, from the
        parcel's totals over the day and the week starting at the usage's
        day and week starts. */
    function Triggered(u: WaterUsage): seq<AlertKind>
      reads this`farmerUsages, this`parcelUsages, this`usages, this`thresholds
      requires u.parcel in thresholds
    {
      var ids := ListAt(parcelUsages, u.parcel);
      var day := helpers.dayStart(u.timestamp);
      var week := helpers.weekStart(u.timestamp);
      AlertsFor(PeriodVolume(ids, usages, Some(u.parcel), day, day + SECONDS_PER_DAY),
                PeriodVolume(ids, usages, Some(u.parcel), week, week + SECONDS_PER_WEEK),
                u.volume, thresholds[u.parcel])
    }
  }
}
