/*
 * Issuance and audit in the certification contract. Verified issuers
 * issue certifications to holders; each certification is stored under its
 * id and listed under its holder, its issuer and its type. Audit queries
 * read those lists back, skipping ids with no stored certification, and
 * filter them by type and status.
 */
module Certification {
  import opened Common

  type Hash = seq<bv8>

  datatype CertificationType =
    | Organic | FairTrade | UTZ | RainforestAlliance | ISO9001 | ISO14001 | HACCP | Kosher | Halal | Demeter
    | Custom(name: string)

  datatype Status = Valid | Revoked | Expired

  /** A certification id is a SHA-256 digest. Digests are treated as
      collision-free, so an id is modelled by the inputs it hashes; the
      intended inputs are the issuer, the holder, the document hash and the
      issue time. */
  datatype CertId = CertId(issuer: Address, holder: Address, documentHash: Hash, timestamp: nat)

  datatype CertificationData = CertificationData(
    id: CertId, issuer: Address, holder: Address, certType: CertificationType, documentHash: Hash,
    metadata: seq<string>, status: Status, issueDate: nat, validFrom: nat, validTo: nat,
    revocationReason: Option<string>, lastUpdated: nat)

  /** The keys of the three id lists in storage. */
  datatype ListKey =
    | HolderCertifications(holder: Address)
    | IssuerCertifications(issuer: Address)
    | CertificationsByType(certType: CertificationType)

  datatype CertificationEvent = CertificationEvent(id: CertId, eventType: string, timestamp: nat, data: seq<string>)

  datatype CertificationError =
    | AlreadyInitialized
    | CertificationNotFound
    | InvalidIssuer
    | InvalidMetadata
    | InvalidStatus
    | InvalidValidity
    | UnauthorizedAccess

  const ISSUED: string := "issued"

  /** Metadata has fewer than 100 entries. */
  const METADATA_LIMIT: nat := 100

  /** The ten types that are counted, in the order they are reported. */
  const STANDARD_TYPES: seq<CertificationType> :=
    [Organic, FairTrade, UTZ, RainforestAlliance, ISO9001, ISO14001, HACCP, Kosher, Halal, Demeter]

  function ListAt<K, V>(m: map<K, seq<V>>, k: K): seq<V>
  {
    if k in m then m[k] else []
  }

  // ---------------------------------------------------------------------
  // Ids

  /** `generate_certification_id` as written: the issuer and holder are
      passed in but only the document hash and the timestamp are hashed. */
  function IdAsWritten(issuer: Address, holder: Address, documentHash: Hash, timestamp: nat): (id: (Hash, nat))
    ensures id.0 == documentHash && id.1 == timestamp
  {
    (documentHash, timestamp)
  }

  /** The id as intended: all four inputs are hashed. */
  function CertificationId(issuer: Address, holder: Address, documentHash: Hash, timestamp: nat): (id: CertId)
    ensures id.issuer == issuer && id.holder == holder && id.documentHash == documentHash && id.timestamp == timestamp
  {
    CertId(issuer, holder, documentHash, timestamp)
  }

  /** As written, two issuers certifying the same document in the same
      second get the same id, and the second issuance is refused as already
      initialized; the intended ids differ. */
  lemma IdCollisionAsWritten(i1: Address, h1: Address, i2: Address, h2: Address, doc: Hash, t: nat,
                             metadata: seq<string>, validFrom: nat, validTo: nat)
    requires i1 != i2
    requires 0 < |metadata| < METADATA_LIMIT && t <= validFrom < validTo
    ensures IdAsWritten(i1, h1, doc, t) == IdAsWritten(i2, h2, doc, t)
    ensures IssueCheck([i1, i2], i2, validFrom, validTo, metadata, t,
                       IdAsWritten(i2, h2, doc, t) in {IdAsWritten(i1, h1, doc, t)}) == Some(AlreadyInitialized)
    ensures CertificationId(i1, h1, doc, t) != CertificationId(i2, h2, doc, t)
    ensures IssueCheck([i1, i2], i2, validFrom, validTo, metadata, t,
                       CertificationId(i2, h2, doc, t) in {CertificationId(i1, h1, doc, t)}) == None
  {
  }

  // ---------------------------------------------------------------------
  // Issuance

  /** `validate_metadata`: between 1 and 99 entries. */
  function ValidateMetadata(metadata: seq<string>): (ok: bool)
    ensures ok <==> 0 < |metadata| < METADATA_LIMIT
  {
    |metadata| != 0 && |metadata| < METADATA_LIMIT
  }

  /** The checks of `issue_certification`, in order: a verified issuer, a
      validity period that starts now or later and ends after it starts,
      valid metadata, and an id not yet used. */
  function IssueCheck(verified: seq<Address>, issuer: Address, validFrom: nat, validTo: nat,
                      metadata: seq<string>, now: nat, idTaken: bool): (e: Option<CertificationError>)
    ensures e.None? <==>
      issuer in verified && now <= validFrom < validTo && 0 < |metadata| < METADATA_LIMIT && !idTaken
    ensures issuer !in verified ==> e == Some(InvalidIssuer)
    ensures issuer in verified && !(now <= validFrom < validTo) ==> e == Some(InvalidValidity)
  {
    if issuer !in verified then Some(InvalidIssuer)
    else if validFrom >= validTo || validFrom < now then Some(InvalidValidity)
    else if !ValidateMetadata(metadata) then Some(InvalidMetadata)
    else if idTaken then Some(AlreadyInitialized)
    else None
  }

  /** The record a successful issuance stores: Valid, issued and last
      updated now, with no revocation reason. */
  function NewCertification(id: CertId, certType: CertificationType, metadata: seq<string>,
                            validFrom: nat, validTo: nat, now: nat): (c: CertificationData)
    ensures c.id == id && c.issuer == id.issuer && c.holder == id.holder && c.documentHash == id.documentHash
    ensures c.status == Valid && c.revocationReason.None? && c.issueDate == now && c.lastUpdated == now
    ensures c.certType == certType && c.validFrom == validFrom && c.validTo == validTo && c.metadata == metadata
  {
    CertificationData(id, id.issuer, id.holder, certType, id.documentHash, metadata, Valid, now,
                      validFrom, validTo, None, now)
  }

  /** Whether a certification belongs in the list under a key. */
  predicate ListedUnder(c: CertificationData, k: ListKey)
  {
    match k
    case HolderCertifications(h) => c.holder == h
    case IssuerCertifications(i) => c.issuer == i
    case CertificationsByType(t) => c.certType == t
  }

  /** Every certification is stored under its own id, which names its
      issuer and holder. */
  ghost predicate StoredOk(certs: map<CertId, CertificationData>)
  {
    forall id :: id in certs ==> certs[id].id == id && certs[id].issuer == id.issuer && certs[id].holder == id.holder
  }

  /** Each list holds, once each, stored certifications that belong under
      its key. */
  ghost predicate ListsSound(certs: map<CertId, CertificationData>, lists: map<ListKey, seq<CertId>>)
  {
    forall k :: k in lists ==>
      NoDuplicates(lists[k]) && forall id :: id in lists[k] ==> id in certs && ListedUnder(certs[id], k)
  }

  /** Every stored certification is listed under its holder, its issuer
      and its type. */
  ghost predicate ListsComplete(certs: map<CertId, CertificationData>, lists: map<ListKey, seq<CertId>>)
  {
    forall id, k :: id in certs && ListedUnder(certs[id], k) ==> id in ListAt(lists, k)
  }

  ghost predicate StoreOk(certs: map<CertId, CertificationData>, lists: map<ListKey, seq<CertId>>)
  {
    StoredOk(certs) && ListsSound(certs, lists) && ListsComplete(certs, lists)
  }

  /** The lists after an id is appended under one key. */
  function Appended(lists: map<ListKey, seq<CertId>>, k: ListKey, id: CertId): (r: map<ListKey, seq<CertId>>)
    ensures ListAt(r, k) == ListAt(lists, k) + [id]
    ensures forall k' :: k' != k ==> ListAt(r, k') == ListAt(lists, k')
  {
    lists[k := ListAt(lists, k) + [id]]
  }

  /** The lists after issuance: the new id is appended under its holder,
      its issuer and its type. */
  function Indexed(lists: map<ListKey, seq<CertId>>, c: CertificationData): map<ListKey, seq<CertId>>
  {
    Appended(Appended(Appended(lists, HolderCertifications(c.holder), c.id), IssuerCertifications(c.issuer), c.id),
             CertificationsByType(c.certType), c.id)
  }

  /** Appending a fresh id under a key the new certification belongs under
      keeps the lists sound for the store holding it. */
  lemma AppendKeepsSound(certs: map<CertId, CertificationData>, lists: map<ListKey, seq<CertId>>,
                         c: CertificationData, k: ListKey)
    requires ListsSound(certs[c.id := c], lists) && c.id !in ListAt(lists, k) && ListedUnder(c, k)
    ensures ListsSound(certs[c.id := c], Appended(lists, k, c.id))
  {
    var after := certs[c.id := c];
    var listed := ListAt(lists, k);
    var extended := listed + [c.id];
    forall i, j | 0 <= i < j < |extended|
      ensures extended[i] != extended[j]
    {
      if j == |listed| {
        assert listed[i] in listed;
      }
    }
    forall id | id in extended
      ensures id in after && ListedUnder(after[id], k)
    {
      if id != c.id {
        assert id in listed;
      }
    }
  }

  /** A fresh certification's id is listed nowhere yet. */
  lemma FreshUnlisted(certs: map<CertId, CertificationData>, lists: map<ListKey, seq<CertId>>,
                      c: CertificationData, k: ListKey)
    requires ListsSound(certs, lists) && c.id !in certs
    ensures ListsSound(certs[c.id := c], lists) && c.id !in ListAt(lists, k)
  {
    var after := certs[c.id := c];
    forall k' | k' in lists
      ensures forall id :: id in lists[k'] ==> id in after && ListedUnder(after[id], k')
    {
      forall id | id in lists[k']
        ensures id in after && ListedUnder(after[id], k')
      {
        assert id in certs && id != c.id;
      }
    }
  }

  /** Appending a fresh id under its three keys keeps the lists sound. */
  lemma IssueKeepsSound(certs: map<CertId, CertificationData>, lists: map<ListKey, seq<CertId>>,
                        c: CertificationData)
    requires ListsSound(certs, lists) && c.id !in certs
    ensures ListsSound(certs[c.id := c], Indexed(lists, c))
  {
    var l1 := Appended(lists, HolderCertifications(c.holder), c.id);
    var l2 := Appended(l1, IssuerCertifications(c.issuer), c.id);
    FreshUnlisted(certs, lists, c, HolderCertifications(c.holder));
    AppendKeepsSound(certs, lists, c, HolderCertifications(c.holder));
    FreshUnlisted(certs, lists, c, IssuerCertifications(c.issuer));
    AppendKeepsSound(certs, l1, c, IssuerCertifications(c.issuer));
    FreshUnlisted(certs, lists, c, CertificationsByType(c.certType));
    AppendKeepsSound(certs, l2, c, CertificationsByType(c.certType));
  }

  /** Appending an id under its three keys keeps every stored
      certification listed. */
  lemma IssueKeepsComplete(certs: map<CertId, CertificationData>, lists: map<ListKey, seq<CertId>>,
                           c: CertificationData)
    requires ListsComplete(certs, lists)
    ensures ListsComplete(certs[c.id := c], Indexed(lists, c))
  {
    var after := certs[c.id := c];
    var r := Indexed(lists, c);
    forall id, k | id in after && ListedUnder(after[id], k)
      ensures id in ListAt(r, k)
    {
      if id != c.id {
        assert ListedUnder(certs[id], k);
        assert id in ListAt(lists, k);
      } else {
        assert k == HolderCertifications(c.holder) || k == IssuerCertifications(c.issuer) ||
               k == CertificationsByType(c.certType);
      }
    }
  }

  /** Issuing a certification under a fresh id keeps the store consistent. */
  lemma IssueKeepsStore(certs: map<CertId, CertificationData>, lists: map<ListKey, seq<CertId>>,
                        c: CertificationData)
    requires StoreOk(certs, lists) && c.id !in certs
    requires c.issuer == c.id.issuer && c.holder == c.id.holder
    ensures StoreOk(certs[c.id := c], Indexed(lists, c))
  {
    IssueKeepsSound(certs, lists, c);
    IssueKeepsComplete(certs, lists, c);
  }

  // ---------------------------------------------------------------------
  // Audit

  /** The stored certifications of the listed ids, in list order; ids with
      no stored certification are skipped. */
  function Resolved(certs: map<CertId, CertificationData>, ids: seq<CertId>): seq<CertificationData>
  {
    if |ids| == 0 then []
    else
      var id := ids[|ids| - 1];
      Resolved(certs, ids[..|ids| - 1]) + (if id in certs then [certs[id]] else [])
  }

  lemma {:induction false} ResolvedMembers(certs: map<CertId, CertificationData>, ids: seq<CertId>, c: CertificationData)
    ensures c in Resolved(certs, ids) <==> exists id :: id in ids && id in certs && certs[id] == c
    decreases |ids|
  {
    if |ids| > 0 {
      var front := ids[..|ids| - 1];
      ResolvedMembers(certs, front, c);
      assert ids == front + [ids[|ids| - 1]];
      if exists id :: id in ids && id in certs && certs[id] == c {
        var id :| id in ids && id in certs && certs[id] == c;
        if id != ids[|ids| - 1] {
          assert id in front;
        }
      }
    }
  }

  /** When every listed id is stored, nothing is skipped. */
  lemma {:induction false} ResolvedAllStored(certs: map<CertId, CertificationData>, ids: seq<CertId>)
    requires forall id :: id in ids ==> id in certs
    ensures |Resolved(certs, ids)| == |ids|
    decreases |ids|
  {
    if |ids| > 0 {
      var front := ids[..|ids| - 1];
      assert forall id :: id in front ==> id in ids;
      ResolvedAllStored(certs, front);
    }
  }

  lemma ResolvedStep(certs: map<CertId, CertificationData>, ids: seq<CertId>, i: nat)
    requires i < |ids|
    ensures Resolved(certs, ids[..i + 1]) ==
            Resolved(certs, ids[..i]) + (if ids[i] in certs then [certs[ids[i]]] else [])
  {
    assert ids[..i + 1][..i] == ids[..i];
  }

  /** The loop of the three `get_*_certifications` queries. */
  method ResolveIds(certs: map<CertId, CertificationData>, ids: seq<CertId>) returns (r: seq<CertificationData>)
    ensures r == Resolved(certs, ids)
  {
    r := [];
    var i := 0;
    while i < |ids|
      invariant 0 <= i <= |ids|
      invariant r == Resolved(certs, ids[..i])
    {
      ResolvedStep(certs, ids, i);
      if ids[i] in certs {
        r := r + [certs[ids[i]]];
      }
      i := i + 1;
    }
    assert ids[..i] == ids;
  }

  /** The type and status filters of the audit report; an absent filter
      lets everything through. */
  predicate Matches(c: CertificationData, typeFilter: Option<CertificationType>, statusFilter: Option<Status>)
  {
    (typeFilter.None? || c.certType == typeFilter.value) && (statusFilter.None? || c.status == statusFilter.value)
  }

  function Filtered(cs: seq<CertificationData>, typeFilter: Option<CertificationType>, statusFilter: Option<Status>)
    : seq<CertificationData>
  {
    if |cs| == 0 then []
    else
      var c := cs[|cs| - 1];
      Filtered(cs[..|cs| - 1], typeFilter, statusFilter) + (if Matches(c, typeFilter, statusFilter) then [c] else [])
  }

  lemma {:induction false} FilteredMembers(cs: seq<CertificationData>, tf: Option<CertificationType>,
                                           sf: Option<Status>, c: CertificationData)
    ensures c in Filtered(cs, tf, sf) <==> c in cs && Matches(c, tf, sf)
    decreases |cs|
  {
    if |cs| > 0 {
      var front := cs[..|cs| - 1];
      FilteredMembers(front, tf, sf, c);
      assert cs == front + [cs[|cs| - 1]];
    }
  }

  /** The report over a list of issuers: each issuer's stored
      certifications that pass the filters, issuer by issuer. */
  function ReportOver(certs: map<CertId, CertificationData>, lists: map<ListKey, seq<CertId>>,
                      issuers: seq<Address>, tf: Option<CertificationType>, sf: Option<Status>)
    : seq<CertificationData>
  {
    if |issuers| == 0 then []
    else
      ReportOver(certs, lists, issuers[..|issuers| - 1], tf, sf) +
      Filtered(Resolved(certs, ListAt(lists, IssuerCertifications(issuers[|issuers| - 1]))), tf, sf)
  }

  lemma {:induction false} ReportOverMembers(certs: map<CertId, CertificationData>, lists: map<ListKey, seq<CertId>>,
                                             issuers: seq<Address>, tf: Option<CertificationType>, sf: Option<Status>,
                                             c: CertificationData)
    ensures c in ReportOver(certs, lists, issuers, tf, sf) <==>
            exists i :: i in issuers && c in Filtered(Resolved(certs, ListAt(lists, IssuerCertifications(i))), tf, sf)
    decreases |issuers|
  {
    if |issuers| > 0 {
      var front := issuers[..|issuers| - 1];
      var last := issuers[|issuers| - 1];
      ReportOverMembers(certs, lists, front, tf, sf, c);
      assert issuers == front + [last];
      if exists i :: i in issuers && c in Filtered(Resolved(certs, ListAt(lists, IssuerCertifications(i))), tf, sf) {
        var i :| i in issuers && c in Filtered(Resolved(certs, ListAt(lists, IssuerCertifications(i))), tf, sf);
        if i != last {
          assert i in front;
        }
      }
    }
  }

  /** `generate_audit_report`: the issuers checked are the issuer named by
      the filter if it is verified (none if it is not), and otherwise all
      verified issuers in order. */
  function AuditReport(certs: map<CertId, CertificationData>, lists: map<ListKey, seq<CertId>>,
                       verified: seq<Address>, tf: Option<CertificationType>, issuerFilter: Option<Address>,
                       sf: Option<Status>): seq<CertificationData>
  {
    if issuerFilter.Some? then
      if issuerFilter.value in verified then ReportOver(certs, lists, [issuerFilter.value], tf, sf) else []
    else ReportOver(certs, lists, verified, tf, sf)
  }

  /** An issuer filter naming an unverified issuer yields an empty report. */
  lemma UnverifiedIssuerEmptyReport(certs: map<CertId, CertificationData>, lists: map<ListKey, seq<CertId>>,
                                    verified: seq<Address>, tf: Option<CertificationType>, issuer: Address,
                                    sf: Option<Status>)
    requires issuer !in verified
    ensures AuditReport(certs, lists, verified, tf, Some(issuer), sf) == []
  {
  }

  /** In a consistent store the issuer index resolves, for each issuer,
      to exactly the stored certifications of that issuer. */
  lemma IssuerListResolves(certs: map<CertId, CertificationData>, lists: map<ListKey, seq<CertId>>,
                           i: Address, c: CertificationData)
    requires StoreOk(certs, lists)
    ensures c in Resolved(certs, ListAt(lists, IssuerCertifications(i))) <==> c in certs.Values && c.issuer == i
  {
    ResolvedMembers(certs, ListAt(lists, IssuerCertifications(i)), c);
    if c in certs.Values && c.issuer == i {
      var id :| id in certs && certs[id] == c;
      assert ListedUnder(certs[id], IssuerCertifications(i));
    }
  }

  /** The audit report holds exactly the stored certifications that pass
      the type and status filters and whose issuer is verified (and is the
      filtered issuer, when there is one). */
  lemma AuditReportExact(certs: map<CertId, CertificationData>, lists: map<ListKey, seq<CertId>>,
                         verified: seq<Address>, tf: Option<CertificationType>, issuerFilter: Option<Address>,
                         sf: Option<Status>, c: CertificationData)
    requires StoreOk(certs, lists)
    ensures c in AuditReport(certs, lists, verified, tf, issuerFilter, sf) <==>
            && c in certs.Values && Matches(c, tf, sf) && c.issuer in verified
            && (issuerFilter.Some? ==> c.issuer == issuerFilter.value)
  {
    var issuers := if issuerFilter.Some? then [issuerFilter.value] else verified;
    ReportOverMembers(certs, lists, issuers, tf, sf, c);
    IssuerListResolves(certs, lists, c.issuer, c);
    FilteredMembers(Resolved(certs, ListAt(lists, IssuerCertifications(c.issuer))), tf, sf, c);
    if exists i :: i in issuers && c in Filtered(Resolved(certs, ListAt(lists, IssuerCertifications(i))), tf, sf) {
      var i :| i in issuers && c in Filtered(Resolved(certs, ListAt(lists, IssuerCertifications(i))), tf, sf);
      FilteredMembers(Resolved(certs, ListAt(lists, IssuerCertifications(i))), tf, sf, c);
      IssuerListResolves(certs, lists, i, c);
    }
  }

  lemma FilteredStep(cs: seq<CertificationData>, tf: Option<CertificationType>, sf: Option<Status>, i: nat)
    requires i < |cs|
    ensures Filtered(cs[..i + 1], tf, sf) == Filtered(cs[..i], tf, sf) + (if Matches(cs[i], tf, sf) then [cs[i]] else [])
  {
    assert cs[..i + 1][..i] == cs[..i];
  }

  /** The inner loop of the audit report: the certifications passing both
      filters, in order. */
  method FilterCertifications(cs: seq<CertificationData>, tf: Option<CertificationType>, sf: Option<Status>)
    returns (r: seq<CertificationData>)
    ensures r == Filtered(cs, tf, sf)
  {
    r := [];
    var i := 0;
    while i < |cs|
      invariant 0 <= i <= |cs|
      invariant r == Filtered(cs[..i], tf, sf)
    {
      FilteredStep(cs, tf, sf, i);
      if (tf.None? || cs[i].certType == tf.value) && (sf.None? || cs[i].status == sf.value) {
        r := r + [cs[i]];
      }
      i := i + 1;
    }
    assert cs[..i] == cs;
  }

  lemma ReportOverStep(certs: map<CertId, CertificationData>, lists: map<ListKey, seq<CertId>>,
                       issuers: seq<Address>, tf: Option<CertificationType>, sf: Option<Status>, i: nat)
    requires i < |issuers|
    ensures ReportOver(certs, lists, issuers[..i + 1], tf, sf) ==
            ReportOver(certs, lists, issuers[..i], tf, sf) +
            Filtered(Resolved(certs, ListAt(lists, IssuerCertifications(issuers[i]))), tf, sf)
  {
    assert issuers[..i + 1][..i] == issuers[..i];
  }

  /** The outer loop of the audit report. */
  method ReportIssuers(certs: map<CertId, CertificationData>, lists: map<ListKey, seq<CertId>>,
                       issuers: seq<Address>, tf: Option<CertificationType>, sf: Option<Status>)
    returns (r: seq<CertificationData>)
    ensures r == ReportOver(certs, lists, issuers, tf, sf)
  {
    r := [];
    var i := 0;
    while i < |issuers|
      invariant 0 <= i <= |issuers|
      invariant r == ReportOver(certs, lists, issuers[..i], tf, sf)
    {
      ReportOverStep(certs, lists, issuers, tf, sf, i);
      var own := ResolveIds(certs, ListAt(lists, IssuerCertifications(issuers[i])));
      var passing := FilterCertifications(own, tf, sf);
      r := r + passing;
      i := i + 1;
    }
    assert issuers[..i] == issuers;
  }

  /** The count reported for each standard type: the number of stored
      certifications its type list resolves to. */
  function TypeCount(certs: map<CertId, CertificationData>, lists: map<ListKey, seq<CertId>>,
                     t: CertificationType): nat
  {
    |Resolved(certs, ListAt(lists, CertificationsByType(t)))|
  }

  /** A sequence with no repeats has as many distinct elements as entries. */
  lemma {:induction false} DistinctCount<T>(s: seq<T>)
    requires NoDuplicates(s)
    ensures |set x | x in s| == |s|
    decreases |s|
  {
    if |s| > 0 {
      var front := s[..|s| - 1];
      var last := s[|s| - 1];
      assert NoDuplicates(front);
      DistinctCount(front);
      assert s == front + [last];
      assert (set x | x in s) == (set x | x in front) + {last};
      assert last !in (set x | x in front);
    }
  }

  /** In a consistent store the count for a type is the number of stored
      certifications of that type. */
  lemma TypeCountExact(certs: map<CertId, CertificationData>, lists: map<ListKey, seq<CertId>>,
                       t: CertificationType)
    requires ListsSound(certs, lists) && ListsComplete(certs, lists)
    ensures TypeCount(certs, lists, t) == |set id | id in certs && certs[id].certType == t|
  {
    var ids := ListAt(lists, CertificationsByType(t));
    assert forall id :: id in ids ==> id in certs && certs[id].certType == t;
    ResolvedAllStored(certs, ids);
    assert NoDuplicates(ids);
    DistinctCount(ids);
    forall id | id in certs && certs[id].certType == t
      ensures id in ids
    {
      assert ListedUnder(certs[id], CertificationsByType(t));
    }
    assert (set id | id in ids) == (set id | id in certs && certs[id].certType == t);
  }

  // ---------------------------------------------------------------------
  // The contract

  class CertificationContract {
    /** The administrator set at initialization, if any. */
    const admin: Option<Address>
    var now: nat
    var verifiedIssuers: seq<Address>
    var certifications: map<CertId, CertificationData>
    /** The holder, issuer and type lists of certification ids. */
    var lists: map<ListKey, seq<CertId>>
    var events: map<CertId, seq<CertificationEvent>>

    ghost predicate Valid()
      reads this`verifiedIssuers, this`certifications, this`lists
    {
      NoDuplicates(verifiedIssuers) && StoreOk(certifications, lists)
    }

    constructor (adminAddress: Option<Address>, time: nat)
      ensures admin == adminAddress && now == time
      ensures verifiedIssuers == [] && certifications == map[] && events == map[]
      ensures lists == map[]
      ensures Valid()
    {
      admin := adminAddress;
      now := time;
      verifiedIssuers := [];
      certifications := map[];
      lists := map[];
      events := map[];
    }

    method Tick(time: nat)
      requires now <= time
      modifies this`now
      ensures now == time
    {
      now := time;
    }

    /** `add_verified_issuer`: only the administrator may add an issuer,
        and an issuer already listed is not added again. */
    method AddVerifiedIssuer(caller: Address, issuer: Address) returns (r: Result<(), CertificationError>)
      requires Valid()
      modifies this`verifiedIssuers
      ensures Valid()
      ensures admin != Some(caller) ==> r == Err(UnauthorizedAccess) && unchanged(this)
      ensures admin == Some(caller) ==> r == Ok(())
      ensures admin == Some(caller) && issuer in old(verifiedIssuers) ==> verifiedIssuers == old(verifiedIssuers)
      ensures admin == Some(caller) && issuer !in old(verifiedIssuers) ==> verifiedIssuers == old(verifiedIssuers) + [issuer]
      ensures r.Ok? ==> issuer in verifiedIssuers
    {
      if admin.None? || admin.value != caller {
        return Err(UnauthorizedAccess);
      }
      if issuer !in verifiedIssuers {
        forall i, j | 0 <= i < j < |verifiedIssuers + [issuer]|
          ensures (verifiedIssuers + [issuer])[i] != (verifiedIssuers + [issuer])[j]
        {
          if j == |verifiedIssuers| {
            assert verifiedIssuers[i] in verifiedIssuers;
          }
        }
        verifiedIssuers := verifiedIssuers + [issuer];
      }
      return Ok(());
    }

    /** `issue_certification`: a Valid certification is stored under its
        new id and listed under its holder, issuer and type, and an
        "issued" event is recorded for it. */
    method IssueCertification(issuer: Address, holder: Address, certType: CertificationType, documentHash: Hash,
                              metadata: seq<string>, validFrom: nat, validTo: nat)
      returns (r: Result<CertId, CertificationError>)
      requires Valid()
      modifies this`certifications, this`lists, this`events
      ensures Valid()
      ensures var id := CertificationId(issuer, holder, documentHash, now);
        var e := IssueCheck(verifiedIssuers, issuer, validFrom, validTo, metadata, now, id in old(certifications));
        && (e.Some? ==> r == Err(e.value) && unchanged(this))
        && (e.None? ==>
              var c := NewCertification(id, certType, metadata, validFrom, validTo, now);
              && r == Ok(id)
              && certifications == old(certifications)[id := c]
              && lists == Indexed(old(lists), c)
              && events == old(events)[id := ListAt(old(events), id) + [CertificationEvent(id, ISSUED, now, [ISSUED])]])
    {
      var id := CertificationId(issuer, holder, documentHash, now);
      var e := IssueCheck(verifiedIssuers, issuer, validFrom, validTo, metadata, now, id in certifications);
      if e.Some? {
        return Err(e.value);
      }
      var c := NewCertification(id, certType, metadata, validFrom, validTo, now);
      IssueKeepsStore(certifications, lists, c);
      certifications, lists := certifications[id := c], Indexed(lists, c);
      events := events[id := ListAt(events, id) + [CertificationEvent(id, ISSUED, now, [ISSUED])]];
      return Ok(id);
    }

    /** `get_holder_certifications`. */
    method GetHolderCertifications(holder: Address) returns (r: Result<seq<CertificationData>, CertificationError>)
      ensures r == Ok(Resolved(certifications, ListAt(lists, HolderCertifications(holder))))
    {
      var cs := ResolveIds(certifications, ListAt(lists, HolderCertifications(holder)));
      return Ok(cs);
    }

    /** `get_issuer_certifications`. */
    method GetIssuerCertifications(issuer: Address) returns (r: Result<seq<CertificationData>, CertificationError>)
      ensures r == Ok(Resolved(certifications, ListAt(lists, IssuerCertifications(issuer))))
    {
      var cs := ResolveIds(certifications, ListAt(lists, IssuerCertifications(issuer)));
      return Ok(cs);
    }

    /** `get_certifications_by_type`. */
    method GetCertificationsByType(t: CertificationType) returns (r: Result<seq<CertificationData>, CertificationError>)
      ensures r == Ok(Resolved(certifications, ListAt(lists, CertificationsByType(t))))
    {
      var cs := ResolveIds(certifications, ListAt(lists, CertificationsByType(t)));
      return Ok(cs);
    }

    /** `generate_audit_report`. */
    method GenerateAuditReport(tf: Option<CertificationType>, issuerFilter: Option<Address>, sf: Option<Status>)
      returns (r: Result<seq<CertificationData>, CertificationError>)
      ensures r == Ok(AuditReport(certifications, lists, verifiedIssuers, tf, issuerFilter, sf))
    {
      var issuers: seq<Address>;
      if issuerFilter.Some? {
        if issuerFilter.value !in verifiedIssuers {
          return Ok([]);
        }
        issuers := [issuerFilter.value];
      } else {
        issuers := verifiedIssuers;
      }
      var report := ReportIssuers(certifications, lists, issuers, tf, sf);
      return Ok(report);
    }

    /** `count_certifications_by_type`: one count per standard type, in the
        fixed order; custom types are not counted. */
    method CountCertificationsByType() returns (r: Result<seq<(CertificationType, nat)>, CertificationError>)
      ensures r.Ok? && |r.value| == |STANDARD_TYPES|
      ensures forall i :: 0 <= i < |r.value| ==>
        r.value[i] == (STANDARD_TYPES[i], TypeCount(certifications, lists, STANDARD_TYPES[i]))
    {
      var counts: seq<(CertificationType, nat)> := [];
      var i := 0;
      while i < |STANDARD_TYPES|
        invariant 0 <= i <= |STANDARD_TYPES| && |counts| == i
        invariant forall j :: 0 <= j < i ==> counts[j] == (STANDARD_TYPES[j], TypeCount(certifications, lists, STANDARD_TYPES[j]))
      {
        var cs := GetCertificationsByType(STANDARD_TYPES[i]);
        counts := counts + [(STANDARD_TYPES[i], |cs.value|)];
        i := i + 1;
      }
      return Ok(counts);
    }
  }
}
