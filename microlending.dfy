/*
 * Microlending engine: a borrower requests a loan (request.rs), lenders fund
 * it in one or more contributions until the requested amount is reached
 * (fund.rs), and the borrower repays principal plus interest in instalments
 * that are passed on to the lenders pro rata (repay.rs).
 *
 * Amounts are token units, interest rates and shares are basis points
 * (10000 = 100%). Token transfers are not performed here: the lender's and the
 * borrower's token balances are parameters, and the transfers a repayment
 * makes to lenders are returned as a list.
 */
module Microlending {
  import opened Common

  const BASIS_POINTS: nat := 10000
  const MAX_DURATION_DAYS: nat := 1095

  datatype LoanStatus = Pending | Funded | Repaying | Completed | Defaulted | Cancelled

  datatype Collateral = Collateral(assetType: string, estimatedValue: int)

  datatype RepaymentSchedule = RepaymentSchedule(installments: nat, frequencyDays: nat)

  datatype LoanRequest = LoanRequest(
    id: nat,
    borrower: Address,
    amount: nat,
    purpose: string,
    durationDays: nat,
    interestRate: nat,
    collateral: Collateral,
    status: LoanStatus,
    fundedAmount: nat,
    creationTimestamp: nat,
    fundedTimestamp: Option<nat>,
    repaymentDueTimestamp: Option<nat>,
    schedule: RepaymentSchedule)

  /** One call of fund_loan; the accepted amount is always positive. */
  datatype Contribution = Contribution(lender: Address, amount: nat, timestamp: nat, claimed: bool)

  datatype Repayment = Repayment(amount: nat, timestamp: nat)

  datatype BorrowerMetrics = BorrowerMetrics(totalLoans: nat, completedLoans: nat, defaultedLoans: nat)

  datatype SystemStats = SystemStats(totalLoans: nat, totalFunded: int, totalRepaid: int, defaultRate: nat)

  /** A token transfer from the contract to a lender. */
  datatype Transfer = Transfer(to: Address, amount: nat)

  datatype LendingError =
    // the panics of validate_loan_inputs
    | AmountNotPositive | DurationOutOfRange | InterestRateOutOfRange
    | CollateralValueNotPositive | CollateralTypeEmpty
    // the panics of get_loan_request, cancel_loan_request and update_loan_request
    | LoanNotFound | NotLoanCreator | NotPendingLoan | NotUnfundedPendingLoan
    // the contract errors raised by fund_loan and repay_loan
    | InvalidAmount | LoanFullyFunded | InvalidLoanStatus | Unauthorized
    | InsufficientBalance | LoanNotRepayable | RepaymentExceedsDue

  // ---------------------------------------------------------------------
  // Pure calculations
  // ---------------------------------------------------------------------

  /** validate_loan_inputs: the first failing check, or None when the request
      is acceptable. */
  function ValidateLoanInputs(amount: int, durationDays: nat, interestRate: nat, collateral: Collateral)
    : (r: Option<LendingError>)
    ensures r == None <==>
      amount > 0 && 1 <= durationDays <= MAX_DURATION_DAYS && 1 <= interestRate <= BASIS_POINTS
      && collateral.estimatedValue > 0 && |collateral.assetType| > 0
    ensures amount <= 0 ==> r == Some(AmountNotPositive)
    ensures amount > 0 && !(1 <= durationDays <= MAX_DURATION_DAYS) ==> r == Some(DurationOutOfRange)
  {
    if amount <= 0 then Some(AmountNotPositive)
    else if durationDays < 1 || durationDays > MAX_DURATION_DAYS then Some(DurationOutOfRange)
    else if interestRate == 0 || interestRate > BASIS_POINTS then Some(InterestRateOutOfRange)
    else if collateral.estimatedValue <= 0 then Some(CollateralValueNotPositive)
    else if |collateral.assetType| == 0 then Some(CollateralTypeEmpty)
    else None
  }

  /** calculate_total_repayment_due: principal plus the floored interest. */
  function TotalRepaymentDue(principal: nat, interestRate: nat): nat
  {
    principal + principal * interestRate / BASIS_POINTS
  }

  /** The interest is the floor of principal * rate / 10000, and a rate of at
      most 100% at most doubles the principal. */
  lemma TotalRepaymentDueBounds(principal: nat, interestRate: nat)
    ensures var due := TotalRepaymentDue(principal, interestRate);
      (due - principal) * BASIS_POINTS <= principal * interestRate < (due - principal + 1) * BASIS_POINTS
      && (interestRate <= BASIS_POINTS ==> principal <= due <= 2 * principal)
  {
    var x := principal * interestRate;
    var q := x / BASIS_POINTS;
    assert q * BASIS_POINTS <= x < (q + 1) * BASIS_POINTS;
    if interestRate <= BASIS_POINTS {
      MulMonotone(interestRate, BASIS_POINTS, principal);
      assert x <= principal * BASIS_POINTS;
    }
  }

  /** The due date set when a loan becomes fully funded. */
  function DueTimestamp(now: nat, schedule: RepaymentSchedule, durationDays: nat): (due: nat)
    ensures schedule.installments == 0 ==> due == now + durationDays * SECONDS_PER_DAY
    ensures due >= now
  {
    if schedule.installments > 0 then now + schedule.installments * schedule.frequencyDays * SECONDS_PER_DAY
    else now + durationDays * SECONDS_PER_DAY
  }

  /** Sum of the amounts of a list of contributions. */
  function ContributedTotal(cs: seq<Contribution>): nat
  {
    if cs == [] then 0 else ContributedTotal(cs[..|cs| - 1]) + cs[|cs| - 1].amount
  }

  /** Sum of the amounts of a list of repayments. */
  function RepaidTotal(rs: seq<Repayment>): nat
  {
    if rs == [] then 0 else RepaidTotal(rs[..|rs| - 1]) + rs[|rs| - 1].amount
  }

  /** Sum of the amounts of a list of transfers. */
  function TransferTotal(ts: seq<Transfer>): nat
  {
    if ts == [] then 0 else TransferTotal(ts[..|ts| - 1]) + ts[|ts| - 1].amount
  }

  lemma TransferTotalAppend(ts: seq<Transfer>, us: seq<Transfer>)
    ensures TransferTotal(ts + us) == TransferTotal(ts) + TransferTotal(us)
    decreases |us|
  {
    if us != [] {
      assert (ts + us)[..|ts + us| - 1] == ts + us[..|us| - 1];
      TransferTotalAppend(ts, us[..|us| - 1]);
    } else {
      assert ts + us == ts;
    }
  }

  /** The total that calculate_lender_share computes: the amounts of all the
      contributions made by one lender. */
  function LenderShare(cs: seq<Contribution>, lender: Address): nat
  {
    if cs == [] then 0
    else LenderShare(cs[..|cs| - 1], lender) + (if cs[|cs| - 1].lender == lender then cs[|cs| - 1].amount else 0)
  }

  lemma {:induction false} LenderShareAtMostTotal(cs: seq<Contribution>, lender: Address)
    ensures LenderShare(cs, lender) <= ContributedTotal(cs)
  {
    if cs != [] {
      LenderShareAtMostTotal(cs[..|cs| - 1], lender);
    }
  }

  /** A lender who appears in exactly one contribution is credited exactly that contribution. */
  lemma {:induction false} LenderShareOfSoleContribution(cs: seq<Contribution>, k: nat)
    requires k < |cs|
    requires forall j :: 0 <= j < |cs| && j != k ==> cs[j].lender != cs[k].lender
    ensures LenderShare(cs, cs[k].lender) == cs[k].amount
  {
    var n := |cs| - 1;
    if k == n {
      LenderShareOfAbsent(cs[..n], cs[k].lender);
    } else {
      LenderShareOfSoleContribution(cs[..n], k);
    }
  }

  lemma {:induction false} LenderShareOfAbsent(cs: seq<Contribution>, lender: Address)
    requires forall j :: 0 <= j < |cs| ==> cs[j].lender != lender
    ensures LenderShare(cs, lender) == 0
  {
    if cs != [] {
      LenderShareOfAbsent(cs[..|cs| - 1], lender);
    }
  }

  /** calculate_lender_share_percentage: the share in basis points of the
      requested amount, floored, 0 for a zero amount; the final `as u32`
      cast wraps modulo 2^32. */
  function SharePercentage(share: nat, loanAmount: nat): (pct: nat)
    ensures loanAmount == 0 ==> pct == 0
    ensures 0 < loanAmount && share <= loanAmount ==>
      pct <= BASIS_POINTS && pct * loanAmount <= share * BASIS_POINTS < (pct + 1) * loanAmount
  {
    if loanAmount == 0 then 0
    else
      ShareQuotientBounds(share, loanAmount);
      (share * BASIS_POINTS / loanAmount) % (U32_MAX + 1)
  }

  /** The floored share in basis points brackets the exact one, and a share
      of at most the whole amount is at most 10000 basis points. */
  lemma ShareQuotientBounds(share: nat, loanAmount: nat)
    requires loanAmount > 0
    ensures var q := share * BASIS_POINTS / loanAmount;
      && q * loanAmount <= share * BASIS_POINTS < (q + 1) * loanAmount
      && (share <= loanAmount ==> q <= BASIS_POINTS)
  {
    var p := share * BASIS_POINTS;
    var q := p / loanAmount;
    assert q * loanAmount <= p < (q + 1) * loanAmount;
    if share <= loanAmount {
      MulMonotone(share, loanAmount, BASIS_POINTS);
      DivMonotone(p, loanAmount * BASIS_POINTS, loanAmount);
      assert loanAmount * BASIS_POINTS == BASIS_POINTS * loanAmount;
      DivOfMultiple(BASIS_POINTS, loanAmount);
    }
  }

  /** What one lender receives out of a repayment of `amount` for a share of
      `pct` basis points: floor(amount * pct / 10000). */
  function PayoutFor(amount: nat, pct: nat): nat
  {
    amount * pct / BASIS_POINTS
  }

  /** The transfer, if any, the distribution loop of repay_loan makes for one
      contribution paid at `pct` basis points: nothing for a claimed
      contribution or a zero payout. */
  function PayTransfer(c: Contribution, pct: nat, amount: nat): seq<Transfer>
  {
    var pay := PayoutFor(amount, pct);
    if !c.claimed && pay > 0 then [Transfer(c.lender, pay)] else []
  }

  /** The transfers the distribution loop of repay_loan makes AS WRITTEN:
      each unclaimed contribution is paid at the percentage of its lender's
      TOTAL share, so a lender with several contributions is paid several
      times. `all` is the loan's full contribution list. */
  function AsWrittenPayouts(all: seq<Contribution>, cs: seq<Contribution>, amount: nat, loanAmount: nat)
    : seq<Transfer>
  {
    if cs == [] then []
    else
      var c := cs[|cs| - 1];
      AsWrittenPayouts(all, cs[..|cs| - 1], amount, loanAmount)
        + PayTransfer(c, SharePercentage(LenderShare(all, c.lender), loanAmount), amount)
  }

  /** The pro-rata distribution: each unclaimed contribution is paid at the
      percentage that contribution itself represents. This is the
      distribution the model of repay_loan uses. */
  function ProRataPayouts(cs: seq<Contribution>, amount: nat, loanAmount: nat): seq<Transfer>
  {
    if cs == [] then []
    else
      var c := cs[|cs| - 1];
      ProRataPayouts(cs[..|cs| - 1], amount, loanAmount) + PayTransfer(c, SharePercentage(c.amount, loanAmount), amount)
  }

  /** One contribution's payout, scaled by the loan amount, never exceeds
      the repayment scaled by the contribution. */
  lemma PayoutScaled(amount: nat, c: nat, loanAmount: nat)
    requires 0 < loanAmount && c <= loanAmount
    ensures PayoutFor(amount, SharePercentage(c, loanAmount)) * loanAmount <= amount * c
  {
    var pct := SharePercentage(c, loanAmount);
    var pay := PayoutFor(amount, pct);
    assert pct * loanAmount <= c * BASIS_POINTS;
    assert pay * BASIS_POINTS <= amount * pct;
    calc {
      pay * loanAmount * BASIS_POINTS;
    == { MulComm3(pay, loanAmount, BASIS_POINTS); }
      (pay * BASIS_POINTS) * loanAmount;
    <= { MulMonotone(pay * BASIS_POINTS, amount * pct, loanAmount); }
      (amount * pct) * loanAmount;
    == amount * (pct * loanAmount);
    <= { MulMonotone(pct * loanAmount, c * BASIS_POINTS, amount); }
      amount * (c * BASIS_POINTS);
    == (amount * c) * BASIS_POINTS;
    }
    MulCancel(pay * loanAmount, amount * c, BASIS_POINTS);
  }

  lemma PayTransferScaled(c: Contribution, amount: nat, loanAmount: nat)
    requires 0 < loanAmount && c.amount <= loanAmount
    ensures TransferTotal(PayTransfer(c, SharePercentage(c.amount, loanAmount), amount)) * loanAmount
            <= amount * c.amount
  {
    var t := PayTransfer(c, SharePercentage(c.amount, loanAmount), amount);
    PayoutScaled(amount, c.amount, loanAmount);
    if t != [] {
      assert t[..0] == [];
    }
  }

  /** The pro-rata transfers, scaled by the loan amount, never exceed the
      repayment scaled by the contributions they pay for. */
  lemma {:induction false} ProRataPayoutsScaled(cs: seq<Contribution>, amount: nat, loanAmount: nat)
    requires 0 < loanAmount
    requires forall j :: 0 <= j < |cs| ==> cs[j].amount <= loanAmount
    ensures TransferTotal(ProRataPayouts(cs, amount, loanAmount)) * loanAmount <= amount * ContributedTotal(cs)
  {
    if cs != [] {
      var n := |cs| - 1;
      var c := cs[n];
      var front := ProRataPayouts(cs[..n], amount, loanAmount);
      var last := PayTransfer(c, SharePercentage(c.amount, loanAmount), amount);
      assert ProRataPayouts(cs, amount, loanAmount) == front + last;
      assert ContributedTotal(cs) == ContributedTotal(cs[..n]) + c.amount;
      ProRataPayoutsScaled(cs[..n], amount, loanAmount);
      PayTransferScaled(c, amount, loanAmount);
      TransferTotalAppend(front, last);
      ScaledSumStep(TransferTotal(front), TransferTotal(last), ContributedTotal(cs[..n]), c.amount, loanAmount, amount);
    }
  }

  lemma ScaledSumStep(f: nat, l: nat, total: nat, c: nat, k: nat, amount: nat)
    requires f * k <= amount * total && l * k <= amount * c
    ensures (f + l) * k <= amount * (total + c)
  {
    calc {
      (f + l) * k;
    == f * k + l * k;
    <= amount * total + amount * c;
    == amount * (total + c);
    }
  }

  /** The distribution the model uses never pays lenders more than the
      repayment, as long as the contributions do not exceed the loan. */
  lemma ProRataPayoutsBounded(cs: seq<Contribution>, amount: nat, loanAmount: nat)
    requires 0 < loanAmount && ContributedTotal(cs) <= loanAmount
    ensures TransferTotal(ProRataPayouts(cs, amount, loanAmount)) <= amount
  {
    forall j | 0 <= j < |cs| ensures cs[j].amount <= loanAmount {
      ContributionAtMostTotal(cs, j);
    }
    ProRataPayoutsScaled(cs, amount, loanAmount);
    MulMonotone(ContributedTotal(cs), loanAmount, amount);
    MulCancel(TransferTotal(ProRataPayouts(cs, amount, loanAmount)), amount, loanAmount);
  }

  lemma {:induction false} ContributionAtMostTotal(cs: seq<Contribution>, j: nat)
    requires j < |cs|
    ensures cs[j].amount <= ContributedTotal(cs)
  {
    if j < |cs| - 1 {
      ContributionAtMostTotal(cs[..|cs| - 1], j);
    }
  }

  /** When every lender funded the loan once, the distribution as written
      and the pro-rata distribution agree. */
  lemma {:induction false} PayoutsAgreeForDistinctLenders(all: seq<Contribution>, k: nat, amount: nat, loanAmount: nat)
    requires k <= |all|
    requires forall i, j :: 0 <= i < j < |all| ==> all[i].lender != all[j].lender
    ensures AsWrittenPayouts(all, all[..k], amount, loanAmount) == ProRataPayouts(all[..k], amount, loanAmount)
  {
    if k > 0 {
      assert all[..k][..k - 1] == all[..k - 1];
      PayoutsAgreeForDistinctLenders(all, k - 1, amount, loanAmount);
      LenderShareOfSoleContribution(all, k - 1);
    }
  }

  /** Two contributions of 500 by the same lender to a loan of 1000: a
      repayment of 100 makes the distribution as written pay that lender
      100 twice, 200 in all. */
  lemma AsWrittenOverpaysRepeatLender()
    ensures
      var all := [Contribution(7, 500, 0, false), Contribution(7, 500, 0, false)];
      TransferTotal(AsWrittenPayouts(all, all, 100, 1000)) == 200
      && TransferTotal(ProRataPayouts(all, 100, 1000)) == 100
  {
    var all := [Contribution(7, 500, 0, false), Contribution(7, 500, 0, false)];
    assert all[..1] == [all[0]];
    assert all[..1][..0] == [];
    assert LenderShare(all, 7) == 1000;
    assert SharePercentage(1000, 1000) == 10000;
    assert SharePercentage(500, 1000) == 5000;
    var w := [Transfer(7, 100), Transfer(7, 100)];
    assert AsWrittenPayouts(all, all, 100, 1000) == w;
    assert w[..1] == [w[0]];
    assert TransferTotal(w) == 200;
    var p := [Transfer(7, 50), Transfer(7, 50)];
    assert ProRataPayouts(all, 100, 1000) == p;
    assert p[..1] == [p[0]];
  }

  // ---------------------------------------------------------------------
  // Contract storage and entry points
  // ---------------------------------------------------------------------

  /** The facts every stored loan keeps, tied to its contributions and repayments. */
  ghost predicate LoanInvariant(loan: LoanRequest, cs: seq<Contribution>, rs: seq<Repayment>)
  {
    && loan.amount > 0
    && 1 <= loan.interestRate <= BASIS_POINTS
    && loan.fundedAmount == ContributedTotal(cs) <= loan.amount
    && RepaidTotal(rs) <= TotalRepaymentDue(loan.amount, loan.interestRate)
    && loan.status != Defaulted
    && (loan.status == Pending || loan.status == Cancelled ==> loan.fundedAmount < loan.amount && rs == [])
    && (loan.status == Funded ==> rs == [])
    && (loan.status == Funded || loan.status == Repaying || loan.status == Completed ==>
          loan.fundedAmount == loan.amount && loan.fundedTimestamp.Some? && loan.repaymentDueTimestamp.Some?)
    && (loan.status == Repaying ==> 0 < RepaidTotal(rs) < TotalRepaymentDue(loan.amount, loan.interestRate))
    && (loan.status == Completed ==> RepaidTotal(rs) == TotalRepaymentDue(loan.amount, loan.interestRate))
  }

  /** Loan ids run from 1 to next - 1, and each stored loan has its funding
      and repayment lists and keeps LoanInvariant. */
  ghost predicate LoansValid(next: nat, loans: map<nat, LoanRequest>, fundings: map<nat, seq<Contribution>>,
                             repayments: map<nat, seq<Repayment>>)
  {
    && next >= 1
    && (forall id :: id in loans <==> 1 <= id < next)
    && (forall id :: LoanEntryValid(id, loans, fundings, repayments))
  }

  /** A stored loan carries its own id, has its lists, and keeps LoanInvariant. */
  ghost predicate LoanEntryValid(id: nat, loans: map<nat, LoanRequest>, fundings: map<nat, seq<Contribution>>,
                                 repayments: map<nat, seq<Repayment>>)
  {
    id in loans ==>
      loans[id].id == id && id in fundings && id in repayments
      && LoanInvariant(loans[id], fundings[id], repayments[id])
  }

  /** Every id in a borrower's index names a stored loan of that borrower. */
  predicate IndexesBorrower(ids: seq<nat>, borrower: Address, loans: map<nat, LoanRequest>)
  {
    forall i :: 0 <= i < |ids| ==> ids[i] in loans && loans[ids[i]].borrower == borrower
  }

  ghost predicate BorrowerIndexValid(borrowerLoans: map<Address, seq<nat>>, loans: map<nat, LoanRequest>)
  {
    forall b :: b in borrowerLoans ==> NoDuplicates(borrowerLoans[b]) && IndexesBorrower(borrowerLoans[b], b, loans)
  }

  ghost predicate LenderIndexValid(lenderLoans: map<Address, seq<nat>>)
  {
    forall l :: l in lenderLoans ==> NoDuplicates(lenderLoans[l])
  }

  /** A pending loan with nothing funded or repaid meets the invariant. */
  lemma NewLoanInvariant(loan: LoanRequest)
    requires loan.amount > 0 && 1 <= loan.interestRate <= BASIS_POINTS
    requires loan.status == Pending && loan.fundedAmount == 0
    ensures LoanInvariant(loan, [], [])
  {
    assert TotalRepaymentDue(loan.amount, loan.interestRate) >= 0;
  }

  /** Recording a loan under a lender once keeps the lender's list free of
      duplicates. */
  lemma LenderEnlistKeepsValid(lenderLoans: map<Address, seq<nat>>, lender: Address, id: nat)
    requires LenderIndexValid(lenderLoans)
    ensures var mine := if lender in lenderLoans then lenderLoans[lender] else [];
      LenderIndexValid(lenderLoans[lender := if id in mine then mine else mine + [id]])
  {
    var mine := if lender in lenderLoans then lenderLoans[lender] else [];
    if id !in mine {
      var l := mine + [id];
      forall i, j | 0 <= i < j < |l|
        ensures l[i] != l[j]
      {
        if j == |mine| {
          assert l[i] == mine[i];
        } else {
          assert l[i] == mine[i] && l[j] == mine[j];
        }
      }
    }
  }

  /** Storing a new loan under the next id, and indexing it under its
      borrower, keeps the storage invariants. */
  lemma AddLoanKeepsValid(next: nat, loans: map<nat, LoanRequest>, fundings: map<nat, seq<Contribution>>,
                          repayments: map<nat, seq<Repayment>>, borrowerLoans: map<Address, seq<nat>>,
                          loan: LoanRequest)
    requires LoansValid(next, loans, fundings, repayments) && BorrowerIndexValid(borrowerLoans, loans)
    requires loan.id == next && LoanInvariant(loan, [], [])
    ensures var mine := if loan.borrower in borrowerLoans then borrowerLoans[loan.borrower] else [];
      && LoansValid(next + 1, loans[next := loan], fundings[next := []], repayments[next := []])
      && BorrowerIndexValid(borrowerLoans[loan.borrower := mine + [next]], loans[next := loan])
  {
    var mine := if loan.borrower in borrowerLoans then borrowerLoans[loan.borrower] else [];
    var loans', fundings', repayments' := loans[next := loan], fundings[next := []], repayments[next := []];
    forall x ensures LoanEntryValid(x, loans', fundings', repayments') {
      if x != next {
        assert LoanEntryValid(x, loans, fundings, repayments);
      }
    }
    forall b | b in borrowerLoans ensures IndexesBorrower(borrowerLoans[b], b, loans') {
      var ids := borrowerLoans[b];
      forall i | 0 <= i < |ids| ensures ids[i] in loans' && loans'[ids[i]].borrower == b {
        assert ids[i] in loans;
      }
    }
    forall i | 0 <= i < |mine| ensures mine[i] != next {
      assert mine[i] in loans;
    }
    var mine' := mine + [next];
    assert IndexesBorrower(mine', loan.borrower, loans') by {
      forall i | 0 <= i < |mine'| ensures mine'[i] in loans' && loans'[mine'[i]].borrower == loan.borrower {
        if i < |mine| {
          assert mine'[i] == mine[i];
        }
      }
    }
  }

  /** Replacing a stored loan by one with the same id and borrower that keeps
      LoanInvariant with its new lists keeps the storage invariants. */
  lemma ReplaceLoanKeepsValid(next: nat, loans: map<nat, LoanRequest>, fundings: map<nat, seq<Contribution>>,
                              repayments: map<nat, seq<Repayment>>, borrowerLoans: map<Address, seq<nat>>,
                              id: nat, loan: LoanRequest, cs: seq<Contribution>, rs: seq<Repayment>)
    requires LoansValid(next, loans, fundings, repayments) && BorrowerIndexValid(borrowerLoans, loans)
    requires id in loans && loan.id == id && loan.borrower == loans[id].borrower && LoanInvariant(loan, cs, rs)
    requires id in fundings && id in repayments
    ensures LoansValid(next, loans[id := loan], fundings[id := cs], repayments[id := rs])
    ensures BorrowerIndexValid(borrowerLoans, loans[id := loan])
  {
    var loans', fundings', repayments' := loans[id := loan], fundings[id := cs], repayments[id := rs];
    forall x ensures LoanEntryValid(x, loans', fundings', repayments') {
      if x != id {
        assert LoanEntryValid(x, loans, fundings, repayments);
      }
    }
    forall b | b in borrowerLoans ensures IndexesBorrower(borrowerLoans[b], b, loans') {
      var ids := borrowerLoans[b];
      forall i | 0 <= i < |ids| ensures ids[i] in loans' && loans'[ids[i]].borrower == b {
        assert ids[i] in loans;
      }
    }
  }

  /** The loan after a contribution of `accepted` at time `now`: once the
      requested amount is reached it is Funded, with its funding time and
      due date set. */
  function AfterFunding(loan: LoanRequest, accepted: nat, now: nat): (l: LoanRequest)
    ensures l.fundedAmount == loan.fundedAmount + accepted
    ensures l.status == (if l.fundedAmount == loan.amount then Funded else loan.status)
    ensures l.fundedAmount == loan.amount ==>
      l.fundedTimestamp == Some(now) && l.repaymentDueTimestamp == Some(DueTimestamp(now, loan.schedule, loan.durationDays))
    ensures l.fundedAmount != loan.amount ==> l == loan.(fundedAmount := l.fundedAmount)
  {
    var funded := loan.fundedAmount + accepted;
    if funded == loan.amount
    then loan.(fundedAmount := funded, status := Funded, fundedTimestamp := Some(now),
               repaymentDueTimestamp := Some(DueTimestamp(now, loan.schedule, loan.durationDays)))
    else loan.(fundedAmount := funded)
  }

  /** A contribution of the accepted amount keeps LoanInvariant, and the loan
      becomes Funded exactly when the contributions reach the requested amount. */
  lemma FundKeepsInvariant(loan: LoanRequest, cs: seq<Contribution>, rs: seq<Repayment>, c: Contribution, now: nat)
    requires LoanInvariant(loan, cs, rs) && loan.status == Pending
    requires 0 < c.amount <= loan.amount - loan.fundedAmount
    ensures LoanInvariant(AfterFunding(loan, c.amount, now), cs + [c], rs)
  {
    assert (cs + [c])[..|cs + [c]| - 1] == cs;
  }

  /** A repayment of at most what is still due keeps LoanInvariant; the loan
      is Completed exactly when everything due has been repaid. */
  lemma RepayKeepsInvariant(loan: LoanRequest, cs: seq<Contribution>, rs: seq<Repayment>, rec: Repayment)
    requires LoanInvariant(loan, cs, rs) && loan.status in {Funded, Repaying}
    requires 0 < rec.amount && RepaidTotal(rs) + rec.amount <= TotalRepaymentDue(loan.amount, loan.interestRate)
    ensures var repaid := RepaidTotal(rs) + rec.amount;
      var due := TotalRepaymentDue(loan.amount, loan.interestRate);
      LoanInvariant(loan.(status := if repaid == due then Completed else Repaying), cs, rs + [rec])
  {
    assert (rs + [rec])[..|rs + [rec]| - 1] == rs;
  }

  /** The checks fund_loan makes, in its order: the first that fails, or
      None when a contribution is accepted. */
  function FundCheck(loan: Option<LoanRequest>, lender: Address, amount: int, lenderBalance: int)
    : (r: Option<LendingError>)
    ensures r == None <==>
      && amount > 0 && loan.Some? && loan.value.fundedAmount < loan.value.amount
      && loan.value.status in {Pending, Funded} && loan.value.borrower != lender
      && lenderBalance >= Min(amount, loan.value.amount - loan.value.fundedAmount)
    ensures amount <= 0 ==> r == Some(InvalidAmount)
    ensures amount > 0 && loan.None? ==> r == Some(LoanNotFound)
    ensures amount > 0 && loan.Some? && loan.value.fundedAmount >= loan.value.amount ==> r == Some(LoanFullyFunded)
  {
    if amount <= 0 then Some(InvalidAmount)
    else if loan.None? then Some(LoanNotFound)
    else if loan.value.fundedAmount >= loan.value.amount then Some(LoanFullyFunded)
    else if loan.value.status != Pending && loan.value.status != Funded then Some(InvalidLoanStatus)
    else if loan.value.borrower == lender then Some(Unauthorized)
    else if lenderBalance < Min(amount, loan.value.amount - loan.value.fundedAmount) then Some(InsufficientBalance)
    else None
  }

  /** The checks repay_loan makes, in its order: the first that fails, or
      None when the repayment is accepted. */
  function RepayCheck(loan: Option<LoanRequest>, repaid: nat, borrower: Address, amount: int, borrowerBalance: int)
    : (r: Option<LendingError>)
    ensures r == None <==>
      && amount > 0 && loan.Some? && loan.value.borrower == borrower
      && loan.value.status in {Funded, Repaying}
      && repaid + amount <= TotalRepaymentDue(loan.value.amount, loan.value.interestRate)
      && borrowerBalance >= amount
    ensures amount <= 0 ==> r == Some(InvalidAmount)
    ensures amount > 0 && loan.None? ==> r == Some(LoanNotFound)
    ensures amount > 0 && loan.Some? && loan.value.borrower != borrower ==> r == Some(Unauthorized)
  {
    if amount <= 0 then Some(InvalidAmount)
    else if loan.None? then Some(LoanNotFound)
    else if loan.value.borrower != borrower then Some(Unauthorized)
    else if loan.value.status != Funded && loan.value.status != Repaying then Some(LoanNotRepayable)
    else if amount > TotalRepaymentDue(loan.value.amount, loan.value.interestRate) - repaid
    then Some(RepaymentExceedsDue)
    else if borrowerBalance < amount then Some(InsufficientBalance)
    else None
  }

  class Lending {
    var loans: map<nat, LoanRequest>
    var fundings: map<nat, seq<Contribution>>
    var repayments: map<nat, seq<Repayment>>
    var borrowerLoans: map<Address, seq<nat>>
    var lenderLoans: map<Address, seq<nat>>
    var borrowerMetrics: map<Address, BorrowerMetrics>
    /** The stored NextLoanId; an absent key reads as 1. */
    var nextLoanId: nat
    var totalLoansCreated: nat
    var totalLoansFunded: nat
    var totalLoansCompleted: nat
    var systemStats: Option<SystemStats>

    ghost predicate Valid()
      reads this`loans, this`fundings, this`repayments, this`borrowerLoans, this`lenderLoans
      reads this`nextLoanId, this`totalLoansCreated
    {
      && LoansValid(nextLoanId, loans, fundings, repayments)
      && BorrowerIndexValid(borrowerLoans, loans)
      && LenderIndexValid(lenderLoans)
      && totalLoansCreated == nextLoanId - 1
    }

    /** get_loan_request without the panic: the stored loan, if any. */
    function LoanAt(id: nat): Option<LoanRequest>
      reads this`loans
    {
      if id in loans then Some(loans[id]) else None
    }

    function RepaymentsOf(id: nat): seq<Repayment>
      reads this`repayments
    {
      if id in repayments then repayments[id] else []
    }

    function RepaidSoFar(id: nat): nat
      reads this`repayments
    {
      RepaidTotal(RepaymentsOf(id))
    }

    function FundingsOf(id: nat): seq<Contribution>
      reads this`fundings
    {
      if id in fundings then fundings[id] else []
    }

    function BorrowerLoansOf(b: Address): seq<nat>
      reads this`borrowerLoans
    {
      if b in borrowerLoans then borrowerLoans[b] else []
    }

    function LenderLoansOf(l: Address): seq<nat>
      reads this`lenderLoans
    {
      if l in lenderLoans then lenderLoans[l] else []
    }

    function MetricsOf(b: Address): BorrowerMetrics
      reads this`borrowerMetrics
    {
      if b in borrowerMetrics then borrowerMetrics[b] else BorrowerMetrics(0, 0, 0)
    }

    /** The stored SystemStats, or the default the contract creates on first use. */
    function StatsOrDefault(): SystemStats
      reads this`systemStats, this`totalLoansCreated
    {
      if systemStats.Some? then systemStats.value else SystemStats(totalLoansCreated, 0, 0, 0)
    }

    constructor ()
      ensures Valid()
      ensures loans == map[] && fundings == map[] && repayments == map[]
      ensures borrowerLoans == map[] && lenderLoans == map[] && borrowerMetrics == map[]
      ensures nextLoanId == 1 && totalLoansCreated == 0 && totalLoansFunded == 0 && totalLoansCompleted == 0
      ensures systemStats == None
    {
      loans, fundings, repayments := map[], map[], map[];
      borrowerLoans, lenderLoans, borrowerMetrics := map[], map[], map[];
      nextLoanId := 1;
      totalLoansCreated, totalLoansFunded, totalLoansCompleted := 0, 0, 0;
      systemStats := None;
    }

    /** Stores a loan that is already in storage again, with its funding and
        repayment lists; the borrower of a stored loan never changes. */
    method WriteLoan(id: nat, loan: LoanRequest, cs: seq<Contribution>, rs: seq<Repayment>)
      requires Valid()
      requires id in loans && loan.id == id && loan.borrower == loans[id].borrower
      requires LoanInvariant(loan, cs, rs)
      modifies this`loans, this`fundings, this`repayments
      ensures Valid()
      ensures loans == old(loans)[id := loan] && fundings == old(fundings)[id := cs]
      ensures repayments == old(repayments)[id := rs]
    {
      assert LoanEntryValid(id, loans, fundings, repayments);
      ReplaceLoanKeepsValid(nextLoanId, loans, fundings, repayments, borrowerLoans, id, loan, cs, rs);
      loans := loans[id := loan];
      fundings := fundings[id := cs];
      repayments := repayments[id := rs];
    }

    /** create_loan_request: validates the inputs, takes the next loan id and
        stores a Pending, unfunded loan with empty funding and repayment lists. */
    method CreateLoanRequest(borrower: Address, amount: int, purpose: string, durationDays: nat,
                             interestRate: nat, collateral: Collateral, now: nat)
      returns (r: Result<nat, LendingError>)
      requires Valid()
      modifies this`loans, this`fundings, this`repayments, this`borrowerLoans, this`borrowerMetrics
      modifies this`nextLoanId, this`totalLoansCreated
      ensures Valid()
      ensures ValidateLoanInputs(amount, durationDays, interestRate, collateral).Some? ==>
        r == Err(ValidateLoanInputs(amount, durationDays, interestRate, collateral).value)
        && unchanged(this)
      ensures ValidateLoanInputs(amount, durationDays, interestRate, collateral).None? ==>
        var id := old(nextLoanId);
        && r == Ok(id)
        && id !in old(loans)
        && nextLoanId == id + 1
        && loans == old(loans)[id := LoanRequest(id, borrower, amount, purpose, durationDays, interestRate,
                                                  collateral, Pending, 0, now, None, None, RepaymentSchedule(0, 0))]
        && fundings == old(fundings)[id := []]
        && repayments == old(repayments)[id := []]
        && borrowerLoans == old(borrowerLoans)[borrower := old(BorrowerLoansOf(borrower)) + [id]]
        && borrowerMetrics == old(borrowerMetrics)[borrower :=
             old(MetricsOf(borrower)).(totalLoans := old(MetricsOf(borrower)).totalLoans + 1)]
        && totalLoansCreated == old(totalLoansCreated) + 1
    {
      var invalid := ValidateLoanInputs(amount, durationDays, interestRate, collateral);
      if invalid.Some? {
        return Err(invalid.value);
      }
      var id := nextLoanId;
      var loan := LoanRequest(id, borrower, amount, purpose, durationDays, interestRate,
                              collateral, Pending, 0, now, None, None, RepaymentSchedule(0, 0));
      NewLoanInvariant(loan);
      AddLoanKeepsValid(id, loans, fundings, repayments, borrowerLoans, loan);
      borrowerLoans := borrowerLoans[borrower := BorrowerLoansOf(borrower) + [id]];
      nextLoanId := id + 1;
      loans := loans[id := loan];
      fundings := fundings[id := []];
      repayments := repayments[id := []];
      var metrics := MetricsOf(borrower);
      borrowerMetrics := borrowerMetrics[borrower := metrics.(totalLoans := metrics.totalLoans + 1)];
      totalLoansCreated := totalLoansCreated + 1;
      r := Ok(id);
    }

    /** cancel_loan_request: only the borrower, only while Pending. */
    method CancelLoanRequest(borrower: Address, id: nat) returns (r: Result<(), LendingError>)
      requires Valid()
      modifies this`loans, this`fundings, this`repayments
      ensures Valid()
      ensures id !in old(loans) ==> r == Err(LoanNotFound)
      ensures id in old(loans) && old(loans[id]).borrower != borrower ==> r == Err(NotLoanCreator)
      ensures id in old(loans) && old(loans[id]).borrower == borrower && old(loans[id]).status != Pending ==>
        r == Err(NotPendingLoan)
      ensures r.Err? ==> unchanged(this)
      ensures r.Ok? <==> id in old(loans) && old(loans[id]).borrower == borrower && old(loans[id]).status == Pending
      ensures r.Ok? ==> loans == old(loans)[id := old(loans[id]).(status := Cancelled)]
      ensures fundings == old(fundings) && repayments == old(repayments)
    {
      if id !in loans {
        return Err(LoanNotFound);
      }
      var loan := loans[id];
      assert LoanEntryValid(id, loans, fundings, repayments);
      if loan.borrower != borrower {
        return Err(NotLoanCreator);
      }
      if loan.status != Pending {
        return Err(NotPendingLoan);
      }
      assert fundings[id := fundings[id]] == fundings;
      assert repayments[id := repayments[id]] == repayments;
      WriteLoan(id, loan.(status := Cancelled), fundings[id], repayments[id]);
      r := Ok(());
    }

    /** update_loan_request: only the borrower, only while Pending with nothing
        funded; the new terms are validated like a new request. */
    method UpdateLoanRequest(borrower: Address, id: nat, amount: int, purpose: string, durationDays: nat,
                             interestRate: nat, collateral: Collateral)
      returns (r: Result<(), LendingError>)
      requires Valid()
      modifies this`loans, this`fundings, this`repayments
      ensures Valid()
      ensures id !in old(loans) ==> r == Err(LoanNotFound)
      ensures id in old(loans) && old(loans[id]).borrower != borrower ==> r == Err(NotLoanCreator)
      ensures id in old(loans) && old(loans[id]).borrower == borrower
              && (old(loans[id]).status != Pending || old(loans[id]).fundedAmount > 0)
              ==> r == Err(NotUnfundedPendingLoan)
      ensures r.Err? ==> unchanged(this)
      ensures r.Ok? <==>
        id in old(loans) && old(loans[id]).borrower == borrower && old(loans[id]).status == Pending
        && old(loans[id]).fundedAmount == 0
        && ValidateLoanInputs(amount, durationDays, interestRate, collateral).None?
      ensures r.Ok? ==>
        loans == old(loans)[id := old(loans[id]).(amount := amount, purpose := purpose, durationDays := durationDays,
                                                  interestRate := interestRate, collateral := collateral)]
      ensures fundings == old(fundings) && repayments == old(repayments)
    {
      if id !in loans {
        return Err(LoanNotFound);
      }
      var loan := loans[id];
      assert LoanEntryValid(id, loans, fundings, repayments);
      if loan.borrower != borrower {
        return Err(NotLoanCreator);
      }
      if loan.status != Pending || loan.fundedAmount > 0 {
        return Err(NotUnfundedPendingLoan);
      }
      var invalid := ValidateLoanInputs(amount, durationDays, interestRate, collateral);
      if invalid.Some? {
        return Err(invalid.value);
      }
      var updated := loan.(amount := amount, purpose := purpose, durationDays := durationDays,
                           interestRate := interestRate, collateral := collateral);
      assert fundings[id := fundings[id]] == fundings;
      assert repayments[id := repayments[id]] == repayments;
      WriteLoan(id, updated, fundings[id], repayments[id]);
      r := Ok(());
    }

    /** The effect of an accepted contribution: it is recorded, the loan is
        indexed under the lender once, and the loan's funded amount, status
        and timestamps follow AfterFunding. */
    method ApplyFunding(lender: Address, id: nat, accepted: nat, now: nat)
      requires Valid()
      requires id in loans && loans[id].status == Pending && 0 < accepted <= loans[id].amount - loans[id].fundedAmount
      modifies this`loans, this`fundings, this`repayments, this`lenderLoans, this`totalLoansFunded, this`systemStats
      ensures Valid()
      ensures
        var loan := AfterFunding(old(loans[id]), accepted, now);
        && fundings == old(fundings)[id := old(FundingsOf(id)) + [Contribution(lender, accepted, now, false)]]
        && lenderLoans == old(lenderLoans)[lender :=
             if id in old(LenderLoansOf(lender)) then old(LenderLoansOf(lender)) else old(LenderLoansOf(lender)) + [id]]
        && loans == old(loans)[id := loan]
        && totalLoansFunded == old(totalLoansFunded) + (if loan.status == Funded then 1 else 0)
        && systemStats == Some(old(StatsOrDefault()).(totalFunded := old(StatsOrDefault()).totalFunded + accepted))
        && repayments == old(repayments)
    {
      var stats := StatsOrDefault();
      var mine := LenderLoansOf(lender);
      var loan := loans[id];
      assert LoanEntryValid(id, loans, fundings, repayments);
      var cs := fundings[id];
      var c := Contribution(lender, accepted, now, false);
      var updated := AfterFunding(loan, accepted, now);
      FundKeepsInvariant(loan, cs, repayments[id], c, now);
      assert repayments[id := repayments[id]] == repayments;
      WriteLoan(id, updated, cs + [c], repayments[id]);
      LenderEnlistKeepsValid(lenderLoans, lender, id);
      lenderLoans := lenderLoans[lender := if id in mine then mine else mine + [id]];
      if updated.status == Funded {
        totalLoansFunded := totalLoansFunded + 1;
      }
      systemStats := Some(stats.(totalFunded := stats.totalFunded + accepted));
    }

    /** fund_loan: accepts min(amount, remaining) from a lender other than the
        borrower and applies it as ApplyFunding describes. Returns the accepted
        amount. */
    method FundLoan(lender: Address, id: nat, amount: int, lenderBalance: int, now: nat)
      returns (r: Result<nat, LendingError>)
      requires Valid()
      modifies this`loans, this`fundings, this`repayments, this`lenderLoans, this`totalLoansFunded, this`systemStats
      ensures Valid()
      ensures FundCheck(old(LoanAt(id)), lender, amount, lenderBalance).Some? ==>
        r == Err(FundCheck(old(LoanAt(id)), lender, amount, lenderBalance).value) && unchanged(this)
      ensures FundCheck(old(LoanAt(id)), lender, amount, lenderBalance).None? ==>
        var accepted := Min(amount, old(loans[id]).amount - old(loans[id]).fundedAmount);
        var loan := AfterFunding(old(loans[id]), accepted, now);
        && old(loans[id]).status == Pending
        && r == Ok(accepted) && accepted > 0
        && fundings == old(fundings)[id := old(FundingsOf(id)) + [Contribution(lender, accepted, now, false)]]
        && lenderLoans == old(lenderLoans)[lender :=
             if id in old(LenderLoansOf(lender)) then old(LenderLoansOf(lender)) else old(LenderLoansOf(lender)) + [id]]
        && loans == old(loans)[id := loan]
        && totalLoansFunded == old(totalLoansFunded) + (if loan.status == Funded then 1 else 0)
        && systemStats == Some(old(StatsOrDefault()).(totalFunded := old(StatsOrDefault()).totalFunded + accepted))
        && repayments == old(repayments)
    {
      var check := FundCheck(LoanAt(id), lender, amount, lenderBalance);
      if check.Some? {
        return Err(check.value);
      }
      var loan := loans[id];
      assert LoanEntryValid(id, loans, fundings, repayments);
      var accepted := Min(amount, loan.amount - loan.fundedAmount);
      ApplyFunding(lender, id, accepted, now);
      r := Ok(accepted);
    }

    /** calculate_lender_share: the loop that adds up one lender's contributions. */
    method CalculateLenderShare(lender: Address, id: nat) returns (share: nat)
      ensures share == LenderShare(FundingsOf(id), lender)
    {
      var cs := FundingsOf(id);
      share := 0;
      var i := 0;
      while i < |cs|
        invariant 0 <= i <= |cs|
        invariant share == LenderShare(cs[..i], lender)
      {
        assert cs[..i + 1][..i] == cs[..i];
        if cs[i].lender == lender {
          share := share + cs[i].amount;
        }
        i := i + 1;
      }
      assert cs[..i] == cs;
    }

    /** calculate_lender_share_percentage: fails like get_loan_request when
        the loan does not exist. */
    method CalculateLenderSharePercentage(lender: Address, id: nat) returns (r: Result<nat, LendingError>)
      requires Valid()
      ensures id !in loans ==> r == Err(LoanNotFound)
      ensures id in loans ==>
        r == Ok(SharePercentage(LenderShare(FundingsOf(id), lender), loans[id].amount))
        && r.value <= BASIS_POINTS
    {
      if id !in loans {
        return Err(LoanNotFound);
      }
      assert LoanEntryValid(id, loans, fundings, repayments);
      var share := CalculateLenderShare(lender, id);
      LenderShareAtMostTotal(FundingsOf(id), lender);
      r := Ok(SharePercentage(share, loans[id].amount));
    }

    /** The distribution loop of repay_loan over a loan's contributions, with
        each contribution paid pro rata. */
    method DistributeRepayment(cs: seq<Contribution>, amount: nat, loanAmount: nat)
      returns (transfers: seq<Transfer>)
      ensures transfers == ProRataPayouts(cs, amount, loanAmount)
    {
      transfers := [];
      var i := 0;
      while i < |cs|
        invariant 0 <= i <= |cs|
        invariant transfers == ProRataPayouts(cs[..i], amount, loanAmount)
      {
        assert cs[..i + 1][..i] == cs[..i];
        var c := cs[i];
        if !c.claimed {
          var pay := PayoutFor(amount, SharePercentage(c.amount, loanAmount));
          if pay > 0 {
            transfers := transfers + [Transfer(c.lender, pay)];
          }
        }
        i := i + 1;
      }
      assert cs[..i] == cs;
    }

    /** The effect of an accepted repayment: the repayment is recorded, the
        loan moves to Repaying, or to Completed once everything due has been
        paid, and the borrower's and the system's counters follow. */
    method ApplyRepayment(borrower: Address, id: nat, amount: nat, now: nat)
      requires Valid()
      requires id in loans && loans[id].borrower == borrower && loans[id].status in {Funded, Repaying}
      requires 0 < amount && RepaidSoFar(id) + amount <= TotalRepaymentDue(loans[id].amount, loans[id].interestRate)
      modifies this`loans, this`fundings, this`repayments, this`borrowerMetrics, this`totalLoansCompleted
      modifies this`systemStats
      ensures Valid()
      ensures
        var loan := old(loans[id]);
        var repaid := old(RepaidSoFar(id)) + amount;
        var completed := repaid == TotalRepaymentDue(loan.amount, loan.interestRate);
        && repayments == old(repayments)[id := old(RepaymentsOf(id)) + [Repayment(amount, now)]]
        && loans == old(loans)[id := loan.(status := if completed then Completed else Repaying)]
        && borrowerMetrics == (if completed
                               then old(borrowerMetrics)[borrower :=
                                      old(MetricsOf(borrower)).(completedLoans := old(MetricsOf(borrower)).completedLoans + 1)]
                               else old(borrowerMetrics))
        && totalLoansCompleted == old(totalLoansCompleted) + (if completed then 1 else 0)
        && systemStats == Some(old(StatsOrDefault()).(totalRepaid := old(StatsOrDefault()).totalRepaid + amount))
      ensures fundings == old(fundings)
    {
      var stats := StatsOrDefault();
      var metrics := MetricsOf(borrower);
      var loan := loans[id];
      assert LoanEntryValid(id, loans, fundings, repayments);
      var rs := repayments[id];
      var rec := Repayment(amount, now);
      var completed := RepaidTotal(rs) + amount == TotalRepaymentDue(loan.amount, loan.interestRate);
      RepayKeepsInvariant(loan, fundings[id], rs, rec);
      assert fundings[id := fundings[id]] == fundings;
      WriteLoan(id, loan.(status := if completed then Completed else Repaying), fundings[id], rs + [rec]);
      if completed {
        borrowerMetrics := borrowerMetrics[borrower := metrics.(completedLoans := metrics.completedLoans + 1)];
        totalLoansCompleted := totalLoansCompleted + 1;
      }
      systemStats := Some(stats.(totalRepaid := stats.totalRepaid + amount));
    }

    /** repay_loan: the borrower pays part of what is still due; the
        repayment is distributed to the lenders pro rata and applied as
        ApplyRepayment describes. Returns the transfers made to lenders. */
    method RepayLoan(borrower: Address, id: nat, amount: int, borrowerBalance: int, now: nat)
      returns (r: Result<seq<Transfer>, LendingError>)
      requires Valid()
      modifies this`loans, this`fundings, this`repayments, this`borrowerMetrics, this`totalLoansCompleted
      modifies this`systemStats
      ensures Valid()
      ensures RepayCheck(old(LoanAt(id)), old(RepaidSoFar(id)), borrower, amount, borrowerBalance).Some? ==>
        r == Err(RepayCheck(old(LoanAt(id)), old(RepaidSoFar(id)), borrower, amount, borrowerBalance).value)
        && unchanged(this)
      ensures RepayCheck(old(LoanAt(id)), old(RepaidSoFar(id)), borrower, amount, borrowerBalance).None? ==>
        var loan := old(loans[id]);
        var repaid := old(RepaidSoFar(id)) + amount;
        var completed := repaid == TotalRepaymentDue(loan.amount, loan.interestRate);
        && r == Ok(ProRataPayouts(old(FundingsOf(id)), amount, loan.amount))
        && TransferTotal(r.value) <= amount
        && repayments == old(repayments)[id := old(RepaymentsOf(id)) + [Repayment(amount, now)]]
        && loans == old(loans)[id := loan.(status := if completed then Completed else Repaying)]
        && borrowerMetrics == (if completed
                               then old(borrowerMetrics)[borrower :=
                                      old(MetricsOf(borrower)).(completedLoans := old(MetricsOf(borrower)).completedLoans + 1)]
                               else old(borrowerMetrics))
        && totalLoansCompleted == old(totalLoansCompleted) + (if completed then 1 else 0)
        && systemStats == Some(old(StatsOrDefault()).(totalRepaid := old(StatsOrDefault()).totalRepaid + amount))
        && fundings == old(fundings)
    {
      var check := RepayCheck(LoanAt(id), RepaidSoFar(id), borrower, amount, borrowerBalance);
      if check.Some? {
        return Err(check.value);
      }
      var loan := loans[id];
      assert LoanEntryValid(id, loans, fundings, repayments);
      var cs := fundings[id];
      var transfers := DistributeRepayment(cs, amount, loan.amount);
      ProRataPayoutsBounded(cs, amount, loan.amount);
      ApplyRepayment(borrower, id, amount, now);
      r := Ok(transfers);
    }
  }
}
