/** Applying posted deposits to an invoice or bill, in whole cents of the company currency. */
module Deposits {
  import opened Sequences

  datatype Kind = CustomerInvoice | VendorBill

  /** A deposit payment, through its open line on a deposit account: the line's side and signed residual. */
  datatype Deposit = Deposit(posted: bool, account: nat, debit: int, credit: int, residual: int)

  datatype EntryLine = EntryLine(account: nat, debit: int, credit: int)

  /** The residuals of the invoice's receivable or payable lines, the deposits, the entries generated. */
  datatype Books = Books(open: seq<int>, deposits: seq<Deposit>, entries: seq<seq<EntryLine>>)

  function Abs(x: int): int { if x < 0 then -x else x }

  function Min(a: int, b: int): int { if a < b then a else b }

  function Max(a: int, b: int): int { if a < b then b else a }

  function Total(xs: seq<int>): int { if xs == [] then 0 else xs[0] + Total(xs[1..]) }

  // ------------------------------------------------------------------ reconciliation (specification)

  /** What two lines of opposite sign clear of each other, as a change of the second. */
  function Cleared(x: int, y: int): int {
    if x > 0 && y < 0 then Min(x, -y) else if x < 0 && y > 0 then -Min(-x, y) else 0
  }

  /** The residuals of the lines once one line of residual x is reconciled with them, in order. */
  function Reconciled(x: int, ys: seq<int>): (r: seq<int>)
    ensures |r| == |ys|
    decreases |ys|
  {
    if ys == [] then [] else [ys[0] + Cleared(x, ys[0])] + Reconciled(x - Cleared(x, ys[0]), ys[1..])
  }

  // ------------------------------------------------------------------ the specification

  /** The line `_reconcile_deposit` looks for: on the side that pays the document, and still open. */
  predicate Eligible(d: Deposit, kind: Kind) {
    d.posted && d.residual != 0 && (if kind == CustomerInvoice then d.credit > 0 else d.debit > 0)
  }

  function Amount(open: seq<int>, d: Deposit): int { Min(Abs(Total(open)), Abs(d.residual)) }

  /** `_create_deposit_payment_entry` with `_get_account_side`. */
  function NewEntry(d: Deposit, account: nat, amount: int): seq<EntryLine> {
    [EntryLine(if d.credit > 0 then d.account else account, amount, 0),
     EntryLine(if d.debit > 0 then d.account else account, 0, amount)]
  }

  /** The signed residual of an entry on an account when it is posted. */
  function Posted(entry: seq<EntryLine>, account: nat): int {
    if entry == [] then 0
    else (if entry[0].account == account then entry[0].debit - entry[0].credit else 0) + Posted(entry[1..], account)
  }

  /** The books after one deposit is offered to the document. */
  function Offered(b: Books, kind: Kind, account: nat, i: nat): Books
    requires i < |b.deposits|
  {
    var d := b.deposits[i];
    if !Eligible(d, kind) || Amount(b.open, d) == 0 then b
    else
      var entry := NewEntry(d, account, Amount(b.open, d));
      Books(Reconciled(Posted(entry, account), b.open),
            b.deposits[i := d.(residual := Reconciled(Posted(entry, d.account), [d.residual])[0])],
            b.entries + [entry])
  }

  function OfferedFrom(b: Books, kind: Kind, account: nat, i: nat): Books
    requires i <= |b.deposits|
    decreases |b.deposits| - i
  {
    if i == |b.deposits| then b else OfferedFrom(Offered(b, kind, account, i), kind, account, i + 1)
  }

  // ------------------------------------------------------------------ the code

  class Document {
    const kind: Kind
    const account: nat
    var open: seq<int>
    var deposits: seq<Deposit>
    var entries: seq<seq<EntryLine>>

    function State(): Books
      reads this
    {
      Books(open, deposits, entries)
    }

    constructor (kind: Kind, account: nat, open: seq<int>, deposits: seq<Deposit>)
      ensures this.kind == kind && this.account == account && State() == Books(open, deposits, [])
    {
      this.kind, this.account, this.open, this.deposits, this.entries := kind, account, open, deposits, [];
    }

    /** `js_assign_outstanding_line` for a deposit. */
    method AssignOutstandingLine(i: nat)
      requires i < |deposits| && Eligible(deposits[i], kind)
      modifies this
      ensures State() == Offered(old(State()), kind, account, i)
    {
      var line := deposits[i];
      var total := 0;
      var k := 0;
      while k < |open|
        invariant 0 <= k <= |open|
        invariant Total(open) == total + Total(open[k..])
      {
        assert open[k..][1..] == open[k + 1..];
        total := total + open[k];
        k := k + 1;
      }
      var amount := Min(Abs(total), Abs(line.residual));
      if amount == 0 {
        return;
      }
      var debitAccount := if line.credit > 0 then line.account else account;
      var creditAccount := if line.debit > 0 then line.account else account;
      var entry := [EntryLine(debitAccount, amount, 0), EntryLine(creditAccount, 0, amount)];
      entries := entries + [entry];
      var rest := Reconciled(Posted(entry, line.account), [line.residual]);
      deposits := deposits[i := line.(residual := rest[0])];
      open := Reconciled(Posted(entry, account), open);
    }

    /** `_reconcile_deposit` */
    method ReconcileDeposit()
      modifies this
      ensures State() == OfferedFrom(old(State()), kind, account, 0)
    {
      var i := 0;
      while i < |deposits|
        invariant 0 <= i <= |deposits|
        invariant OfferedFrom(old(State()), kind, account, 0) == OfferedFrom(State(), kind, account, i)
      {
        if Eligible(deposits[i], kind) {
          AssignOutstandingLine(i);
        }
        i := i + 1;
      }
    }
  }

  // ------------------------------------------------------------------ what is open

  /** A signed residual as an amount of the document's side. */
  function Side(kind: Kind, x: int): int { if kind == CustomerInvoice then x else -x }

  ghost predicate OpenOk(kind: Kind, open: seq<int>) {
    forall k :: 0 <= k < |open| ==> Side(kind, open[k]) >= 0
  }

  /** A deposit line has one side and a residual of that side; the deposit accounts are not the
      receivable or payable account. */
  predicate DepositOk(d: Deposit, account: nat) {
    && d.account != account && d.debit >= 0 && d.credit >= 0 && (d.debit == 0 || d.credit == 0)
    && -d.credit <= d.residual <= d.debit
  }

  ghost predicate BooksOk(b: Books, kind: Kind, account: nat) {
    OpenOk(kind, b.open) && forall i :: 0 <= i < |b.deposits| ==> DepositOk(b.deposits[i], account)
  }

  /** Residuals of one side add up to that side. */
  lemma {:induction false} TotalSign(kind: Kind, xs: seq<int>)
    requires OpenOk(kind, xs)
    ensures Side(kind, Total(xs)) >= 0
  {
    if xs != [] {
      assert forall k :: 0 <= k < |xs[1..]| ==> xs[1..][k] == xs[k + 1];
      TotalSign(kind, xs[1..]);
    }
  }

  lemma {:induction false} ReconciledByNothing(ys: seq<int>)
    ensures Reconciled(0, ys) == ys
  {
    if ys != [] {
      ReconciledByNothing(ys[1..]);
    }
  }

  /** Reconciling an amount no larger than what is open takes exactly that amount off, line by line in
      order, and leaves no line on the wrong side. */
  lemma {:induction false} ReconciledOpen(kind: Kind, amount: int, ys: seq<int>)
    requires OpenOk(kind, ys) && 0 <= amount <= Side(kind, Total(ys))
    ensures OpenOk(kind, Reconciled(Side(kind, -amount), ys))
    ensures Side(kind, Total(Reconciled(Side(kind, -amount), ys))) == Side(kind, Total(ys)) - amount
  {
    if ys != [] {
      var x := Side(kind, -amount);
      var first := Min(amount, Side(kind, ys[0]));
      var rest := Reconciled(x - Cleared(x, ys[0]), ys[1..]);
      assert forall k :: 0 <= k < |ys[1..]| ==> ys[1..][k] == ys[k + 1];
      assert Cleared(x, ys[0]) == Side(kind, -first);
      TotalSign(kind, ys[1..]);
      ReconciledOpen(kind, amount - first, ys[1..]);
      assert Reconciled(x, ys)[1..] == rest;
    }
  }

  // ------------------------------------------------------------------ one deposit

  /** What a deposit has to offer the document. */
  function Offer(d: Deposit, kind: Kind): int { if Eligible(d, kind) then Abs(d.residual) else 0 }

  /** What is still open on the document, as an amount. */
  function StillOpen(b: Books, kind: Kind): int { Side(kind, Total(b.open)) }

  function EntriesTotal(entries: seq<seq<EntryLine>>): int {
    if entries == [] then 0
    else (if entries[0] == [] then 0 else entries[0][0].debit) + EntriesTotal(entries[1..])
  }

  lemma {:induction false} EntriesTotalSnoc(entries: seq<seq<EntryLine>>, e: seq<EntryLine>)
    requires e != []
    ensures EntriesTotal(entries + [e]) == EntriesTotal(entries) + e[0].debit
  {
    if entries == [] {
      assert entries + [e] == [e] && [e][1..] == [];
    } else {
      assert (entries + [e])[1..] == entries[1..] + [e];
      EntriesTotalSnoc(entries[1..], e);
    }
  }

  /** An entry for a positive amount that moves it between the two accounts: debit equals credit, the
      deposit account is debited for an invoice and credited for a bill. */
  predicate EntryOk(e: seq<EntryLine>, kind: Kind, account: nat, deposits: seq<Deposit>) {
    && |e| == 2 && e[0].debit == e[1].credit > 0 && e[0].credit == e[1].debit == 0
    && (kind == CustomerInvoice ==> e[1].account == account && exists d :: d in deposits && e[0].account == d.account)
    && (kind == VendorBill ==> e[0].account == account && exists d :: d in deposits && e[1].account == d.account)
  }

  lemma {:induction false} EntryPosted(d: Deposit, kind: Kind, account: nat, amount: int)
    requires DepositOk(d, account) && Eligible(d, kind)
    ensures Posted(NewEntry(d, account, amount), account) == Side(kind, -amount)
    ensures Posted(NewEntry(d, account, amount), d.account) == Side(kind, amount)
  {
    var e := NewEntry(d, account, amount);
    assert e[1..] == [e[1]] && e[1..][1..] == [];
    assert Posted(e[1..], account) == if e[1].account == account then e[1].debit - e[1].credit else 0;
    assert Posted(e[1..], d.account) == if e[1].account == d.account then e[1].debit - e[1].credit else 0;
  }

  /** One deposit: the smaller of what it offers and what is open leaves both. */
  lemma {:induction false} OfferedOne(b: Books, kind: Kind, account: nat, i: nat)
    requires BooksOk(b, kind, account) && i < |b.deposits|
    ensures var after := Offered(b, kind, account, i);
            var taken := Min(StillOpen(b, kind), Offer(b.deposits[i], kind));
            && BooksOk(after, kind, account) && |after.deposits| == |b.deposits| && taken >= 0
            && StillOpen(after, kind) == StillOpen(b, kind) - taken
            && after.deposits[i] == b.deposits[i].(residual := b.deposits[i].residual + Side(kind, taken))
            && (forall k :: 0 <= k < |b.deposits| && k != i ==> after.deposits[k] == b.deposits[k])
            && (taken == 0 ==> after.entries == b.entries)
            && (taken > 0 ==> after.entries == b.entries + [NewEntry(b.deposits[i], account, taken)])
  {
    var d := b.deposits[i];
    TotalSign(kind, b.open);
    if Eligible(d, kind) && Amount(b.open, d) != 0 {
      var amount := Amount(b.open, d);
      EntryPosted(d, kind, account, amount);
      ReconciledOpen(kind, amount, b.open);
      assert Reconciled(Side(kind, amount), [d.residual])[0] == d.residual + Cleared(Side(kind, amount), d.residual);
      assert Cleared(Side(kind, amount), d.residual) == Side(kind, amount);
    }
  }

  // ------------------------------------------------------------------ all deposits

  /** What the deposits from i up to but not including j offer. */
  function OfferOf(ds: seq<Deposit>, kind: Kind, i: nat, j: nat): int
    requires i <= j <= |ds|
    decreases j - i
  {
    if i == j then 0 else Offer(ds[i], kind) + OfferOf(ds, kind, i + 1, j)
  }

  lemma {:induction false} OfferNonNegative(ds: seq<Deposit>, kind: Kind, i: nat, j: nat)
    requires i <= j <= |ds|
    ensures OfferOf(ds, kind, i, j) >= 0
    decreases j - i
  {
    if i < j {
      OfferNonNegative(ds, kind, i + 1, j);
    }
  }

  lemma {:induction false} OfferSame(ds: seq<Deposit>, es: seq<Deposit>, kind: Kind, i: nat, j: nat)
    requires i <= j <= |ds| == |es| && forall k :: i <= k < j ==> ds[k] == es[k]
    ensures OfferOf(ds, kind, i, j) == OfferOf(es, kind, i, j)
    decreases j - i
  {
    if i < j {
      OfferSame(ds, es, kind, i + 1, j);
    }
  }

  /** The document is left with what the deposits do not cover. */
  lemma {:induction false} RemainingOpen(b: Books, kind: Kind, account: nat, i: nat)
    requires BooksOk(b, kind, account) && i <= |b.deposits|
    ensures var after := OfferedFrom(b, kind, account, i);
            && |after.deposits| == |b.deposits| && BooksOk(after, kind, account)
            && StillOpen(after, kind) == Max(0, StillOpen(b, kind) - OfferOf(b.deposits, kind, i, |b.deposits|))
            && EntriesTotal(after.entries) == EntriesTotal(b.entries) + StillOpen(b, kind) - StillOpen(after, kind)
            && forall k :: 0 <= k < i ==> after.deposits[k] == b.deposits[k]
    decreases |b.deposits| - i
  {
    TotalSign(kind, b.open);
    if i < |b.deposits| {
      var next := Offered(b, kind, account, i);
      var taken := Min(StillOpen(b, kind), Offer(b.deposits[i], kind));
      OfferedOne(b, kind, account, i);
      if taken > 0 {
        EntriesTotalSnoc(b.entries, NewEntry(b.deposits[i], account, taken));
      }
      RemainingOpen(next, kind, account, i + 1);
      OfferSame(b.deposits, next.deposits, kind, i + 1, |b.deposits|);
      OfferNonNegative(b.deposits, kind, i + 1, |b.deposits|);
    }
  }

  lemma {:induction false} LeftAfter(open: int, offer: int, rest: int)
    requires open >= 0 && offer >= 0 && rest >= 0
    ensures Max(0, open - Min(open, offer) - rest) == Max(0, open - (offer + rest))
  {
  }

  lemma {:induction false} OffersAre(ds: seq<Deposit>, es: seq<Deposit>, kind: Kind, i: nat, k: nat)
    requires i < k < |ds| == |es| && forall j :: i < j < |ds| ==> es[j] == ds[j]
    ensures Offer(ds[i], kind) >= 0 && OfferOf(es, kind, i + 1, k) >= 0
    ensures OfferOf(ds, kind, i, k) == Offer(ds[i], kind) + OfferOf(es, kind, i + 1, k)
  {
    OfferSame(ds, es, kind, i + 1, k);
    OfferNonNegative(es, kind, i + 1, k);
  }

  lemma {:induction false} FirstConsumed(b: Books, kind: Kind, account: nat, i: nat)
    requires BooksOk(b, kind, account) && i < |b.deposits|
    ensures var after := OfferedFrom(b, kind, account, i);
            && |after.deposits| == |b.deposits| && StillOpen(b, kind) >= 0
            && after.deposits[i] == b.deposits[i].(residual := b.deposits[i].residual
                                                               + Side(kind, Min(StillOpen(b, kind), Offer(b.deposits[i], kind))))
  {
    TotalSign(kind, b.open);
    hide Offered, StillOpen, Eligible, BooksOk, Offer, Side;
    OfferedOne(b, kind, account, i);
    RemainingOpen(Offered(b, kind, account, i), kind, account, i + 1);
  }

  /** Deposits are consumed as a prefix: each gives the smaller of what it offers and what the earlier
      ones left open; one that is not posted, not open or on the other side gives nothing. */
  lemma {:induction false} ConsumedInOrder(b: Books, kind: Kind, account: nat, i: nat, k: nat)
    requires BooksOk(b, kind, account) && i <= k < |b.deposits|
    ensures var after := OfferedFrom(b, kind, account, i);
            var left := Max(0, StillOpen(b, kind) - OfferOf(b.deposits, kind, i, k));
            && |after.deposits| == |b.deposits|
            && after.deposits[k] == b.deposits[k].(residual := b.deposits[k].residual
                                                               + Side(kind, Min(left, Offer(b.deposits[k], kind))))
    decreases |b.deposits| - i
  {
    FirstConsumed(b, kind, account, i);
    if k > i {
      hide Offered, StillOpen, Eligible, BooksOk, Offer, Side, Max, Min;
      var next := Offered(b, kind, account, i);
      OfferedOne(b, kind, account, i);
      ConsumedInOrder(next, kind, account, i + 1, k);
      OffersAre(b.deposits, next.deposits, kind, i, k);
      LeftAfter(StillOpen(b, kind), Offer(b.deposits[i], kind), OfferOf(next.deposits, kind, i + 1, k));
    }
  }

  /** Once something stays open, every eligible deposit up to there is used up; and a deposit that
      keeps something means that the document is paid. */
  lemma {:induction false} NoDepositHeldBack(b: Books, kind: Kind, account: nat, k: nat)
    requires BooksOk(b, kind, account) && k < |b.deposits| && Eligible(b.deposits[k], kind)
    ensures var after := OfferedFrom(b, kind, account, 0);
            && |after.deposits| == |b.deposits|
            && (after.deposits[k].residual != 0 ==> StillOpen(after, kind) == 0)
            && (forall j :: k < j < |b.deposits| && after.deposits[k].residual != 0 ==>
                  after.deposits[j] == b.deposits[j])
  {
    ConsumedInOrder(b, kind, account, 0, k);
    RemainingOpen(b, kind, account, 0);
    var after := OfferedFrom(b, kind, account, 0);
    OfferSplit(b.deposits, kind, 0, k, |b.deposits|);
    OfferNonNegative(b.deposits, kind, k + 1, |b.deposits|);
    if after.deposits[k].residual != 0 {
      forall j | k < j < |b.deposits| ensures after.deposits[j] == b.deposits[j] {
        ConsumedInOrder(b, kind, account, 0, j);
        OfferSplit(b.deposits, kind, 0, k, j);
        OfferNonNegative(b.deposits, kind, k + 1, j);
      }
    }
  }

  lemma {:induction false} OfferSplit(ds: seq<Deposit>, kind: Kind, i: nat, k: nat, j: nat)
    requires i <= k < j <= |ds|
    ensures OfferOf(ds, kind, i, j) == OfferOf(ds, kind, i, k) + Offer(ds[k], kind) + OfferOf(ds, kind, k + 1, j)
    decreases k - i
  {
    if i < k {
      OfferSplit(ds, kind, i + 1, k, j);
    }
  }

  /** The open amounts of a sequence of deposits, as one amount. */
  function HeldBy(ds: seq<Deposit>): int { if ds == [] then 0 else Abs(ds[0].residual) + HeldBy(ds[1..]) }

  lemma {:induction false} HeldUpdate(ds: seq<Deposit>, i: nat, d: Deposit)
    requires i < |ds|
    ensures HeldBy(ds[i := d]) == HeldBy(ds) - Abs(ds[i].residual) + Abs(d.residual)
  {
    if i == 0 {
      assert ds[i := d][1..] == ds[1..];
    } else {
      assert ds[i := d][1..] == ds[1..][i - 1 := d];
      HeldUpdate(ds[1..], i - 1, d);
    }
  }

  /** What leaves the deposits is what leaves the document, and what the entries move. */
  lemma {:induction false} TakenIsApplied(b: Books, kind: Kind, account: nat, i: nat)
    requires BooksOk(b, kind, account) && i <= |b.deposits|
    ensures var after := OfferedFrom(b, kind, account, i);
            && HeldBy(b.deposits) - HeldBy(after.deposits) == StillOpen(b, kind) - StillOpen(after, kind)
            && HeldBy(b.deposits) - HeldBy(after.deposits) == EntriesTotal(after.entries) - EntriesTotal(b.entries)
    decreases |b.deposits| - i
  {
    RemainingOpen(b, kind, account, i);
    if i < |b.deposits| {
      var next := Offered(b, kind, account, i);
      var d := b.deposits[i];
      var taken := Min(StillOpen(b, kind), Offer(d, kind));
      OfferedOne(b, kind, account, i);
      HeldUpdate(b.deposits, i, next.deposits[i]);
      assert next.deposits == b.deposits[i := next.deposits[i]];
      assert Abs(next.deposits[i].residual) == Abs(d.residual) - taken;
      TakenIsApplied(next, kind, account, i + 1);
    }
  }

  /** Every generated entry has equal debit and credit, for a positive amount, between a deposit account
      and the document's account, the right way round. */
  lemma {:induction false} EntriesBalance(b: Books, kind: Kind, account: nat, i: nat)
    requires BooksOk(b, kind, account) && i <= |b.deposits|
    ensures var after := OfferedFrom(b, kind, account, i);
            && |b.entries| <= |after.entries| && after.entries[..|b.entries|] == b.entries
            && forall k :: |b.entries| <= k < |after.entries| ==> EntryOk(after.entries[k], kind, account, b.deposits)
    decreases |b.deposits| - i
  {
    if i < |b.deposits| {
      var next := Offered(b, kind, account, i);
      var d := b.deposits[i];
      OfferedOne(b, kind, account, i);
      EntriesBalance(next, kind, account, i + 1);
      var after := OfferedFrom(b, kind, account, i);
      forall k | |b.entries| <= k < |after.entries| ensures EntryOk(after.entries[k], kind, account, b.deposits) {
        if k < |next.entries| {
          assert after.entries[k] == after.entries[..|next.entries|][k] == next.entries[k];
          assert d in b.deposits;
        } else {
          SameAccounts(after.entries[k], kind, account, next.deposits, b.deposits);
        }
      }
      assert after.entries[..|b.entries|] == after.entries[..|next.entries|][..|b.entries|];
    }
  }

  lemma {:induction false} SameAccounts(e: seq<EntryLine>, kind: Kind, account: nat, ds: seq<Deposit>, es: seq<Deposit>)
    requires EntryOk(e, kind, account, ds) && |ds| == |es|
    requires forall k :: 0 <= k < |ds| ==> ds[k].account == es[k].account
    ensures EntryOk(e, kind, account, es)
  {
    var line := if kind == CustomerInvoice then e[0] else e[1];
    var d :| d in ds && line.account == d.account;
    var k :| 0 <= k < |ds| && ds[k] == d;
    assert es[k] in es && line.account == es[k].account;
  }

  /** A document paid by its deposits in order: what stays open is max(0, R - what the deposits offer). */
  lemma {:induction false} InvoicePaid(b: Books, kind: Kind, account: nat)
    requires BooksOk(b, kind, account)
    ensures var after := OfferedFrom(b, kind, account, 0);
            && Abs(Total(after.open)) == Max(0, Abs(Total(b.open)) - OfferOf(b.deposits, kind, 0, |b.deposits|))
            && OpenOk(kind, after.open)
  {
    RemainingOpen(b, kind, account, 0);
    TotalSign(kind, b.open);
    TotalSign(kind, OfferedFrom(b, kind, account, 0).open);
  }

  // ------------------------------------------------------------------ told from the residuals

  /** What a deposit can pay: nothing unless it is posted, else what its residual leaves on the side that pays. */
  function Payable(d: Deposit, kind: Kind): int {
    if !d.posted then 0
    else if kind == CustomerInvoice then (if d.residual < 0 then -d.residual else 0)
    else (if d.residual > 0 then d.residual else 0)
  }

  lemma {:induction false} OffersArePayable(ds: seq<Deposit>, kind: Kind, account: nat, i: nat)
    requires i <= |ds| && forall k :: 0 <= k < |ds| ==> DepositOk(ds[k], account)
    ensures OfferOf(ds, kind, i, |ds|) == SumOf(ds[i..], (d: Deposit) => Payable(d, kind))
    decreases |ds| - i
  {
    if i < |ds| {
      OffersArePayable(ds, kind, account, i + 1);
      assert ds[i..][1..] == ds[i + 1..];
    }
  }

  lemma {:induction false} TotalIs(xs: seq<int>)
    ensures Total(xs) == SumOf(xs, (x: int) => x)
  {
    if xs != [] {
      TotalIs(xs[1..]);
    }
  }

  /** The whole run in terms of the residuals alone: what stays open is what the posted residuals of the paying side
      do not cover, and a deposit that is not posted is as it was. */
  lemma {:induction false} PaidFromResiduals(b: Books, kind: Kind, account: nat)
    requires BooksOk(b, kind, account)
    ensures var after := OfferedFrom(b, kind, account, 0);
            var asked, paid := Abs(SumOf(b.open, (x: int) => x)), SumOf(b.deposits, (d: Deposit) => Payable(d, kind));
            && Abs(SumOf(after.open, (x: int) => x)) == (if paid < asked then asked - paid else 0)
            && |after.deposits| == |b.deposits|
            && forall k :: 0 <= k < |b.deposits| ==>
                 && after.deposits[k] == b.deposits[k].(residual := after.deposits[k].residual)
                 && (Payable(b.deposits[k], kind) == 0 ==> after.deposits[k] == b.deposits[k])
  {
    var after := OfferedFrom(b, kind, account, 0);
    InvoicePaid(b, kind, account);
    RemainingOpen(b, kind, account, 0);
    TotalIs(b.open);
    TotalIs(after.open);
    OffersArePayable(b.deposits, kind, account, 0);
    assert b.deposits[0..] == b.deposits;
    hide OfferedFrom;
    forall k | 0 <= k < |b.deposits|
      ensures after.deposits[k] == b.deposits[k].(residual := after.deposits[k].residual)
      ensures Payable(b.deposits[k], kind) == 0 ==> after.deposits[k] == b.deposits[k]
    {
      ConsumedInOrder(b, kind, account, 0, k);
    }
  }

  /** Reconciling one line with any others: lines of its own side stay, those of the other side shrink. */
  lemma {:induction false} ReconciledSides(x: int, ys: seq<int>, k: nat)
    requires k < |ys|
    ensures var r := Reconciled(x, ys);
            if x > 0 && ys[k] < 0 then ys[k] <= r[k] <= 0 else if x < 0 && ys[k] > 0 then 0 <= r[k] <= ys[k] else r[k] == ys[k]
    decreases |ys|
  {
    var rest := Reconciled(x - Cleared(x, ys[0]), ys[1..]);
    assert Reconciled(x, ys) == [ys[0] + Cleared(x, ys[0])] + rest;
    if k > 0 {
      ReconciledSides(x - Cleared(x, ys[0]), ys[1..], k - 1);
    }
  }

  /** What those of the other side have, as an amount. */
  function OtherSide(x: int, y: int): int {
    if x >= 0 then (if y < 0 then -y else 0) else (if y > 0 then y else 0)
  }

  /** Together they give the smaller of what the line has and what they have. */
  lemma {:induction false} ReconciledIs(x: int, ys: seq<int>)
    ensures Abs(Total(Reconciled(x, ys)) - Total(ys)) == Min(Abs(x), SumOf(ys, (y: int) => OtherSide(x, y)))
    ensures x >= 0 ==> Total(Reconciled(x, ys)) >= Total(ys)
    ensures x <= 0 ==> Total(Reconciled(x, ys)) <= Total(ys)
    decreases |ys|
  {
    if ys != [] {
      var c := Cleared(x, ys[0]);
      var rest := Reconciled(x - c, ys[1..]);
      ReconciledIs(x - c, ys[1..]);
      assert Reconciled(x, ys)[1..] == rest;
      OneSided(x, ys[1..]);
      if x - c != 0 || x == 0 {
        SumOfSame(ys[1..], (y: int) => OtherSide(x - c, y), (y: int) => OtherSide(x, y));
      }
      hide Reconciled, SumOf;
    }
  }

  lemma {:induction false} OneSided(x: int, ys: seq<int>)
    ensures SumOf(ys, (y: int) => OtherSide(x, y)) >= 0
  {
    if ys != [] {
      OneSided(x, ys[1..]);
    }
  }
}
