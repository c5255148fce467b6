/**
 Running balances recomputed by window sums: the daily register, whose balances agree with
 the cash ledger, and the unified feed, which agrees only under conditions made exact here.

 A window sum in (time, id) order up to a row is the sum over the rows not after it.
 */
module Movements {
  import opened Sums
  import opened Ledger
  import opened Engine

  // ----- the daily register -----

  predicate Upto(cash: seq<CashTxn>, j: nat, k: nat)
    requires j < |cash| && k < |cash|
  {
    cash[j].createdAt < cash[k].createdAt || (cash[j].createdAt == cash[k].createdAt && j <= k)
  }

  /** A row's share of the window of row `k`, within its own cashbox. */
  function Share(cash: seq<CashTxn>, k: nat): nat -> int {
    (j: nat) =>
      if j < |cash| && k < |cash| && cash[j].cashbox == cash[k].cashbox && Upto(cash, j, k) && !cash[j].isVoid
      then Signed(cash[j].direction, cash[j].amount) else 0
  }

  /** The rows the inner query keeps: one cashbox, or all. */
  function InScope(cash: seq<CashTxn>, box: Option<CashboxId>): nat -> bool {
    (j: nat) => j < |cash| && (box.Some? ==> cash[j].cashbox == box.value)
  }

  /** `balance_after` of row `k`, computed over the rows of the inner query. */
  function BalanceAfter(cash: seq<CashTxn>, box: Option<CashboxId>, k: nat): Cents {
    Sum(Share(cash, k), Keep(InScope(cash, box), Range(0, |cash|)))
  }

  datatype View = View(box: Option<CashboxId>, direction: Option<Direction>, category: Option<string>,
                       from: Option<int>, to: Option<int>, limit: Option<nat>, offset: int)

  /** The filters applied after the window. */
  function Shown(cash: seq<CashTxn>, v: View): nat -> bool {
    (k: nat) => k < |cash| && InScope(cash, v.box)(k)
      && (v.direction.Some? ==> cash[k].direction == v.direction.value)
      && (v.category.Some? ==> cash[k].category == v.category.value)
      && (v.from.Some? ==> cash[k].createdAt >= v.from.value)
      && (v.to.Some? ==> cash[k].createdAt <= v.to.value)
  }

  function Page<T>(rows: seq<T>, limit: nat, offset: nat): (r: seq<T>)
    ensures forall x :: x in r ==> x in rows
  {
    var from := if offset <= |rows| then offset else |rows|;
    var to := if from + limit <= |rows| then from + limit else |rows|;
    rows[from..to]
  }

  function WithBalances(cash: seq<CashTxn>, box: Option<CashboxId>, rows: seq<nat>): (r: seq<(nat, Cents)>)
    ensures |r| == |rows| && forall i :: 0 <= i < |r| ==> r[i] == (rows[i], BalanceAfter(cash, box, rows[i]))
  {
    seq(|rows|, i requires 0 <= i < |rows| => (rows[i], BalanceAfter(cash, box, rows[i])))
  }

  /** Two hundred rows unless told otherwise, and a thousand at most. */
  function LimitOf(v: View): nat { if v.limit.None? then 200 else if v.limit.value < 1000 then v.limit.value else 1000 }

  function OffsetOf(v: View): nat { if v.offset < 0 then 0 else v.offset }

  /** The shown rows, newest first; rows of one moment come in the order the database picks. */
  ghost predicate Feed(cash: seq<CashTxn>, v: View, order: seq<nat>) {
    && (forall k: nat :: k in order <==> Shown(cash, v)(k))
    && (forall i, j :: 0 <= i < j < |order| ==> order[i] != order[j])
    && forall i, j :: 0 <= i < j < |order| && order[i] < |cash| && order[j] < |cash| ==> cash[order[i]].createdAt >= cash[order[j]].createdAt
  }

  /** `movements`: a page of that order, each row with its balance. */
  function Register(cash: seq<CashTxn>, v: View, order: seq<nat>): seq<(nat, Cents)> {
    WithBalances(cash, v.box, Page(order, LimitOf(v), OffsetOf(v)))
  }

  /** The running balance of the row's own cashbox, whatever else is filtered. */
  function TrueBalance(cash: seq<CashTxn>, k: nat): Cents { Sum(Share(cash, k), Range(0, |cash|)) }

  /** What a row asks of its cashbox: the live rows written before it, and itself. */
  ghost function UpToRow(cash: seq<CashTxn>, k: nat): nat -> int {
    (j: nat) =>
      if j < |cash| && k < |cash| && cash[j].cashbox == cash[k].cashbox && !cash[j].isVoid
         && (cash[j].createdAt < cash[k].createdAt || (cash[j].createdAt == cash[k].createdAt && j <= k))
      then (if cash[j].direction.In? then cash[j].amount else -cash[j].amount) else 0
  }

  /** The row passes every filter that is set. */
  ghost predicate Passes(cash: seq<CashTxn>, v: View, k: nat) {
    && k < |cash|
    && (v.box == None || v.box == Some(cash[k].cashbox)) && (v.direction == None || v.direction == Some(cash[k].direction))
    && (v.category == None || v.category == Some(cash[k].category))
    && (v.from == None || v.from.value <= cash[k].createdAt) && (v.to == None || cash[k].createdAt <= v.to.value)
  }

  lemma ShownIff(cash: seq<CashTxn>, v: View, k: nat)
    ensures Shown(cash, v)(k) <==> Passes(cash, v, k)
  {
    assert k < |cash| ==> (InScope(cash, v.box)(k) <==> (v.box.Some? ==> cash[k].cashbox == v.box.value));
    if k < |cash| {
      assert Shown(cash, v)(k) <==>
        && InScope(cash, v.box)(k)
        && (v.direction.Some? ==> cash[k].direction == v.direction.value) && (v.category.Some? ==> cash[k].category == v.category.value)
        && (v.from.Some? ==> cash[k].createdAt >= v.from.value) && (v.to.Some? ==> cash[k].createdAt <= v.to.value);
    }
  }

  /** No filter and no page changes a balance: the rows shown pass the filters, in their order from
      the offset on, a thousand at most, and each carries the balance of its own cashbox over all
      of its live rows so far. */
  lemma RegisterIsTrue(cash: seq<CashTxn>, v: View, order: seq<nat>)
    requires Feed(cash, v, order)
    ensures forall k: nat :: k in order <==> Passes(cash, v, k)
    ensures var page, skip := Register(cash, v, order), if v.offset > 0 then v.offset else 0;
      && |page| <= 1000 && (v.limit == None ==> |page| <= 200) && (v.limit.Some? ==> |page| <= v.limit.value)
      && (|page| < 1000 && (v.limit == None ==> |page| < 200) && (v.limit.Some? ==> |page| < v.limit.value) ==> |page| == 0 || skip + |page| == |order|)
      && forall i :: 0 <= i < |page| ==>
           && skip + i < |order| && page[i].0 == order[skip + i]
           && page[i].1 == Sum(UpToRow(cash, order[skip + i]), Range(0, |cash|))
  {
    hide Shown, Passes, UpToRow, BalanceAfter;
    forall k: nat ensures Shown(cash, v)(k) <==> Passes(cash, v, k) {
      ShownIff(cash, v, k);
    }
    var page, skip := Register(cash, v, order), OffsetOf(v);
    PageIs(order, LimitOf(v), skip);
    forall i | 0 <= i < |page| ensures page[i].1 == Sum(UpToRow(cash, page[i].0), Range(0, |cash|)) {
      var k := page[i].0;
      assert k == order[skip + i] && k in order;
      ShownInScope(cash, v, k);
      BalanceIs(cash, v.box, k);
    }
  }

  lemma ShownInScope(cash: seq<CashTxn>, v: View, k: nat)
    requires Shown(cash, v)(k)
    ensures k < |cash| && InScope(cash, v.box)(k)
  {
  }

  lemma PageIs(rows: seq<nat>, limit: nat, offset: nat)
    ensures var page := Page(rows, limit, offset);
      && |page| <= limit && (|page| < limit ==> |page| == 0 || offset + |page| == |rows|)
      && forall i :: 0 <= i < |page| ==> offset + i < |rows| && page[i] == rows[offset + i]
  {
  }

  lemma BalanceIs(cash: seq<CashTxn>, box: Option<CashboxId>, k: nat)
    requires k < |cash| && InScope(cash, box)(k)
    ensures BalanceAfter(cash, box, k) == Sum(UpToRow(cash, k), Range(0, |cash|))
  {
    SumKeep(Share(cash, k), InScope(cash, box), Range(0, |cash|));
    SumSame(Share(cash, k), UpToRow(cash, k), Range(0, |cash|));
  }

  /** Turning the pages shows every row once: a page and the pages after it are the rest. */
  lemma PagesChain<T>(rows: seq<T>, limit: nat, offset: nat)
    ensures Page(rows, limit, offset) + Page(rows, |rows|, offset + limit) == Page(rows, limit + |rows|, offset)
    ensures Page(rows, |rows|, 0) == rows
  {
  }

  /** Consecutive rows of one cashbox differ by the later one's own movement. */
  lemma BalancesStep(cash: seq<CashTxn>, k: nat, next: nat)
    requires k < |cash| && next < |cash| && cash[k].cashbox == cash[next].cashbox && k != next && Upto(cash, k, next)
    requires forall j :: 0 <= j < |cash| && cash[j].cashbox == cash[k].cashbox && j != next && Upto(cash, j, next) ==> Upto(cash, j, k)
    ensures TrueBalance(cash, next) == TrueBalance(cash, k) + CashIn(cash[k].cashbox, Everything())(cash[next])
  {
    var all := Range(0, |cash|);
    var own: nat -> int := (j: nat) => if j == next then CashIn(cash[k].cashbox, Everything())(cash[next]) else 0;
    SumAdd(Share(cash, next), Share(cash, k), own, all);
    SumOnly(own, all, next);
  }

  lemma {:induction false} SumByPosition(f: CashTxn -> int, g: nat -> int, cash: seq<CashTxn>)
    requires forall j: nat :: j < |cash| ==> g(j) == f(cash[j])
    ensures Sum(g, Range(0, |cash|)) == Sum(f, cash)
  {
    if |cash| > 0 {
      var n := |cash| - 1;
      assert forall j: nat :: j < n ==> g(j) == f(cash[..n][j]);
      SumByPosition(f, g, cash[..n]);
      assert Range(0, |cash|)[..n] == Range(0, n);
    }
  }

  /** The newest row of a cashbox shows what a rebuild of its balance writes. */
  lemma NewestIsRebuilt(db: Db, k: nat)
    requires k < |db.cash| && forall j :: 0 <= j < |db.cash| && db.cash[j].cashbox == db.cash[k].cashbox ==> Upto(db.cash, j, k)
    ensures TrueBalance(db.cash, k) == CashNet(db, db.cash[k].cashbox, Everything())
  {
    SumByPosition(CashIn(db.cash[k].cashbox, Everything()), Share(db.cash, k), db.cash);
  }

  // ----- the unified feed -----

  /** One operation of the feed, from any of its four sources. */
  datatype Op = Op(source: string, at: int, id: nat, net: Cents, reference: string)

  datatype FeedFilter = FeedFilter(from: Option<int>, to: Option<int>, source: Option<string>, text: string)

  predicate NotAfter(a: Op, b: Op) { a.at < b.at || (a.at == b.at && a.id <= b.id) }

  predicate InDates(o: Op, f: FeedFilter) {
    (f.from.Some? ==> o.at >= f.from.value) && (f.to.Some? ==> o.at <= f.to.value)
  }

  /** The filters on type and text; `Mentions` stands for the case-insensitive search. */
  predicate Mentions(o: Op, text: string) { exists i :: 0 <= i <= |o.reference| && text <= o.reference[i..] }

  predicate InKind(o: Op, f: FeedFilter) { (f.source.Some? ==> o.source == f.source.value) && Mentions(o, f.text) }

  function Windowed(f: FeedFilter, r: Op): Op -> int { (o: Op) => if InDates(o, f) && InKind(o, f) && NotAfter(o, r) then o.net else 0 }

  function BeforeFrom(f: FeedFilter): Op -> int { (o: Op) => if f.from.Some? ==> o.at < f.from.value then o.net else 0 }

  /** The `opening` expression: without a from date nothing restricts it. */
  function FeedOpening(ops: seq<Op>, f: FeedFilter): Cents { Sum(BeforeFrom(f), ops) }

  /** `balance_after` in the unified feed. */
  function FeedBalance(ops: seq<Op>, f: FeedFilter, r: Op): Cents { FeedOpening(ops, f) + Sum(Windowed(f, r), ops) }

  /** An operation before another one in time, or at the same time with no greater id. */
  ghost function History(r: Op): Op -> int { (o: Op) => if o.at < r.at || (o.at == r.at && o.id <= r.id) then o.net else 0 }

  ghost function FullPrefix(ops: seq<Op>, r: Op): Cents { Sum(History(r), ops) }

  ghost predicate Within(o: Op, f: FeedFilter) { (f.from == None || f.from.value <= o.at) && (f.to == None || o.at <= f.to.value) }

  /** Operations of the dates, up to the row, that are of another source than the one asked for or
      whose reference does not contain the text. */
  ghost function Hidden(f: FeedFilter, r: Op): Op -> int {
    (o: Op) =>
      if Within(o, f) && (o.at < r.at || (o.at == r.at && o.id <= r.id))
         && ((f.source != None && f.source != Some(o.source)) || forall i :: 0 <= i <= |o.reference| ==> !(f.text <= o.reference[i..]))
      then o.net else 0
  }

  function Net(): Op -> int { (o: Op) => o.net }

  /** With a from date, a shown balance is the full-history balance less what the type and
      text filters hide: with date filters only it is exact. */
  lemma FeedWithFrom(ops: seq<Op>, f: FeedFilter, r: Op)
    requires f.from.Some? && Within(r, f)
    ensures FeedBalance(ops, f, r) == FullPrefix(ops, r) - Sum(Hidden(f, r), ops)
    ensures f.source.None? && f.text == "" ==> FeedBalance(ops, f, r) == FullPrefix(ops, r)
  {
    forall i | 0 <= i < |ops|
      ensures BeforeFrom(f)(ops[i]) + Windowed(f, r)(ops[i]) == History(r)(ops[i]) + Minus(Hidden(f, r))(ops[i])
    {
      assert InDates(ops[i], f) || ops[i].at < f.from.value || ops[i].at > r.at;
    }
    SumPairs(BeforeFrom(f), Windowed(f, r), History(r), Minus(Hidden(f, r)), ops);
    SumMinus(Hidden(f, r), ops);
    if f.source.None? && f.text == "" {
      NothingHidden(ops, f, r);
    }
  }

  lemma NothingHidden(ops: seq<Op>, f: FeedFilter, r: Op)
    requires f.source.None? && f.text == ""
    ensures Sum(Hidden(f, r), ops) == 0
  {
    forall i | 0 <= i < |ops| ensures Hidden(f, r)(ops[i]) == 0 {
      assert f.text <= ops[i].reference[0..];
    }
    SumZero(Hidden(f, r), ops);
  }

  function Minus(f: Op -> int): Op -> int { (o: Op) => -f(o) }

  lemma {:induction false} SumMinus(f: Op -> int, ops: seq<Op>)
    ensures Sum(Minus(f), ops) == -Sum(f, ops)
  {
    if |ops| > 0 {
      SumMinus(f, ops[..|ops| - 1]);
    }
  }

  /** Without a from date the opening is the whole history, so a balance is right exactly when
      the whole history nets to what the type and text filters hide: to nothing, with date
      filters only. */
  lemma FeedWithoutFromIff(ops: seq<Op>, f: FeedFilter, r: Op)
    requires f.from.None? && Within(r, f)
    ensures FeedBalance(ops, f, r) == FullPrefix(ops, r) + Sum(Net(), ops) - Sum(Hidden(f, r), ops)
    ensures FeedBalance(ops, f, r) == FullPrefix(ops, r) <==> Sum(Net(), ops) == Sum(Hidden(f, r), ops)
    ensures f.source.None? && f.text == "" ==> (FeedBalance(ops, f, r) == FullPrefix(ops, r) <==> Sum(Net(), ops) == 0)
  {
    SumSame(BeforeFrom(f), Net(), ops);
    SumAdd(History(r), Windowed(f, r), Hidden(f, r), ops);
    if f.source.None? && f.text == "" {
      NothingHidden(ops, f, r);
    }
  }

  // The feed's first source: the cash rows of the box, void or not, with whatever reference they
  // are looked up under.

  function CashOps(cash: seq<CashTxn>, box: CashboxId, named: CashTxn -> string): seq<Op> {
    if |cash| == 0 then []
    else
      var n := |cash| - 1;
      var t := cash[n];
      if t.cashbox == box then CashOps(cash[..n], box, named) + [Op("cashbox_txn", t.createdAt, n, Signed(t.direction, t.amount), named(t))]
      else CashOps(cash[..n], box, named)
  }

  function VoidedIn(box: CashboxId): CashTxn -> int {
    (t: CashTxn) => if t.isVoid && t.cashbox == box then Signed(t.direction, t.amount) else 0
  }

  /** The operation of a row: its own time, place and signed amount. */
  ghost function OpOf(t: CashTxn, k: nat, named: CashTxn -> string): Op {
    Op("cashbox_txn", t.createdAt, k, if t.direction.In? then t.amount else -t.amount, named(t))
  }

  ghost predicate IsOp(cash: seq<CashTxn>, box: CashboxId, named: CashTxn -> string, o: Op) {
    o.id < |cash| && cash[o.id].cashbox == box && o == OpOf(cash[o.id], o.id, named)
  }

  lemma {:induction false} CashOpsAre(cash: seq<CashTxn>, box: CashboxId, named: CashTxn -> string)
    ensures forall o :: o in CashOps(cash, box, named) <==> IsOp(cash, box, named, o)
    ensures forall i, j :: 0 <= i < j < |CashOps(cash, box, named)| ==> CashOps(cash, box, named)[i].id < CashOps(cash, box, named)[j].id
  {
    if |cash| > 0 {
      var n := |cash| - 1;
      CashOpsAre(cash[..n], box, named);
      var before := CashOps(cash[..n], box, named);
      forall i | 0 <= i < |before| ensures before[i].id < n {
        assert before[i] in before;
      }
      forall o ensures o in before <==> IsOp(cash, box, named, o) && o.id < n {}
    }
  }

  /** The feed still counts voided rows: it has one operation for each row of the box, and together
      they total the ledger plus everything voided. */
  lemma {:induction false} FeedCountsVoids(db: Db, box: CashboxId, named: CashTxn -> string)
    ensures Sum(Net(), CashOps(db.cash, box, named)) == CashNet(db, box, Everything()) + Sum(VoidedIn(box), db.cash)
    decreases |db.cash|
  {
    if |db.cash| > 0 {
      var n := |db.cash| - 1;
      var front := db.(cash := db.cash[..n]);
      FeedCountsVoids(front, box, named);
      var t := db.cash[n];
      if t.cashbox == box {
        SumSnoc(Net(), CashOps(front.cash, box, named), Op("cashbox_txn", t.createdAt, n, Signed(t.direction, t.amount), named(t)));
      }
    }
  }
}
