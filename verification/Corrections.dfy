/**
 Additive corrections of a posted expense: an edit never voids the original entry, it posts
 up to three further ones whose net effect turns the old posting into the new one.
 */
module Corrections {
  import opened Sums
  import opened Ledger
  import opened Alignment
  import opened Engine
  import opened Runs
  import opened Recipes
  import opened Reversal

  /** What the approver passes on: the request, and the old and new accounting fields. */
  datatype CorrectionArgs = CorrectionArgs(
    request: nat, oldAmount: Cents, newAmount: Cents,
    oldCategory: AccountId, newCategory: AccountId,
    oldBox: CashboxId, newBox: CashboxId, today: int, now: int)

  /** `postExpenseAmountDelta`: an increase pays out, a decrease pays back in. */
  function AmountDeltaSpec(a: CorrectionArgs, category: AccountId, box: CashboxId): Spec {
    var delta := a.newAmount - a.oldAmount;
    OneCashLeg("expense_edit_correction", Derived(a.request, "amount_delta"), a.today, "amount delta", a.now,
               ById(category), box, if delta > 0 then Out else In, Abs(delta),
               if delta > 0 then "expense" else "expense_correction")
  }

  /** `postExpenseCashboxCorrection`: a transfer of the whole amount from the new box to the old. */
  function CashboxSwapSpec(a: CorrectionArgs): Spec {
    TransferSpec(Derived(a.request, "cashbox_swap"), a.today, "cashbox correction", a.now, a.newBox, a.oldBox, a.newAmount)
  }

  /** `postExpenseReclassification`: debit the new category, credit the old one. */
  function ReclassifySpec(a: CorrectionArgs): Spec {
    NoCash("expense_edit_correction", Derived(a.request, "reclassify"), a.today, "reclassification", a.now,
           ById(a.newCategory), ById(a.oldCategory), a.newAmount)
  }

  predicate AmountChanged(a: CorrectionArgs) { a.newAmount != a.oldAmount }

  predicate BoxChanged(a: CorrectionArgs) { a.newBox != a.oldBox }

  predicate CategoryChanged(a: CorrectionArgs) { a.newCategory != a.oldCategory }

  /** `applyExpenseEditCorrections`: amount at the old category and box, then the box, then
      the category. */
  function CorrectionSpecs(a: CorrectionArgs): seq<Spec> {
    (if AmountChanged(a) then
       [AmountDeltaSpec(a, if CategoryChanged(a) then a.oldCategory else a.newCategory,
                        if BoxChanged(a) then a.oldBox else a.newBox)]
     else [])
    + (if BoxChanged(a) then [CashboxSwapSpec(a)] else [])
    + (if CategoryChanged(a) then [ReclassifySpec(a)] else [])
  }

  function Calls(specs: seq<Spec>): seq<Call> { Image((s: Spec) => RecordCall(s), specs) }

  // ----- restricting figures to one document -----

  /** References of entries, by raw type. */
  function ScopedNet(account: AccountId, scope: Scope): Entry -> int {
    (e: Entry) => if !e.isVoid && scope(e.refType, e.refId) then Sum(NetOn(account), e.lines) else 0
  }

  /** Net of the live entries in scope on one account. */
  function AccountNetIn(db: Db, account: AccountId, scope: Scope): Cents {
    Sum(ScopedNet(account, scope), db.entries)
  }

  lemma PostedNetIn(db: Db, s: Spec, account: AccountId, scope: Scope) returns (lines: seq<Line>)
    requires Record(db, s).1.Posted?
    requires s.reversalOf.Some? && s.reversalOf.value < |db.entries| ==>
      !scope(db.entries[s.reversalOf.value].refType, db.entries[s.reversalOf.value].refId)
    ensures ResolveAll(db, s.lines) == Some(lines)
    ensures AccountNetIn(Record(db, s).0, account, scope)
         == AccountNetIn(db, account, scope) + if scope(s.refType, s.refId) then Effect(account, lines) else 0
  {
    hide Record, PaySpec, Judge, ValidateSpec, MapToEntityType;
    var paid;
    paid, lines := PostedFacts(db, s);
    ResolveAllFrame(db, paid, s.lines);
    var f, e := ScopedNet(account, scope), NewEntry(s, lines);
    if s.reversalOf.Some? {
      var k := s.reversalOf.value;
      SumSet(f, paid.entries, k, paid.entries[k].(isVoid := true));
    }
    SumSnoc(f, VoidOriginal(paid.entries, s.reversalOf), e);
    SumKeep(NetOn(account), IsNonzero(), lines);
  }

  lemma PostedCashIn(db: Db, s: Spec, box: CashboxId, scope: Scope)
    requires Record(db, s).1.Posted?
    ensures CashNet(Record(db, s).0, box, scope)
         == CashNet(db, box, scope) + if scope(MapToEntityType(s.refType), s.refId) then Sum(MoveOn(box), s.movements) else 0
  {
    hide Record, Judge, ValidateSpec, MapToEntityType;
    var paid, lines := PostedFacts(db, s);
    PayAllNet(db, s.movements, MapToEntityType(s.refType), s.refId, s.now, box, scope);
    assert CashNet(Post(paid, s, lines), box, scope) == CashNet(paid, box, scope);
  }

  // ----- the effect of each recipe -----

  /** What a cash expense does to an account and to a cashbox. */
  function ExpenseOn(category: AccountId, cash: AccountId, amount: Cents, account: AccountId): Cents {
    (if account == category then amount else 0) - (if account == cash then amount else 0)
  }

  function PaidFrom(source: CashboxId, amount: Cents, box: CashboxId): Cents { if box == source then -amount else 0 }

  lemma TwoLineEffect(account: AccountId, a: Line, b: Line)
    ensures Effect(account, [a, b])
         == (if account == a.account then a.debit - a.credit else 0) + (if account == b.account then b.debit - b.credit else 0)
  {
    SumTwo(NetOn(account), a, b);
  }

  /** The resolved lines of a one-cash-leg spec, as an effect. */
  lemma OneCashLegEffect(db: Db, s: Spec, counter: Counterpart, box: CashboxId, amount: Cents, account: AccountId, lines: seq<Line>)
    requires |s.movements| == 1
    requires s == OneCashLeg(s.refType, s.refId, s.date, s.description, s.now, counter, box, s.movements[0].direction, amount, s.movements[0].category)
    requires WellNamed(counter) && box != "" && amount > 0
    requires ResolveAll(db, s.lines) == Some(lines)
    ensures CashboxAccount(db, box).Some? && CounterAccount(db, counter).Some?
    ensures Effect(account, lines) == ExpenseOn(CounterAccount(db, counter).value, CashboxAccount(db, box).value,
                                                if s.movements[0].direction.Out? then amount else -amount, account)
  {
    CounterResolves(db, counter, amount, 0);
    CounterResolves(db, counter, 0, amount);
    CashResolves(db, box, amount, 0);
    CashResolves(db, box, 0, amount);
    TwoLinesResolve(db, s.lines[0], s.lines[1]);
    assert s.lines == [s.lines[0], s.lines[1]];
    TwoLineEffect(account, lines[0], lines[1]);
  }

  lemma TransferEffect(db: Db, s: Spec, source: CashboxId, target: CashboxId, amount: Cents, account: AccountId, lines: seq<Line>)
    requires s == TransferSpec(s.refId, s.date, s.description, s.now, source, target, amount)
    requires source != "" && target != ""
    requires ResolveAll(db, s.lines) == Some(lines)
    ensures CashboxAccount(db, source).Some? && CashboxAccount(db, target).Some?
    ensures Effect(account, lines)
         == (if account == CashboxAccount(db, target).value then amount else 0)
          - (if account == CashboxAccount(db, source).value then amount else 0)
  {
    CashResolves(db, target, amount, 0);
    CashResolves(db, source, 0, amount);
    TwoLinesResolve(db, s.lines[0], s.lines[1]);
    TwoLineEffect(account, lines[0], lines[1]);
  }

  lemma NoCashEffect(db: Db, s: Spec, debit: Counterpart, credit: Counterpart, amount: Cents, account: AccountId, lines: seq<Line>)
    requires s == NoCash(s.refType, s.refId, s.date, s.description, s.now, debit, credit, amount)
    requires WellNamed(debit) && WellNamed(credit)
    requires ResolveAll(db, s.lines) == Some(lines)
    ensures CounterAccount(db, debit).Some? && CounterAccount(db, credit).Some?
    ensures Effect(account, lines) == (if account == CounterAccount(db, debit).value then amount else 0)
                                    - (if account == CounterAccount(db, credit).value then amount else 0)
  {
    CounterResolves(db, debit, amount, 0);
    CounterResolves(db, credit, 0, amount);
    TwoLinesResolve(db, s.lines[0], s.lines[1]);
    TwoLineEffect(account, lines[0], lines[1]);
  }

  lemma OneMove(box: CashboxId, m: Movement)
    ensures Sum(MoveOn(box), [m]) == MoveOn(box)(m)
  {
    SumSnoc(MoveOn(box), [], m);
    assert [] + [m] == [m];
  }

  // ----- the net effect of all corrections -----

  /** No entry is keyed by the request yet. */
  ghost predicate Unused(db: Db, request: nat) {
    forall i :: 0 <= i < |db.entries| && db.entries[i].refId.Derived? ==> db.entries[i].refId.request != request
  }

  /** All of the request's keys are in scope, and no entry is removed from it. */
  ghost predicate Owns(scope: Scope, request: nat) {
    forall t: string, part: string :: scope(t, Derived(request, part))
  }

  ghost predicate OnlyParts(db: Db, request: nat, parts: set<string>) {
    forall i :: 0 <= i < |db.entries| && db.entries[i].refId.Derived? && db.entries[i].refId.request == request ==>
      db.entries[i].refId.component in parts
  }

  /** One correction posts rather than replays, and its effect is that of its lines. */
  lemma CorrectionPosts(db: Db, s: Spec, request: nat, part: string, parts: set<string>)
    requires s.refId == Derived(request, part) && part !in parts && OnlyParts(db, request, parts)
    requires s.reversalOf.None? && Sum(AskedDebit(), s.lines) >= 1
    requires !Record(db, s).1.Rejected?
    ensures Record(db, s).1.Posted?
    ensures OnlyParts(Record(db, s).0, request, parts + {part})
    ensures SameChart(db, Record(db, s).0)
  {
    hide Record;
    var live := FindLive(db.entries, s.refType, s.refId);
    assert live.None?;
    AcceptedPosts(db, s);
    var _ := RecordCases(db, s);
  }

  /** The account a cashbox books to, if it has one. */
  function BookAccount(db: Db, box: CashboxId): AccountId {
    if CashboxAccount(db, box).Some? then CashboxAccount(db, box).value else ""
  }

  lemma SameChartSameAccount(db: Db, d: Db, box: CashboxId)
    requires SameChart(db, d)
    ensures CashboxAccount(d, box) == CashboxAccount(db, box)
  {
  }

  lemma {:induction false} AttemptCat(db: Db, first: seq<Call>, second: seq<Call>)
    ensures Attempt(db, first + second).1 <==> Attempt(db, first).1 && Attempt(Attempt(db, first).0, second).1
    ensures Attempt(db, first + second).1 ==> Attempt(db, first + second).0 == Attempt(Attempt(db, first).0, second).0
  {
    hide Step;
    if |second| == 0 {
      assert first + second == first;
    } else {
      var n := |second| - 1;
      assert (first + second)[..|first| + n] == first + second[..n];
      AttemptCat(db, first, second[..n]);
    }
  }

  lemma AttemptOne(db: Db, s: Spec)
    ensures Attempt(db, Calls([s])) == (Record(db, s).0, !Record(db, s).1.Rejected?)
  {
    assert Calls([s]) == [RecordCall(s)] && Calls([s])[..0] == [];
    hide Record;
    assert Attempt(db, Calls([s])[..0]) == (db, true);
  }

  function When(on: bool, s: Spec): seq<Spec> { if on then [s] else [] }

  lemma CallsCat(first: seq<Spec>, second: seq<Spec>)
    ensures Calls(first + second) == Calls(first) + Calls(second)
  {
  }

  /** Three optional calls, each accepted on the state the one before left. */
  lemma AttemptThree(db: Db, on1: bool, s1: Spec, on2: bool, s2: Spec, on3: bool, s3: Spec) returns (d1: Db, d2: Db, d3: Db)
    requires Attempt(db, Calls(When(on1, s1) + When(on2, s2) + When(on3, s3))).1
    ensures if on1 then d1 == Record(db, s1).0 && !Record(db, s1).1.Rejected? else d1 == db
    ensures if on2 then d2 == Record(d1, s2).0 && !Record(d1, s2).1.Rejected? else d2 == d1
    ensures if on3 then d3 == Record(d2, s3).0 && !Record(d2, s3).1.Rejected? else d3 == d2
    ensures Attempt(db, Calls(When(on1, s1) + When(on2, s2) + When(on3, s3))).0 == d3
  {
    CallsCat(When(on1, s1), When(on2, s2));
    CallsCat(When(on1, s1) + When(on2, s2), When(on3, s3));
    hide *;
    var c1, c2, c3 := Calls(When(on1, s1)), Calls(When(on2, s2)), Calls(When(on3, s3));
    AttemptCat(db, c1 + c2, c3);
    AttemptCat(db, c1, c2);
    d1 := AttemptWhen(db, on1, s1);
    d2 := AttemptWhen(d1, on2, s2);
    d3 := AttemptWhen(d2, on3, s3);
  }

  lemma AttemptWhen(db: Db, on: bool, s: Spec) returns (d: Db)
    ensures Attempt(db, Calls(When(on, s))).0 == d
    ensures on ==> d == Record(db, s).0 && Attempt(db, Calls(When(on, s))).1 == !Record(db, s).1.Rejected?
    ensures !on ==> d == db && Attempt(db, Calls(When(on, s))).1
  {
    hide Record;
    d := Attempt(db, Calls(When(on, s))).0;
    if on {
      AttemptOne(db, s);
    } else {
      assert Calls(When(on, s)) == [];
    }
  }

  /** The named parts of a correction are complete. */
  predicate Complete(a: CorrectionArgs) {
    && a.oldAmount > 0 && a.newAmount > 0
    && a.oldCategory != "" && a.newCategory != "" && a.oldBox != "" && a.newBox != ""
  }

  lemma AskedTwo(s: Spec, x: GlLine, y: GlLine)
    requires s.lines == [x, y]
    ensures Sum(AskedDebit(), s.lines) == x.debit + y.debit
  {
    SumTwo(AskedDebit(), x, y);
  }

  lemma AmountStep(db: Db, a: CorrectionArgs, account: AccountId, box: CashboxId, scope: Scope)
    requires Complete(a) && AmountChanged(a) && Owns(scope, a.request) && OnlyParts(db, a.request, {})
    requires !Record(db, AmountDeltaSpec(a, a.oldCategory, a.oldBox)).1.Rejected?
    ensures var d := Record(db, AmountDeltaSpec(a, a.oldCategory, a.oldBox)).0; var delta := a.newAmount - a.oldAmount;
      && SameChart(db, d) && OnlyParts(d, a.request, {"amount_delta"})
      && AccountNetIn(d, account, scope)
         == AccountNetIn(db, account, scope) + ExpenseOn(a.oldCategory, BookAccount(db, a.oldBox), delta, account)
      && CashNet(d, box, scope) == CashNet(db, box, scope) + PaidFrom(a.oldBox, delta, box)
  {
    hide Record, AccountNetIn, CashNet, OnlyParts, SameChart, CashboxAccount, MapToEntityType, ResolveAll;
    var s := AmountDeltaSpec(a, a.oldCategory, a.oldBox);
    AskedTwo(s, s.lines[0], s.lines[1]);
    CorrectionPosts(db, s, a.request, "amount_delta", {});
    assert {} + {"amount_delta"} == {"amount_delta"};
    var lines := PostedNetIn(db, s, account, scope);
    OneCashLegEffect(db, s, ById(a.oldCategory), a.oldBox, Abs(a.newAmount - a.oldAmount), account, lines);
    PostedCashIn(db, s, box, scope);
    OneMove(box, s.movements[0]);
    assert s.movements == [s.movements[0]];
  }

  lemma SwapStep(db: Db, a: CorrectionArgs, account: AccountId, box: CashboxId, scope: Scope, parts: set<string>)
    requires Complete(a) && BoxChanged(a) && Owns(scope, a.request) && OnlyParts(db, a.request, parts) && "cashbox_swap" !in parts
    requires !Record(db, CashboxSwapSpec(a)).1.Rejected?
    ensures var d := Record(db, CashboxSwapSpec(a)).0;
      && SameChart(db, d) && OnlyParts(d, a.request, parts + {"cashbox_swap"})
      && AccountNetIn(d, account, scope) == AccountNetIn(db, account, scope)
         + (if account == BookAccount(db, a.oldBox) then a.newAmount else 0)
         - (if account == BookAccount(db, a.newBox) then a.newAmount else 0)
      && CashNet(d, box, scope) == CashNet(db, box, scope) + PaidFrom(a.newBox, a.newAmount, box) - PaidFrom(a.oldBox, a.newAmount, box)
  {
    hide Record, AccountNetIn, CashNet, OnlyParts, SameChart, CashboxAccount, MapToEntityType, ResolveAll;
    var s := CashboxSwapSpec(a);
    AskedTwo(s, s.lines[0], s.lines[1]);
    CorrectionPosts(db, s, a.request, "cashbox_swap", parts);
    var lines := PostedNetIn(db, s, account, scope);
    TransferEffect(db, s, a.newBox, a.oldBox, a.newAmount, account, lines);
    PostedCashIn(db, s, box, scope);
    SumTwo(MoveOn(box), s.movements[0], s.movements[1]);
    assert s.movements == [s.movements[0], s.movements[1]];
  }

  lemma ReclassifyStep(db: Db, a: CorrectionArgs, account: AccountId, box: CashboxId, scope: Scope, parts: set<string>)
    requires Complete(a) && CategoryChanged(a) && Owns(scope, a.request) && OnlyParts(db, a.request, parts) && "reclassify" !in parts
    requires !Record(db, ReclassifySpec(a)).1.Rejected?
    ensures var d := Record(db, ReclassifySpec(a)).0;
      && SameChart(db, d) && OnlyParts(d, a.request, parts + {"reclassify"})
      && AccountNetIn(d, account, scope) == AccountNetIn(db, account, scope)
         + (if account == a.newCategory then a.newAmount else 0) - (if account == a.oldCategory then a.newAmount else 0)
      && CashNet(d, box, scope) == CashNet(db, box, scope)
  {
    hide Record, AccountNetIn, CashNet, OnlyParts, SameChart, CashboxAccount, MapToEntityType, ResolveAll;
    var s := ReclassifySpec(a);
    AskedTwo(s, s.lines[0], s.lines[1]);
    CorrectionPosts(db, s, a.request, "reclassify", parts);
    var lines := PostedNetIn(db, s, account, scope);
    NoCashEffect(db, s, ById(a.newCategory), ById(a.oldCategory), a.newAmount, account, lines);
    PostedCashIn(db, s, box, scope);
  }

  lemma SwapThenReclassify(d1: Db, a: CorrectionArgs, account: AccountId, box: CashboxId, scope: Scope, parts: set<string>)
    requires Complete(a) && Owns(scope, a.request) && OnlyParts(d1, a.request, parts) && parts <= {"amount_delta"}
    requires BoxChanged(a) ==> !Record(d1, CashboxSwapSpec(a)).1.Rejected?
    requires var d2 := if BoxChanged(a) then Record(d1, CashboxSwapSpec(a)).0 else d1;
      CategoryChanged(a) ==> !Record(d2, ReclassifySpec(a)).1.Rejected?
    ensures var d2 := if BoxChanged(a) then Record(d1, CashboxSwapSpec(a)).0 else d1;
      var d3 := if CategoryChanged(a) then Record(d2, ReclassifySpec(a)).0 else d2;
      && SameChart(d1, d3)
      && AccountNetIn(d3, account, scope) == AccountNetIn(d1, account, scope)
         + (if account == BookAccount(d1, a.oldBox) then a.newAmount else 0)
         - (if account == BookAccount(d1, a.newBox) then a.newAmount else 0)
         + (if account == a.newCategory then a.newAmount else 0) - (if account == a.oldCategory then a.newAmount else 0)
      && CashNet(d3, box, scope) == CashNet(d1, box, scope) + PaidFrom(a.newBox, a.newAmount, box) - PaidFrom(a.oldBox, a.newAmount, box)
  {
    hide Record, CashboxSwapSpec, ReclassifySpec, AccountNetIn, CashNet, CashboxAccount, Owns;
    assert "cashbox_swap" !in parts by { assert "cashbox_swap"[0] != "amount_delta"[0]; }
    assert "reclassify" !in parts && "reclassify" != "cashbox_swap" by { assert |"reclassify"| == 10; }
    var d2, parts2 := d1, parts;
    if BoxChanged(a) {
      SwapStep(d1, a, account, box, scope, parts);
      d2, parts2 := Record(d1, CashboxSwapSpec(a)).0, parts + {"cashbox_swap"};
    }
    if CategoryChanged(a) {
      ReclassifyStep(d2, a, account, box, scope, parts2);
    }
  }

  lemma SameCharts(a: Db, b: Db, c: Db)
    ensures SameChart(a, a)
    ensures SameChart(a, b) && SameChart(b, c) ==> SameChart(a, c)
  {
  }

  lemma NoParts(db: Db, request: nat)
    requires Unused(db, request)
    ensures OnlyParts(db, request, {})
  {
  }

  /** The state after each of the three corrections, those that are not needed left out. */
  lemma CorrectionStates(db: Db, a: CorrectionArgs) returns (d1: Db, d2: Db, d3: Db)
    requires Attempt(db, Calls(CorrectionSpecs(a))).1
    ensures var s := AmountDeltaSpec(a, a.oldCategory, a.oldBox);
      if AmountChanged(a) then d1 == Record(db, s).0 && !Record(db, s).1.Rejected? else d1 == db
    ensures var s := CashboxSwapSpec(a);
      if BoxChanged(a) then d2 == Record(d1, s).0 && !Record(d1, s).1.Rejected? else d2 == d1
    ensures var s := ReclassifySpec(a);
      if CategoryChanged(a) then d3 == Record(d2, s).0 && !Record(d2, s).1.Rejected? else d3 == d2
    ensures Attempt(db, Calls(CorrectionSpecs(a))).0 == d3
  {
    hide Attempt, Record, AmountDeltaSpec, CashboxSwapSpec, ReclassifySpec, Calls;
    var s1, s2, s3 := AmountDeltaSpec(a, a.oldCategory, a.oldBox), CashboxSwapSpec(a), ReclassifySpec(a);
    assert CorrectionSpecs(a) == When(AmountChanged(a), s1) + When(BoxChanged(a), s2) + When(CategoryChanged(a), s3);
    d1, d2, d3 := AttemptThree(db, AmountChanged(a), s1, BoxChanged(a), s2, CategoryChanged(a), s3);
  }

  /** Whatever mix of amount, cashbox and category an accepted edit changes, its corrections
      take the old posting off and put the new one on, account by account and box by box. */
  lemma CorrectionsNet(db: Db, a: CorrectionArgs, account: AccountId, box: CashboxId, scope: Scope)
    requires Complete(a) && Owns(scope, a.request) && Unused(db, a.request)
    requires Attempt(db, Calls(CorrectionSpecs(a))).1
    ensures var d := Attempt(db, Calls(CorrectionSpecs(a))).0;
      && SameChart(db, d)
      && AccountNetIn(d, account, scope) == AccountNetIn(db, account, scope)
         + ExpenseOn(a.newCategory, BookAccount(db, a.newBox), a.newAmount, account)
         - ExpenseOn(a.oldCategory, BookAccount(db, a.oldBox), a.oldAmount, account)
      && CashNet(d, box, scope) == CashNet(db, box, scope)
         + PaidFrom(a.newBox, a.newAmount, box) - PaidFrom(a.oldBox, a.oldAmount, box)
  {
    hide Attempt, Record, AmountDeltaSpec, CashboxSwapSpec, ReclassifySpec, CorrectionSpecs, AccountNetIn, CashNet, CashboxAccount, Owns, SameChart;
    var d1, d2, d3 := CorrectionStates(db, a);
    NoParts(db, a.request);
    var parts := {};
    if AmountChanged(a) {
      AmountStep(db, a, account, box, scope);
      parts := {"amount_delta"};
    }
    SameCharts(db, d1, d3);
    SameChartSameAccount(db, d1, a.oldBox);
    SameChartSameAccount(db, d1, a.newBox);
    SwapThenReclassify(d1, a, account, box, scope, parts);
  }

  /** What `recordExpense` itself does when it posts a cash expense to a category account. */
  lemma FreshPostingNet(db: Db, a: ExpenseArgs, category: AccountId, account: AccountId, box: CashboxId, scope: Scope)
    requires a.amount > 0 && a.method_ == "cash" && Present(a.cashbox) && !a.isAdvance && a.category == Some(category) && category != ""
    requires Record(db, ExpenseRequest(a).spec).1.Posted?
    requires scope("expense", Document(a.id))
    ensures var d := Record(db, ExpenseRequest(a).spec).0;
      && SameChart(db, d)
      && AccountNetIn(d, account, scope)
         == AccountNetIn(db, account, scope) + ExpenseOn(category, BookAccount(db, a.cashbox.value), a.amount, account)
      && CashNet(d, box, scope) == CashNet(db, box, scope) + PaidFrom(a.cashbox.value, a.amount, box)
  {
    var s := ExpenseRequest(a).spec;
    ExpensesAreExpenses();
    hide Record, MapToEntityType, Judge, ValidateSpec;
    PayAllFrame(db, s.movements, MapToEntityType(s.refType), s.refId, s.now);
    var paid, resolved := PostedFacts(db, s);
    var lines := PostedNetIn(db, s, account, scope);
    OneCashLegEffect(db, s, ById(category), a.cashbox.value, a.amount, account, lines);
    PostedCashIn(db, s, box, scope);
    OneMove(box, s.movements[0]);
    assert s.movements == [s.movements[0]];
  }
}
