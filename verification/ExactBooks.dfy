/**
 Where the two tolerances of the engine bite: runs of exactly balanced calls keep the trial
 balance at zero, and calls without value move cash without an entry.
 */
module ExactBooks {
  import opened Sums
  import opened Ledger
  import opened Alignment
  import opened Engine
  import opened Runs
  import opened Recipes

  // ----- exactly balanced calls -----

  predicate ExactSpec(s: Spec) { Sum(AskedDebit(), s.lines) == Sum(AskedCredit(), s.lines) }

  predicate RunExact(work: seq<seq<Call>>) {
    forall i, j :: 0 <= i < |work| && 0 <= j < |work[i]| && work[i][j].RecordCall? ==> ExactSpec(work[i][j].spec)
  }

  ghost predicate AllEven(entries: seq<Entry>) { forall i :: 0 <= i < |entries| ==> EntryGap(entries[i]) == 0 }

  lemma PostIsEven(db: Db, s: Spec)
    requires AllEven(db.entries) && ExactSpec(s) && Record(db, s).1.Posted?
    ensures AllEven(Record(db, s).0.entries)
  {
    hide Record, PaySpec, Judge, ValidateSpec;
    var paid, lines := PostedFacts(db, s);
    AskedIsResolved(paid, s.lines);
    AskedCreditIsResolved(paid, s.lines);
    SumKeep(Debit(), IsNonzero(), lines);
    SumKeep(Credit(), IsNonzero(), lines);
    var d := Post(paid, s, lines);
    forall i | 0 <= i < |d.entries| ensures EntryGap(d.entries[i]) == 0 {
      if i < |db.entries| {
        assert d.entries[i].lines == db.entries[i].lines && EntryGap(db.entries[i]) == 0;
      }
    }
  }

  lemma StepIsEven(db: Db, c: Call)
    requires AllEven(db.entries) && (c.RecordCall? ==> ExactSpec(c.spec))
    ensures AllEven(Step(db, c).0.entries)
  {
    hide Record;
    if c.RecordCall? {
      if Record(db, c.spec).1.Posted? {
        PostIsEven(db, c.spec);
      } else {
        var _ := RecordCases(db, c.spec);
      }
    }
  }

  lemma {:induction false} AttemptIsEven(db: Db, calls: seq<Call>)
    requires AllEven(db.entries) && forall j :: 0 <= j < |calls| && calls[j].RecordCall? ==> ExactSpec(calls[j].spec)
    ensures AllEven(Attempt(db, calls).0.entries)
  {
    hide Step, ExactSpec;
    if |calls| > 0 {
      AttemptIsEven(db, calls[..|calls| - 1]);
      StepIsEven(Attempt(db, calls[..|calls| - 1]).0, calls[|calls| - 1]);
    }
  }

  /** From empty books, calls whose debits equal their credits keep the trial balance at
      exactly zero, whatever else they do. */
  lemma {:induction false} ExactRunBalances(db: Db, work: seq<seq<Call>>)
    requires Fresh(db) && RunExact(work)
    ensures AllEven(Run(db, work).entries) && TrialBalance(Run(db, work)) == 0
  {
    if |work| > 0 {
      var n := |work| - 1;
      assert RunExact(work[..n]);
      ExactRunBalances(db, work[..n]);
      AttemptIsEven(Run(db, work[..n]), work[n]);
    }
    SumZero(LiveGap(), Run(db, work).entries);
  }

  // ----- the recipes are exact -----

  lemma TwoLinesExact(s: Spec, x: GlLine, y: GlLine)
    requires s.lines == [x, y] && x.debit == y.credit && x.credit == y.debit
    ensures ExactSpec(s)
  {
    SumTwo(AskedDebit(), x, y);
    SumTwo(AskedCredit(), x, y);
  }

  predicate AsksExactly(r: Request) { r.Ask? ==> ExactSpec(r.spec) }

  lemma Exactly(r: Request)
    requires r.Ask? ==> |r.spec.lines| == 2 && r.spec.lines[0].debit == r.spec.lines[1].credit && r.spec.lines[0].credit == r.spec.lines[1].debit
    ensures AsksExactly(r)
  {
    if r.Ask? {
      TwoLinesExact(r.spec, r.spec.lines[0], r.spec.lines[1]);
    }
  }

  // Expense, shift variance, transfer and manual adjustment ask for exactly balanced lines.

  lemma ExpenseIsExact(e: ExpenseArgs)
    ensures AsksExactly(ExpenseRequest(e))
  {
    Exactly(ExpenseRequest(e));
  }

  lemma VarianceIsExact(v: VarianceArgs)
    ensures AsksExactly(VarianceRequest(v))
  {
    Exactly(VarianceRequest(v));
  }

  lemma TransferIsExact(id: RefId, source: CashboxId, target: CashboxId, amount: Cents, date: int, notes: Option<string>, now: int)
    ensures AsksExactly(TransferRequest(id, source, target, amount, date, notes, now))
  {
    Exactly(TransferRequest(id, source, target, amount, date, notes, now));
  }

  lemma ManualIsExact(id: string, box: CashboxId, direction: Direction, amount: Cents, date: int, notes: Option<string>, now: int)
    ensures AsksExactly(ManualRequest(id, box, direction, amount, date, notes, now))
  {
    Exactly(ManualRequest(id, box, direction, amount, date, notes, now));
  }

  /** The opening recipe is exact precisely when capital is left out or is the difference of
      the (non-negative) figures given. */
  lemma OpeningExactIff(a: OpeningArgs)
    requires a.cash >= 0 && a.dues >= 0 && a.stock >= 0 && a.assets >= 0 && a.suppliers >= 0
    requires a.cash > 0 ==> Present(a.cashbox)
    ensures AsksExactly(OpeningRequest(a))
       <==> a.capital.None? || a.capital.value == a.cash + a.dues + a.stock + a.assets - a.suppliers
  {
    OpeningSums(a);
  }

  // ----- runs of recipes -----

  datatype Recipe =
    | Expense(e: ExpenseArgs)
    | Variance(v: VarianceArgs)
    | Transfer(id: RefId, source: CashboxId, target: CashboxId, amount: Cents, date: int, notes: Option<string>, now: int)
    | Manual(key: string, box: CashboxId, direction: Direction, moved: Cents, day: int, note: Option<string>, at: int)
    | Opening(o: OpeningArgs)

  function Asked(r: Recipe): Request {
    match r
    case Expense(e) => ExpenseRequest(e)
    case Variance(v) => VarianceRequest(v)
    case Transfer(id, source, target, amount, date, notes, now) => TransferRequest(id, source, target, amount, date, notes, now)
    case Manual(key, box, direction, moved, day, note, at) => ManualRequest(key, box, direction, moved, day, note, at)
    case Opening(o) => OpeningRequest(o)
  }

  /** Capital, if an opening gives it, is the difference of its figures, none of them negative. */
  predicate MatchedCapital(r: Recipe) {
    r.Opening? ==>
      && r.o.cash >= 0 && r.o.dues >= 0 && r.o.stock >= 0 && r.o.assets >= 0 && r.o.suppliers >= 0
      && (r.o.capital.None? || r.o.capital.value == r.o.cash + r.o.dues + r.o.stock + r.o.assets - r.o.suppliers)
  }

  /** What a recipe does: its posting, or nothing where it refuses or has nothing to ask. */
  function CallsOf(recipes: seq<Recipe>): seq<Call> {
    if |recipes| == 0 then []
    else
      var n := |recipes| - 1;
      CallsOf(recipes[..n]) + if Asked(recipes[n]).Ask? then [RecordCall(Asked(recipes[n]).spec)] else []
  }

  function WorkOf(runs: seq<seq<Recipe>>): seq<seq<Call>> {
    if |runs| == 0 then [] else WorkOf(runs[..|runs| - 1]) + [CallsOf(runs[|runs| - 1])]
  }

  lemma RecipeIsExact(r: Recipe)
    requires MatchedCapital(r)
    ensures AsksExactly(Asked(r))
  {
    match r
    case Expense(e) => ExpenseIsExact(e);
    case Variance(v) => VarianceIsExact(v);
    case Transfer(id, source, target, amount, date, notes, now) => TransferIsExact(id, source, target, amount, date, notes, now);
    case Manual(key, box, direction, moved, day, note, at) => ManualIsExact(key, box, direction, moved, day, note, at);
    case Opening(o) =>
      if Asked(r).Ask? {
        OpeningExactIff(o);
      }
  }

  lemma {:induction false} CallsAreExact(recipes: seq<Recipe>)
    requires forall i :: 0 <= i < |recipes| ==> MatchedCapital(recipes[i])
    ensures forall j :: 0 <= j < |CallsOf(recipes)| ==> CallsOf(recipes)[j].RecordCall? && ExactSpec(CallsOf(recipes)[j].spec)
  {
    if |recipes| > 0 {
      hide Asked, ExactSpec, MatchedCapital;
      CallsAreExact(recipes[..|recipes| - 1]);
      RecipeIsExact(recipes[|recipes| - 1]);
    }
  }

  lemma {:induction false} WorkIsExact(runs: seq<seq<Recipe>>)
    requires forall i, j :: 0 <= i < |runs| && 0 <= j < |runs[i]| ==> MatchedCapital(runs[i][j])
    ensures RunExact(WorkOf(runs))
  {
    if |runs| > 0 {
      hide ExactSpec, MatchedCapital;
      WorkIsExact(runs[..|runs| - 1]);
      CallsAreExact(runs[|runs| - 1]);
    }
  }

  /** A business that books by the recipes alone, and gives an opening no capital but the matching
      one, has a trial balance of exactly zero at all times. */
  lemma RecipeRunBalances(db: Db, runs: seq<seq<Recipe>>)
    requires Fresh(db) && forall i, j :: 0 <= i < |runs| && 0 <= j < |runs[i]| ==> MatchedCapital(runs[i][j])
    ensures TrialBalance(Run(db, WorkOf(runs))) == 0
  {
    WorkIsExact(runs);
    ExactRunBalances(db, WorkOf(runs));
  }

  // ----- calls without value -----

  /** A call whose lines total less than a cent of debits: what a caller can check of it. */
  ghost predicate WouldLeak(db: Db, s: Spec) {
    && ValidateSpec(s).None? && !db.locked
    && (forall i :: 0 <= i < |db.entries| ==> !Claims(db.entries[i], s.refType, s.refId))
    && (forall i :: 0 <= i < |s.movements| ==> s.movements[i].cashbox in db.boxes)
    && ResolveAll(db, s.lines).Some?
    && Sum(AskedDebit(), s.lines) < 1 && Abs(Sum(AskedDebit(), s.lines) - Sum(AskedCredit(), s.lines)) <= 1
  }

  /** Exactly such a call succeeds without an entry, after its cash has moved and before the
      alignment guard: the drift of every cashbox shifts by all that it moved. */
  lemma ZeroValueMovesCash(db: Db, s: Spec, box: CashboxId)
    ensures Record(db, s).1.ZeroValue? <==> WouldLeak(db, s)
    ensures WouldLeak(db, s) ==>
      && Record(db, s).0.entries == db.entries
      && Drift(Record(db, s).0, box) == Drift(db, box) + Sum(MoveOn(box), s.movements)
  {
    var paid := PaySpec(db, s).0;
    PayAllFrame(db, s.movements, MapToEntityType(s.refType), s.refId, s.now);
    ResolveAllFrame(db, paid, s.lines);
    if ResolveAll(db, s.lines).Some? {
      AskedIsResolved(db, s.lines);
      AskedCreditIsResolved(db, s.lines);
    }
    if WouldLeak(db, s) {
      PayAllNet(db, s.movements, MapToEntityType(s.refType), s.refId, s.now, box, Everything());
    }
  }
}
