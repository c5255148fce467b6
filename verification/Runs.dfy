/**
 What every run of the engine keeps: balances equal to the cash ledger, at most one live
 entry per document, a bounded trial balance, and the drift identity between cash rows
 and journal.
 */
module Runs {
  import opened Sums
  import opened Ledger
  import opened Alignment
  import opened Engine

  // ----- frames -----

  /** Moving cash touches only cash rows and balances. */
  predicate SameBooks(db: Db, d: Db) {
    && d.accounts == db.accounts && d.entries == db.entries && d.locked == db.locked
    && d.boxes.Keys == db.boxes.Keys
    && forall b :: b in db.boxes ==> d.boxes[b].kind == db.boxes[b].kind
  }

  lemma {:induction false} PayAllFrame(db: Db, moves: seq<Movement>, entity: string, refId: RefId, now: int)
    ensures SameBooks(db, PayAll(db, moves, entity, refId, now).0)
    ensures PayAll(db, moves, entity, refId, now).1 ==> |PayAll(db, moves, entity, refId, now).0.cash| == |db.cash| + |moves|
  {
    if |moves| > 0 {
      PayAllFrame(db, moves[..|moves| - 1], entity, refId, now);
    }
  }

  /** Entries are only ever appended, or flagged void in place. */
  ghost predicate Extends(older: seq<Entry>, newer: seq<Entry>) {
    && |older| <= |newer|
    && forall i :: 0 <= i < |older| ==>
         newer[i] == older[i] || newer[i] == older[i].(isVoid := true)
  }

  lemma StepExtends(db: Db, c: Call)
    ensures Extends(db.entries, Step(db, c).0.entries)
    ensures Step(db, c).0.accounts == db.accounts && Step(db, c).0.locked == db.locked
    ensures Step(db, c).0.boxes.Keys == db.boxes.Keys
  {
    match c
    case RecordCall(s) =>
      hide Record;
      var _ := RecordCases(db, s);
    case CashOnlyCall(_, _, _, _) =>
  }

  lemma {:induction false} AttemptExtends(db: Db, calls: seq<Call>)
    ensures Extends(db.entries, Attempt(db, calls).0.entries)
    ensures Attempt(db, calls).0.accounts == db.accounts && Attempt(db, calls).0.locked == db.locked
    ensures Attempt(db, calls).0.boxes.Keys == db.boxes.Keys
  {
    if |calls| > 0 {
      var n := |calls| - 1;
      AttemptExtends(db, calls[..n]);
      StepExtends(Attempt(db, calls[..n]).0, calls[n]);
    }
  }

  lemma {:induction false} RunExtends(db: Db, work: seq<seq<Call>>)
    ensures Extends(db.entries, Run(db, work).entries)
    ensures Run(db, work).accounts == db.accounts && Run(db, work).locked == db.locked
    ensures Run(db, work).boxes.Keys == db.boxes.Keys
  {
    if |work| > 0 {
      var n := |work| - 1;
      RunExtends(db, work[..n]);
      AttemptExtends(Run(db, work[..n]), work[n]);
    }
  }

  // ----- the invariant -----

  ghost predicate BalancesTrue(db: Db) {
    forall b :: b in db.boxes ==> db.boxes[b].balance == CashNet(db, b, Everything())
  }

  ghost predicate CashSane(db: Db) {
    forall i :: 0 <= i < |db.cash| ==>
      && db.cash[i].cashbox in db.boxes && db.cash[i].amount > 0 && !db.cash[i].isVoid
      && db.cash[i].entity in ENTITY_TYPES
  }

  ghost predicate OneLivePerDocument(entries: seq<Entry>) {
    forall i, j :: 0 <= i < j < |entries| && !entries[i].isVoid && !entries[j].isVoid ==>
      !(entries[i].refType == entries[j].refType && entries[i].refId == entries[j].refId)
  }

  /** The check constraints, foreign keys and employee tag of a written line. */
  ghost predicate LineSane(accounts: seq<Account>, boxes: set<CashboxId>, l: Line) {
    && ((l.debit > 0 && l.credit == 0) || (l.credit > 0 && l.debit == 0))
    && LineKeys(accounts, boxes, l)
  }

  ghost predicate EntrySane(accounts: seq<Account>, boxes: set<CashboxId>, e: Entry) {
    && (forall i :: 0 <= i < |e.lines| ==> LineSane(accounts, boxes, e.lines[i]))
    && -1 <= EntryGap(e) <= 1
    && Sum(Debit(), e.lines) >= 1
  }

  ghost predicate EntriesSane(db: Db) {
    forall i :: 0 <= i < |db.entries| ==> EntrySane(db.accounts, db.boxes.Keys, db.entries[i])
  }

  /** An entry is void exactly when a later entry reverses it. */
  ghost predicate VoidsAreReversals(entries: seq<Entry>) {
    && (forall j :: 0 <= j < |entries| && entries[j].reversalOf.Some? ==>
          entries[j].reversalOf.value < j && entries[entries[j].reversalOf.value].isVoid)
    && (forall i :: 0 <= i < |entries| && entries[i].isVoid ==>
          exists j :: i < j < |entries| && entries[j].reversalOf == Some(i))
  }

  ghost predicate Inv(db: Db) {
    && BalancesTrue(db) && CashSane(db) && OneLivePerDocument(db.entries)
    && EntriesSane(db) && VoidsAreReversals(db.entries)
  }

  lemma PayNet(db: Db, m: Movement, entity: string, refId: RefId, now: int, box: CashboxId, scope: Scope)
    requires m.cashbox in db.boxes
    ensures CashNet(Pay(db, m, entity, refId, now), box, scope)
         == CashNet(db, box, scope) + if scope(entity, refId) then MoveOn(box)(m) else 0
  {
    var d := Pay(db, m, entity, refId, now);
    SumSnoc(CashIn(box, scope), db.cash, d.cash[|db.cash|]);
  }

  lemma PayKeeps(db: Db, m: Movement, entity: string, refId: RefId, now: int)
    requires BalancesTrue(db) && CashSane(db) && m.cashbox in db.boxes && m.amount > 0 && entity in ENTITY_TYPES
    ensures BalancesTrue(Pay(db, m, entity, refId, now)) && CashSane(Pay(db, m, entity, refId, now))
  {
    var d := Pay(db, m, entity, refId, now);
    forall b | b in d.boxes ensures d.boxes[b].balance == CashNet(d, b, Everything()) {
      PayNet(db, m, entity, refId, now, b, Everything());
    }
  }

  lemma {:induction false} PayAllNet(db: Db, moves: seq<Movement>, entity: string, refId: RefId, now: int, box: CashboxId, scope: Scope)
    requires PayAll(db, moves, entity, refId, now).1
    ensures CashNet(PayAll(db, moves, entity, refId, now).0, box, scope)
         == CashNet(db, box, scope) + if scope(entity, refId) then Sum(MoveOn(box), moves) else 0
  {
    if |moves| > 0 {
      var n := |moves| - 1;
      PayAllNet(db, moves[..n], entity, refId, now, box, scope);
      PayNet(PayAll(db, moves[..n], entity, refId, now).0, moves[n], entity, refId, now, box, scope);
    }
  }

  lemma {:induction false} PayAllKeeps(db: Db, moves: seq<Movement>, entity: string, refId: RefId, now: int)
    requires BalancesTrue(db) && CashSane(db) && entity in ENTITY_TYPES
    requires forall i :: 0 <= i < |moves| ==> moves[i].amount > 0
    ensures BalancesTrue(PayAll(db, moves, entity, refId, now).0) && CashSane(PayAll(db, moves, entity, refId, now).0)
  {
    if |moves| > 0 {
      var n := |moves| - 1;
      PayAllKeeps(db, moves[..n], entity, refId, now);
      var (front, ok) := PayAll(db, moves[..n], entity, refId, now);
      if ok && moves[n].cashbox in front.boxes {
        PayKeeps(front, moves[n], entity, refId, now);
      }
    }
  }

  /** What acceptance of a call tells: the state once its cash moved, and its resolved lines. */
  lemma PostedFacts(db: Db, s: Spec) returns (paid: Db, lines: seq<Line>)
    requires Record(db, s).1.Posted?
    ensures ValidateSpec(s).None? && !db.locked && FindLive(db.entries, s.refType, s.refId).None?
    ensures PaySpec(db, s) == (paid, true) && SameBooks(db, paid)
    ensures ResolveAll(paid, s.lines) == Some(lines)
    ensures Record(db, s) == (Post(paid, s, lines), Posted(|db.entries|, Range(|db.cash|, |s.movements|)))
    ensures Abs(Sum(Debit(), lines) - Sum(Credit(), lines)) <= 1 && Sum(Debit(), lines) >= 1
    ensures Passes(Judge(db.accounts, lines, s.movements, s.accountingOnly))
    ensures KeysExist(paid, s.reversalOf, Kept(lines))
  {
    hide MapToEntityType, ValidateSpec, Judge, LineKeys, Post, FindLive, Resolve;
    PayAllFrame(db, s.movements, MapToEntityType(s.refType), s.refId, s.now);
    paid := PaySpec(db, s).0;
    lines := ResolveAll(paid, s.lines).value;
  }

  /** The tables after a call are the old ones, those with the cash moved, or those with the
      entry written as well. */
  lemma RecordCases(db: Db, s: Spec) returns (lines: seq<Line>)
    ensures var (d, o) := Record(db, s); var paid := PaySpec(db, s).0;
      SameBooks(db, paid) && if o.Posted? then d == Post(paid, s, lines) else d == db || d == paid
  {
    PayAllFrame(db, s.movements, MapToEntityType(s.refType), s.refId, s.now);
    lines := [];
    hide Judge, ValidateSpec, MapToEntityType;
    if Record(db, s).1.Posted? {
      lines := ResolveAll(PaySpec(db, s).0, s.lines).value;
    }
  }

  lemma ResolvedLineSane(paid: Db, g: GlLine, l: Line)
    requires LineError(g).None? && Resolve(paid, g) == Some(l)
    requires l.debit != 0 || l.credit != 0
    requires LineKeys(paid.accounts, paid.boxes.Keys, l)
    ensures LineSane(paid.accounts, paid.boxes.Keys, l)
  {
  }

  lemma NewEntrySane(paid: Db, s: Spec, lines: seq<Line>)
    requires FirstLineError(s.lines).None?
    requires ResolveAll(paid, s.lines) == Some(lines)
    requires Abs(Sum(Debit(), lines) - Sum(Credit(), lines)) <= 1 && Sum(Debit(), lines) >= 1
    requires KeysExist(paid, s.reversalOf, Kept(lines))
    ensures EntrySane(paid.accounts, paid.boxes.Keys, NewEntry(s, lines))
    ensures EntryGap(NewEntry(s, lines)) == Sum(Debit(), lines) - Sum(Credit(), lines)
  {
    hide LineError, Sum, Resolve, LineSane, LineKeys;
    SumKeep(Debit(), IsNonzero(), lines);
    SumKeep(Credit(), IsNonzero(), lines);
    var kept := Kept(lines);
    forall i | 0 <= i < |kept| ensures LineSane(paid.accounts, paid.boxes.Keys, kept[i]) {
      assert kept[i] in kept;
      assert IsNonzero()(kept[i]);
      var k :| 0 <= k < |lines| && lines[k] == kept[i];
      ResolvedLineSane(paid, s.lines[k], kept[i]);
    }
  }

  lemma PostKeepsVoids(paid: Db, s: Spec, lines: seq<Line>)
    requires VoidsAreReversals(paid.entries)
    requires s.reversalOf.Some? ==> s.reversalOf.value < |paid.entries|
    ensures VoidsAreReversals(Post(paid, s, lines).entries)
  {
    var e, e' := paid.entries, Post(paid, s, lines).entries;
    var n := |e|;
    forall i | 0 <= i < |e'| && e'[i].isVoid
      ensures exists j :: i < j < |e'| && e'[j].reversalOf == Some(i)
    {
      assert i < n;
      if e[i].isVoid {
        var j :| i < j < n && e[j].reversalOf == Some(i);
        assert e'[j].reversalOf == Some(i);
      } else {
        assert e'[n].reversalOf == Some(i);
      }
    }
    forall j | 0 <= j < |e'| && e'[j].reversalOf.Some?
      ensures e'[j].reversalOf.value < j && e'[e'[j].reversalOf.value].isVoid
    {
      if j < n { assert e[j].reversalOf == e'[j].reversalOf; }
    }
  }

  lemma PostKeepsUnique(paid: Db, s: Spec, lines: seq<Line>)
    requires OneLivePerDocument(paid.entries)
    requires FindLive(paid.entries, s.refType, s.refId).None?
    ensures OneLivePerDocument(Post(paid, s, lines).entries)
  {
    var e, e' := paid.entries, Post(paid, s, lines).entries;
    forall i, j | 0 <= i < j < |e'| && !e'[i].isVoid && !e'[j].isVoid
      ensures !(e'[i].refType == e'[j].refType && e'[i].refId == e'[j].refId)
    {
      assert !e[i].isVoid && e'[i] == e[i];
      if j < |e| {
        assert !e[j].isVoid && e'[j] == e[j];
      } else {
        assert !Claims(e[i], s.refType, s.refId);
      }
    }
  }

  lemma PostKeepsSane(paid: Db, s: Spec, lines: seq<Line>)
    requires EntriesSane(paid)
    requires EntrySane(paid.accounts, paid.boxes.Keys, NewEntry(s, lines))
    ensures EntriesSane(Post(paid, s, lines))
  {
    var d := Post(paid, s, lines);
    forall i | 0 <= i < |d.entries| ensures EntrySane(d.accounts, d.boxes.Keys, d.entries[i]) {
      if i < |paid.entries| {
        assert EntrySane(paid.accounts, paid.boxes.Keys, paid.entries[i]);
        assert d.entries[i].lines == paid.entries[i].lines;
      }
    }
  }

  lemma RecordPaysSafely(db: Db, s: Spec)
    requires Inv(db) && ValidateSpec(s).None?
    ensures Inv(PaySpec(db, s).0)
  {
    EntityTypesClosed(s.refType);
    PayAllFrame(db, s.movements, MapToEntityType(s.refType), s.refId, s.now);
    forall i | 0 <= i < |s.movements| ensures s.movements[i].amount > 0 {
      assert MovementError(s.movements[i]).None?;
    }
    PayAllKeeps(db, s.movements, MapToEntityType(s.refType), s.refId, s.now);
  }

  lemma PostKeeps(paid: Db, s: Spec, lines: seq<Line>)
    requires Inv(paid) && ValidateSpec(s).None?
    requires FindLive(paid.entries, s.refType, s.refId).None?
    requires ResolveAll(paid, s.lines) == Some(lines)
    requires Abs(Sum(Debit(), lines) - Sum(Credit(), lines)) <= 1 && Sum(Debit(), lines) >= 1
    requires KeysExist(paid, s.reversalOf, Kept(lines))
    ensures Inv(Post(paid, s, lines))
  {
    NewEntrySane(paid, s, lines);
    PostKeepsVoids(paid, s, lines);
    PostKeepsUnique(paid, s, lines);
    PostKeepsSane(paid, s, lines);
    var d := Post(paid, s, lines);
    assert BalancesTrue(d) by {
      forall b | b in d.boxes ensures d.boxes[b].balance == CashNet(d, b, Everything()) {
        assert CashNet(d, b, Everything()) == CashNet(paid, b, Everything());
      }
    }
  }

  lemma RecordKeeps(db: Db, s: Spec)
    requires Inv(db)
    ensures Inv(Record(db, s).0)
  {
    if ValidateSpec(s).None? && !db.locked && FindLive(db.entries, s.refType, s.refId).None? {
      RecordPaysSafely(db, s);
      if Record(db, s).1.Posted? {
        var paid, lines := PostedFacts(db, s);
        PostKeeps(paid, s, lines);
      }
    }
  }

  lemma StepKeeps(db: Db, c: Call)
    requires Inv(db)
    ensures Inv(Step(db, c).0)
  {
    match c
    case CashOnlyCall(m, t, id, now) =>
      EntityTypesClosed(t);
      if m.amount > 0 && m.cashbox in db.boxes {
        PayKeeps(db, m, MapToEntityType(t), id, now);
      }
    case RecordCall(s) => RecordKeeps(db, s);
  }

  lemma {:induction false} AttemptKeeps(db: Db, calls: seq<Call>)
    requires Inv(db)
    ensures Inv(Attempt(db, calls).0)
  {
    if |calls| > 0 {
      AttemptKeeps(db, calls[..|calls| - 1]);
      StepKeeps(Attempt(db, calls[..|calls| - 1]).0, calls[|calls| - 1]);
    }
  }

  /** Every state a run reaches satisfies the invariant. */
  lemma {:induction false} RunKeeps(db: Db, work: seq<seq<Call>>)
    requires Inv(db)
    ensures Inv(Run(db, work))
  {
    if |work| > 0 {
      RunKeeps(db, work[..|work| - 1]);
      AttemptKeeps(Run(db, work[..|work| - 1]), work[|work| - 1]);
    }
  }

  predicate Fresh(db: Db) { |db.cash| == 0 && |db.entries| == 0 }

  /** Runs start from empty books with every cashbox at zero. */
  predicate Start(db: Db) { Fresh(db) && forall b :: b in db.boxes ==> db.boxes[b].balance == 0 }

  lemma ReachableKeeps(db: Db, work: seq<seq<Call>>)
    requires Start(db)
    ensures Inv(Run(db, work))
  {
    RunKeeps(db, work);
  }

  // ----- idempotency over whole runs -----

  lemma FindLiveIs(entries: seq<Entry>, e: nat, refType: string, refId: RefId)
    requires OneLivePerDocument(entries) && e < |entries| && Claims(entries[e], refType, refId)
    ensures FindLive(entries, refType, refId) == Some(e)
  {
    var live := FindLive(entries, refType, refId);
    assert live.Some? && Claims(entries[live.value], refType, refId);
  }

  lemma ReplayChangesNothing(db: Db, s: Spec)
    requires Record(db, s).1.Replayed?
    ensures Transact(db, [RecordCall(s)]) == db
  {
    var calls := [RecordCall(s)];
    assert calls[..0] == [];
    assert Attempt(db, calls[..0]) == (db, true);
  }

  /** Once posted and not voided, a call replays forever: whatever ran in between, issuing
      it again returns the original entry and leaves every table as it was. */
  lemma PostedOnce(db: Db, s: Spec, work: seq<seq<Call>>)
    requires Inv(db) && Record(db, s).1.Posted?
    ensures var e, later := Record(db, s).1.entry, Run(Record(db, s).0, work);
      && e < |later.entries|
      && (!later.entries[e].isVoid ==>
            Record(later, s).1 == Replayed(e) && Transact(later, [RecordCall(s)]) == later)
  {
    var d, e := Record(db, s).0, Record(db, s).1.entry;
    var later := Run(d, work);
    PostedClaims(db, s);
    RunKeeps(d, work);
    RunExtends(d, work);
    hide Record, Inv, Judge, PaySpec, Run, Transact;
    if !later.entries[e].isVoid {
      ReplaysIfLive(db, later, s, e);
    }
  }

  lemma PostedClaims(db: Db, s: Spec)
    requires Inv(db) && Record(db, s).1.Posted?
    ensures var d, e := Record(db, s).0, Record(db, s).1.entry;
      Inv(d) && e < |d.entries| && d.entries[e].refType == s.refType && d.entries[e].refId == s.refId
    ensures ValidateSpec(s).None? && Record(db, s).0.locked == db.locked == false
  {
    RecordKeeps(db, s);
    hide Record, Inv, Judge, PaySpec;
    var paid, lines := PostedFacts(db, s);
    assert Post(paid, s, lines).entries[|paid.entries|] == NewEntry(s, lines);
  }

  lemma ReplaysIfLive(db: Db, later: Db, s: Spec, e: nat)
    requires Inv(later) && e < |later.entries| && Claims(later.entries[e], s.refType, s.refId)
    requires ValidateSpec(s).None? && !later.locked
    ensures Record(later, s).1 == Replayed(e) && Transact(later, [RecordCall(s)]) == later
  {
    FindLiveIs(later.entries, e, s.refType, s.refId);
    assert Record(later, s) == (later, Replayed(e));
    hide Record;
    ReplayChangesNothing(later, s);
  }

  // ----- trial balance -----

  /** Over any run the books are out of balance by at most a cent per live entry. */
  lemma TrialBalanceBounded(db: Db)
    requires Inv(db)
    ensures -Sum(LiveCount(), db.entries) <= TrialBalance(db) <= Sum(LiveCount(), db.entries)
  {
    SumBounded(LiveGap(), LiveCount(), db.entries);
  }

  // ----- the drift identity -----

  /** Cash rows less the legs of all entries, live or void. */
  function Gap(db: Db, box: CashboxId, scope: Scope): Cents {
    CashNet(db, box, scope) - LegNet(db, box, Any, scope)
  }

  /** Cash a call moves without booking it, or books without moving it. */
  function Leak(db: Db, c: Call, box: CashboxId, scope: Scope): Cents {
    var (d, o) := Step(db, c);
    match c
    case RecordCall(s) =>
      if !scope(MapToEntityType(s.refType), s.refId) then 0
      else if o.Posted? && s.accountingOnly && |d.entries| > 0 then
        Sum(MoveOn(box), s.movements) - EntryLeg(d.accounts, box, d.entries[|d.entries| - 1])
      else if o.ZeroValue? then Sum(MoveOn(box), s.movements)
      else 0
    case CashOnlyCall(m, t, id, _) =>
      if o.Moved? && scope(MapToEntityType(t), id) then MoveOn(box)(m) else 0
  }

  function AttemptLeak(db: Db, calls: seq<Call>, box: CashboxId, scope: Scope): Cents {
    if |calls| == 0 then 0
    else
      var n := |calls| - 1;
      AttemptLeak(db, calls[..n], box, scope) + Leak(Attempt(db, calls[..n]).0, calls[n], box, scope)
  }

  /** Leaks of the committed transactions of a run. */
  function RunLeak(db: Db, work: seq<seq<Call>>, box: CashboxId, scope: Scope): Cents {
    if |work| == 0 then 0
    else
      var n := |work| - 1;
      var before := Run(db, work[..n]);
      RunLeak(db, work[..n], box, scope)
      + if Attempt(before, work[n]).1 then AttemptLeak(before, work[n], box, scope) else 0
  }

  lemma VoidingKeepsAnyLegs(accounts: seq<Account>, entries: seq<Entry>, original: Option<nat>, box: CashboxId, scope: Scope)
    ensures Sum(LegsOf(accounts, box, Any, scope), VoidOriginal(entries, original)) == Sum(LegsOf(accounts, box, Any, scope), entries)
  {
    if original.Some? && original.value < |entries| {
      var e := entries[original.value];
      var f, e' := LegsOf(accounts, box, Any, scope), e.(isVoid := true);
      SumSet(f, entries, original.value, e');
      assert Counts(Any, e) && Counts(Any, e');
      assert EntryLeg(accounts, box, e) == EntryLeg(accounts, box, e');
    }
  }

  lemma KeptLeg(accounts: seq<Account>, box: CashboxId, lines: seq<Line>)
    ensures Sum(LegOn(accounts, box), Kept(lines)) == Sum(LegOn(accounts, box), lines)
  {
    SumKeep(LegOn(accounts, box), IsNonzero(), lines);
  }

  lemma RecordGap(db: Db, s: Spec, box: CashboxId, scope: Scope)
    requires !Record(db, s).1.Rejected?
    ensures Gap(Record(db, s).0, box, scope) == Gap(db, box, scope) + Leak(db, RecordCall(s), box, scope)
  {
    hide Judge, ValidateSpec, MapToEntityType, FindLive;
    var (d, o) := Record(db, s);
    if !o.Replayed? {
      PayAllFrame(db, s.movements, MapToEntityType(s.refType), s.refId, s.now);
      PayAllNet(db, s.movements, MapToEntityType(s.refType), s.refId, s.now, box, scope);
      if o.Posted? {
        PostedGap(db, s, box, scope);
      }
    }
  }

  lemma PostedGap(db: Db, s: Spec, box: CashboxId, scope: Scope)
    requires Record(db, s).1.Posted?
    ensures Gap(Record(db, s).0, box, scope) == Gap(db, box, scope) + Leak(db, RecordCall(s), box, scope)
  {
    hide Judge, ValidateSpec, MapToEntityType;
    var paid, lines := PostedFacts(db, s);
    var d, e := Post(paid, s, lines), NewEntry(s, lines);
    PayAllNet(db, s.movements, MapToEntityType(s.refType), s.refId, s.now, box, scope);
    VoidingKeepsAnyLegs(db.accounts, paid.entries, s.reversalOf, box, scope);
    SumSnoc(LegsOf(db.accounts, box, Any, scope), VoidOriginal(paid.entries, s.reversalOf), e);
    KeptLeg(db.accounts, box, lines);
    assert d.entries[|d.entries| - 1] == e;
    assert CashNet(d, box, scope) == CashNet(paid, box, scope);
    assert LegsOf(db.accounts, box, Any, scope)(e)
        == if scope(MapToEntityType(s.refType), s.refId) then Sum(LegOn(db.accounts, box), lines) else 0;
    if !s.accountingOnly {
      GuardDecidesAgreement(db.accounts, lines, s.movements);
      AgreementConservesCash(db.accounts, lines, s.movements, box);
    }
  }

  lemma StepGap(db: Db, c: Call, box: CashboxId, scope: Scope)
    requires !Step(db, c).1.Rejected?
    ensures Gap(Step(db, c).0, box, scope) == Gap(db, box, scope) + Leak(db, c, box, scope)
  {
    match c
    case RecordCall(s) => RecordGap(db, s, box, scope);
    case CashOnlyCall(m, t, id, now) => PayNet(db, m, MapToEntityType(t), id, now, box, scope);
  }

  lemma {:induction false} AttemptGap(db: Db, calls: seq<Call>, box: CashboxId, scope: Scope)
    requires Attempt(db, calls).1
    ensures Gap(Attempt(db, calls).0, box, scope) == Gap(db, box, scope) + AttemptLeak(db, calls, box, scope)
  {
    if |calls| > 0 {
      var n := |calls| - 1;
      AttemptGap(db, calls[..n], box, scope);
      StepGap(Attempt(db, calls[..n]).0, calls[n], box, scope);
    }
  }

  lemma {:induction false} RunGap(db: Db, work: seq<seq<Call>>, box: CashboxId, scope: Scope)
    ensures Gap(Run(db, work), box, scope) == Gap(db, box, scope) + RunLeak(db, work, box, scope)
  {
    if |work| > 0 {
      var n := |work| - 1;
      RunGap(db, work[..n], box, scope);
      if Attempt(Run(db, work[..n]), work[n]).1 {
        AttemptGap(Run(db, work[..n]), work[n], box, scope);
      }
    }
  }

  /** For every run from empty books, every cashbox and every scope of documents: cash
      rows less live legs are the leaks of the run plus the legs of the voided entries. */
  lemma DriftIdentity(db: Db, work: seq<seq<Call>>, box: CashboxId, scope: Scope)
    requires Fresh(db)
    ensures var d := Run(db, work);
      CashNet(d, box, scope) - LegNet(d, box, Live, scope)
      == RunLeak(db, work, box, scope) + LegNet(d, box, Voided, scope)
  {
    RunGap(db, work, box, scope);
    LegsSplit(Run(db, work), box, scope);
  }

  // ----- when nothing but cash-only movements leaks -----

  function AskedDebit(): GlLine -> int { (l: GlLine) => l.debit }

  /** The caller does not opt out of the guard, and posts at least a cent or moves nothing. */
  predicate Guarded(c: Call) {
    c.RecordCall? ==> !c.spec.accountingOnly && (Sum(AskedDebit(), c.spec.lines) >= 1 || |c.spec.movements| == 0)
  }

  predicate AllGuarded(calls: seq<Call>) { forall i :: 0 <= i < |calls| ==> Guarded(calls[i]) }

  predicate RunGuarded(work: seq<seq<Call>>) { forall i :: 0 <= i < |work| ==> AllGuarded(work[i]) }

  function CashOnly(db: Db, c: Call, box: CashboxId, scope: Scope): Cents {
    if c.CashOnlyCall? && Step(db, c).1.Moved? && scope(MapToEntityType(c.refType), c.refId)
    then MoveOn(box)(c.move) else 0
  }

  function AttemptCashOnly(db: Db, calls: seq<Call>, box: CashboxId, scope: Scope): Cents {
    if |calls| == 0 then 0
    else
      var n := |calls| - 1;
      AttemptCashOnly(db, calls[..n], box, scope) + CashOnly(Attempt(db, calls[..n]).0, calls[n], box, scope)
  }

  /** The cash-only movements a run committed. */
  function RunCashOnly(db: Db, work: seq<seq<Call>>, box: CashboxId, scope: Scope): Cents {
    if |work| == 0 then 0
    else
      var n := |work| - 1;
      var before := Run(db, work[..n]);
      RunCashOnly(db, work[..n], box, scope)
      + if Attempt(before, work[n]).1 then AttemptCashOnly(before, work[n], box, scope) else 0
  }

  lemma {:induction false} AskedIsResolved(db: Db, lines: seq<GlLine>)
    requires ResolveAll(db, lines).Some?
    ensures Sum(Debit(), ResolveAll(db, lines).value) == Sum(AskedDebit(), lines)
  {
    if |lines| > 0 {
      var n := |lines| - 1;
      AskedIsResolved(db, lines[..n]);
      SumSnoc(Debit(), ResolveAll(db, lines[..n]).value, Resolve(db, lines[n]).value);
    }
  }

  /** An accepted call of some value that replays nothing posts. */
  lemma AcceptedPosts(db: Db, s: Spec)
    requires FindLive(db.entries, s.refType, s.refId).None? && Sum(AskedDebit(), s.lines) >= 1
    requires !Record(db, s).1.Rejected?
    ensures Record(db, s).1.Posted?
  {
    hide MapToEntityType, ValidateSpec, Judge;
    var paid := PaySpec(db, s).0;
    if ResolveAll(paid, s.lines).Some? {
      AskedIsResolved(paid, s.lines);
    }
  }

  lemma GuardedLeak(db: Db, c: Call, box: CashboxId, scope: Scope)
    requires Guarded(c)
    ensures Leak(db, c, box, scope) == CashOnly(db, c, box, scope)
  {
    if c.RecordCall? && Record(db, c.spec).1.ZeroValue? {
      var s := c.spec;
      var paid := PayAll(db, s.movements, MapToEntityType(s.refType), s.refId, s.now).0;
      AskedIsResolved(paid, s.lines);
    }
  }

  lemma {:induction false} GuardedAttemptLeak(db: Db, calls: seq<Call>, box: CashboxId, scope: Scope)
    requires AllGuarded(calls)
    ensures AttemptLeak(db, calls, box, scope) == AttemptCashOnly(db, calls, box, scope)
  {
    if |calls| > 0 {
      var n := |calls| - 1;
      GuardedAttemptLeak(db, calls[..n], box, scope);
      GuardedLeak(Attempt(db, calls[..n]).0, calls[n], box, scope);
    }
  }

  lemma {:induction false} GuardedRunLeak(db: Db, work: seq<seq<Call>>, box: CashboxId, scope: Scope)
    requires RunGuarded(work)
    ensures RunLeak(db, work, box, scope) == RunCashOnly(db, work, box, scope)
  {
    if |work| > 0 {
      var n := |work| - 1;
      GuardedRunLeak(db, work[..n], box, scope);
      GuardedAttemptLeak(Run(db, work[..n]), work[n], box, scope);
    }
  }

  /** Guarded runs drift by exactly their cash-only movements and their voided entries. */
  lemma GuardedDrift(db: Db, work: seq<seq<Call>>, box: CashboxId)
    requires Fresh(db) && RunGuarded(work)
    ensures Drift(Run(db, work), box)
         == RunCashOnly(db, work, box, Everything()) + LegNet(Run(db, work), box, Voided, Everything())
  {
    DriftIdentity(db, work, box, Everything());
    GuardedRunLeak(db, work, box, Everything());
  }
}
