/**
 The posting engine: the one step that moves money. `Record` is the specification of one
 call on the tables; the class below performs it statement by statement, and its methods
 are proved against it.
 */
module Engine {
  import opened Sums
  import opened Ledger
  import opened Alignment

  /** A requested line names its account in one of three ways. */
  datatype GlLine = GlLine(
    accountCode: Option<string>, accountId: Option<AccountId>, resolveFrom: Option<CashboxId>,
    debit: Cents, credit: Cents, cashbox: Option<CashboxId>,
    employee: Option<string>)

  datatype Spec = Spec(
    refType: string, refId: RefId, date: int, description: string,
    lines: seq<GlLine>, movements: seq<Movement>,
    reversalOf: Option<nat>, accountingOnly: bool, now: int)

  datatype InvalidReason =
    | MissingReference | MissingDescription | TooFewLines
    | NegativeAmount | BothSides | AccountChoice
    | MovementWithoutCashbox | MovementAmount

  datatype EngineError =
    | Invalid(reason: InvalidReason)
    | LockedDown
    | CashboxNotFound
    | AccountUnresolved
    | Unbalanced
    | Misaligned(verdict: Verdict)
    | KeyMissing

  datatype Outcome =
    | Replayed(entry: nat)
    | Posted(entry: nat, cashIds: seq<nat>)
    | ZeroValue(cashIds: seq<nat>)
    | Moved(cashId: nat)
    | Rejected(error: EngineError)

  // ----- validation -----

  predicate Present(o: Option<string>) { o.Some? && o.value != "" }

  predicate ExactlyOne(a: bool, b: bool, c: bool) {
    (a && !b && !c) || (!a && b && !c) || (!a && !b && c)
  }

  function LineError(l: GlLine): Option<InvalidReason> {
    if l.debit < 0 || l.credit < 0 then Some(NegativeAmount)
    else if l.debit > 0 && l.credit > 0 then Some(BothSides)
    else if !ExactlyOne(Present(l.accountCode), Present(l.accountId), Present(l.resolveFrom)) then Some(AccountChoice)
    else None
  }

  function MovementError(m: Movement): Option<InvalidReason> {
    if m.cashbox == "" then Some(MovementWithoutCashbox)
    else if m.amount <= 0 then Some(MovementAmount)
    else None
  }

  function FirstLineError(lines: seq<GlLine>): (r: Option<InvalidReason>)
    ensures r.None? <==> forall i :: 0 <= i < |lines| ==> LineError(lines[i]).None?
  {
    if |lines| == 0 then None
    else if LineError(lines[0]).Some? then LineError(lines[0])
    else FirstLineError(lines[1..])
  }

  function FirstMovementError(moves: seq<Movement>): (r: Option<InvalidReason>)
    ensures r.None? <==> forall i :: 0 <= i < |moves| ==> MovementError(moves[i]).None?
  {
    if |moves| == 0 then None
    else if MovementError(moves[0]).Some? then MovementError(moves[0])
    else FirstMovementError(moves[1..])
  }

  function ValidateSpec(s: Spec): Option<InvalidReason> {
    if s.refType == "" || s.refId == Document("") then Some(MissingReference)
    else if s.description == "" then Some(MissingDescription)
    else if |s.lines| < 2 then Some(TooFewLines)
    else if FirstLineError(s.lines).Some? then FirstLineError(s.lines)
    else FirstMovementError(s.movements)
  }

  // ----- the idempotency guard -----

  predicate Claims(e: Entry, refType: string, refId: RefId) {
    !e.isVoid && e.refType == refType && e.refId == refId
  }

  function FindLive(entries: seq<Entry>, refType: string, refId: RefId): (r: Option<nat>)
    ensures r.Some? ==> r.value < |entries| && Claims(entries[r.value], refType, refId)
    ensures r.None? ==> forall i :: 0 <= i < |entries| ==> !Claims(entries[i], refType, refId)
  {
    if |entries| == 0 then None
    else
      var n := |entries| - 1;
      var earlier := FindLive(entries[..n], refType, refId);
      if earlier.Some? then earlier
      else if Claims(entries[n], refType, refId) then Some(n)
      else None
  }

  // ----- phase 1: physical cash -----

  /** `fn_record_cashbox_txn`: append a cash row and move the running balance with it. */
  function Pay(db: Db, m: Movement, entity: string, refId: RefId, now: int): Db
    requires m.cashbox in db.boxes
  {
    var after := db.boxes[m.cashbox].balance + Signed(m.direction, m.amount);
    db.(cash := db.cash + [CashTxn(m.cashbox, m.direction, m.amount, m.category, entity, refId, after, now, false)],
        boxes := db.boxes[m.cashbox := db.boxes[m.cashbox].(balance := after)])
  }

  /** All movements in order; stops at the first unknown cashbox and reports failure. */
  function PayAll(db: Db, moves: seq<Movement>, entity: string, refId: RefId, now: int): (r: (Db, bool))
    ensures r.0.boxes.Keys == db.boxes.Keys
    ensures r.1 <==> forall i :: 0 <= i < |moves| ==> moves[i].cashbox in db.boxes
  {
    if |moves| == 0 then (db, true)
    else
      var n := |moves| - 1;
      var (front, ok) := PayAll(db, moves[..n], entity, refId, now);
      if ok && moves[n].cashbox in front.boxes then (Pay(front, moves[n], entity, refId, now), true)
      else (front, false)
  }

  function Range(from: nat, n: nat): (r: seq<nat>)
    ensures |r| == n && forall i :: 0 <= i < n ==> r[i] == from + i
  {
    seq(n, i requires 0 <= i => from + i)
  }

  // ----- phase 2: accounts -----

  function ResolveAccount(db: Db, l: GlLine): Option<AccountId> {
    if Present(l.accountId) then l.accountId
    else if Present(l.accountCode) then AccountByCode(db.accounts, l.accountCode.value)
    else if Present(l.resolveFrom) then CashboxAccount(db, l.resolveFrom.value)
    else None
  }

  /** A line resolved through a cashbox is tagged with that cashbox unless tagged already. */
  function Resolve(db: Db, l: GlLine): Option<Line> {
    var account := ResolveAccount(db, l);
    if account.None? then None
    else Some(Line(account.value, l.debit, l.credit, if l.cashbox.Some? then l.cashbox else l.resolveFrom, l.employee))
  }

  function ResolveAll(db: Db, lines: seq<GlLine>): (r: Option<seq<Line>>)
    ensures r.Some? <==> forall i :: 0 <= i < |lines| ==> Resolve(db, lines[i]).Some?
    ensures r.Some? ==> |r.value| == |lines| && forall i :: 0 <= i < |lines| ==> Resolve(db, lines[i]) == Some(r.value[i])
  {
    if |lines| == 0 then Some([])
    else
      var n := |lines| - 1;
      var front, last := ResolveAll(db, lines[..n]), Resolve(db, lines[n]);
      if front.Some? && last.Some? then Some(front.value + [last.value]) else None
  }

  // ----- phases 3 and 4: balance, alignment, entry -----

  function IsNonzero(): Line -> bool { (l: Line) => l.debit != 0 || l.credit != 0 }

  /** The lines that are written; zero lines are skipped. */
  function Kept(lines: seq<Line>): seq<Line> { Keep(IsNonzero(), lines) }

  /** What the database checks of a line: foreign keys, and an employee on personal accounts. */
  predicate LineKeys(accounts: seq<Account>, boxes: set<CashboxId>, l: Line) {
    && HasAccount(accounts, l.account)
    && (l.cashbox.Some? ==> l.cashbox.value in boxes)
    && (IsPersonal(CodeOf(accounts, l.account)) ==> l.employee.Some?)
  }

  predicate KeysExist(db: Db, reversalOf: Option<nat>, lines: seq<Line>) {
    && (reversalOf.Some? ==> reversalOf.value < |db.entries|)
    && forall i :: 0 <= i < |lines| ==> LineKeys(db.accounts, db.boxes.Keys, lines[i])
  }

  function VoidOriginal(entries: seq<Entry>, original: Option<nat>): seq<Entry> {
    if original.Some? && original.value < |entries|
    then entries[original.value := entries[original.value].(isVoid := true)]
    else entries
  }

  function NewEntry(s: Spec, lines: seq<Line>): Entry {
    Entry(s.refType, s.refId, s.date, Kept(lines), s.reversalOf, false)
  }

  function Post(db: Db, s: Spec, lines: seq<Line>): Db {
    db.(entries := VoidOriginal(db.entries, s.reversalOf) + [NewEntry(s, lines)])
  }

  function Abs(x: int): nat { if x < 0 then -x else x }

  /** The cash half of a call, and whether every cashbox was found. */
  function PaySpec(db: Db, s: Spec): (Db, bool) {
    PayAll(db, s.movements, MapToEntityType(s.refType), s.refId, s.now)
  }

  /** The journal half of a call, once its cash has moved. */
  function Book(paid: Db, s: Spec, cashIds: seq<nat>): (Db, Outcome) {
    var resolved := ResolveAll(paid, s.lines);
    if resolved.None? then (paid, Rejected(AccountUnresolved))
    else
      var lines := resolved.value;
      var debits, credits := Sum(Debit(), lines), Sum(Credit(), lines);
      var verdict := Judge(paid.accounts, lines, s.movements, s.accountingOnly);
      if Abs(debits - credits) > 1 then (paid, Rejected(Unbalanced))
      else if debits < 1 then (paid, ZeroValue(cashIds))
      else if !Passes(verdict) then (paid, Rejected(Misaligned(verdict)))
      else if !KeysExist(paid, s.reversalOf, Kept(lines)) then (paid, Rejected(KeyMissing))
      else (Post(paid, s, lines), Posted(|paid.entries|, cashIds))
  }

  /** One `recordTransaction` call inside a transaction of its caller. */
  function Record(db: Db, s: Spec): (Db, Outcome) {
    var invalid := ValidateSpec(s);
    var live := FindLive(db.entries, s.refType, s.refId);
    if invalid.Some? then (db, Rejected(Invalid(invalid.value)))
    else if db.locked then (db, Rejected(LockedDown))
    else if live.Some? then (db, Replayed(live.value))
    else
      var (paid, ok) := PaySpec(db, s);
      if !ok then (paid, Rejected(CashboxNotFound))
      else Book(paid, s, Range(|db.cash|, |s.movements|))
  }

  /** One `recordCashOnlyMovement` call: no journal entry, no lockdown, no idempotency. */
  function MoveOnly(db: Db, m: Movement, refType: string, refId: RefId, now: int): (Db, Outcome) {
    if m.amount <= 0 then (db, Rejected(Invalid(MovementAmount)))
    else if m.cashbox !in db.boxes then (db, Rejected(CashboxNotFound))
    else (Pay(db, m, MapToEntityType(refType), refId, now), Moved(|db.cash|))
  }

  datatype Call =
    | RecordCall(spec: Spec)
    | CashOnlyCall(move: Movement, refType: string, refId: RefId, now: int)

  function Step(db: Db, c: Call): (Db, Outcome) {
    match c
    case RecordCall(s) => Record(db, s)
    case CashOnlyCall(m, t, id, now) => MoveOnly(db, m, t, id, now)
  }

  /** A database transaction of several calls whose caller throws at the first failure. */
  function Attempt(db: Db, calls: seq<Call>): (Db, bool) {
    if |calls| == 0 then (db, true)
    else
      var n := |calls| - 1;
      var (front, ok) := Attempt(db, calls[..n]);
      if !ok then (front, false)
      else
        var (d, o) := Step(front, calls[n]);
        (d, !o.Rejected?)
  }

  function Transact(db: Db, calls: seq<Call>): Db {
    var (d, ok) := Attempt(db, calls);
    if ok then d else db
  }

  function Run(db: Db, work: seq<seq<Call>>): Db {
    if |work| == 0 then db
    else Transact(Run(db, work[..|work| - 1]), work[|work| - 1])
  }

  // ----- the engine as it runs -----

  lemma {:induction false} PayAllStops(db: Db, moves: seq<Movement>, i: nat, entity: string, refId: RefId, now: int)
    requires i < |moves| && moves[i].cashbox !in db.boxes
    requires PayAll(db, moves[..i], entity, refId, now).1
    ensures PayAll(db, moves, entity, refId, now) == (PayAll(db, moves[..i], entity, refId, now).0, false)
  {
    var n := |moves| - 1;
    if i < n {
      assert moves[..n][..i] == moves[..i];
      PayAllStops(db, moves[..n], i, entity, refId, now);
    }
  }

  class FinancialEngine {
    var accounts: seq<Account>
    var boxes: map<CashboxId, Cashbox>
    var cash: seq<CashTxn>
    var entries: seq<Entry>
    var locked: bool

    function Snapshot(): Db
      reads this
    {
      Db(accounts, boxes, cash, entries, locked)
    }

    constructor (db: Db)
      ensures Snapshot() == db
    {
      accounts, boxes, cash, entries, locked := db.accounts, db.boxes, db.cash, db.entries, db.locked;
    }

    method Restore(db: Db)
      modifies this
      ensures Snapshot() == db
    {
      accounts, boxes, cash, entries, locked := db.accounts, db.boxes, db.cash, db.entries, db.locked;
    }

    method RecordCashboxTxn(m: Movement, entity: string, refId: RefId, now: int) returns (id: nat, found: bool)
      modifies this`cash, this`boxes
      ensures found <==> m.cashbox in old(boxes)
      ensures found ==> Snapshot() == Pay(old(Snapshot()), m, entity, refId, now) && id == |old(cash)|
      ensures !found ==> Snapshot() == old(Snapshot())
    {
      id := |cash|;
      found := m.cashbox in boxes;
      if !found {
        return;
      }
      var after := boxes[m.cashbox].balance + Signed(m.direction, m.amount);
      cash := cash + [CashTxn(m.cashbox, m.direction, m.amount, m.category, entity, refId, after, now, false)];
      boxes := boxes[m.cashbox := boxes[m.cashbox].(balance := after)];
    }

    method WriteEntry(s: Spec, lines: seq<Line>) returns (id: nat)
      modifies this`entries
      ensures Snapshot() == Post(old(Snapshot()), s, lines) && id == |old(entries)|
    {
      id := |entries|;
      var written: seq<Line> := [];
      for i := 0 to |lines|
        invariant written == Kept(lines[..i])
      {
        assert lines[..i + 1][..i] == lines[..i];
        if lines[i].debit == 0 && lines[i].credit == 0 {
          continue;
        }
        written := written + [lines[i]];
      }
      assert lines[..|lines|] == lines;
      entries := entries + [Entry(s.refType, s.refId, s.date, written, s.reversalOf, false)];
      if s.reversalOf.Some? && s.reversalOf.value < id {
        entries := entries[s.reversalOf.value := entries[s.reversalOf.value].(isVoid := true)];
      }
    }

    /** Phase 1: write the cash rows in order, collecting their ids. */
    method MoveCash(s: Spec) returns (ids: seq<nat>, ok: bool)
      modifies this`cash, this`boxes
      ensures (Snapshot(), ok) == PaySpec(old(Snapshot()), s)
      ensures ok ==> ids == Range(|old(cash)|, |s.movements|)
    {
      hide MapToEntityType;
      ghost var start := Snapshot();
      var entity := MapToEntityType(s.refType);
      ids := [];
      for i := 0 to |s.movements|
        invariant (Snapshot(), true) == PayAll(start, s.movements[..i], entity, s.refId, s.now)
        invariant ids == Range(|start.cash|, i) && |cash| == |start.cash| + i
      {
        assert s.movements[..i + 1][..i] == s.movements[..i];
        var id, found := RecordCashboxTxn(s.movements[i], entity, s.refId, s.now);
        if !found {
          PayAllStops(start, s.movements, i, entity, s.refId, s.now);
          return ids, false;
        }
        ids := ids + [id];
      }
      assert s.movements[..|s.movements|] == s.movements;
      ok := true;
    }

    /** Phase 2: resolve the accounts and tag the lines. */
    method ResolveLines(lines: seq<GlLine>) returns (resolved: Option<seq<Line>>)
      ensures resolved == ResolveAll(Snapshot(), lines)
    {
      var acc: seq<Line> := [];
      for i := 0 to |lines|
        invariant ResolveAll(Snapshot(), lines[..i]) == Some(acc)
      {
        assert lines[..i + 1][..i] == lines[..i];
        var line := Resolve(Snapshot(), lines[i]);
        if line.None? {
          return None;
        }
        acc := acc + [line.value];
      }
      assert lines[..|lines|] == lines;
      resolved := Some(acc);
    }

    /** Phases 2 to 4: resolve, balance, align, write. */
    method BookEntry(s: Spec, cashTxnIds: seq<nat>) returns (o: Outcome)
      modifies this`entries
      ensures (Snapshot(), o) == Book(old(Snapshot()), s, cashTxnIds)
    {
      var resolved := ResolveLines(s.lines);
      if resolved.None? {
        return Rejected(AccountUnresolved);
      }
      var lines := resolved.value;
      var sumD, sumC := Sum(Debit(), lines), Sum(Credit(), lines);
      if Abs(sumD - sumC) > 1 {
        return Rejected(Unbalanced);
      }
      if sumD < 1 {
        return ZeroValue(cashTxnIds);
      }
      var verdict := CheckCashGlAlignment(accounts, lines, s.movements, s.accountingOnly);
      if !Passes(verdict) {
        return Rejected(Misaligned(verdict));
      }
      if !KeysExist(Snapshot(), s.reversalOf, Kept(lines)) {
        return Rejected(KeyMissing);
      }
      var entry := WriteEntry(s, lines);
      o := Posted(entry, cashTxnIds);
    }

    /** The body of `recordTransaction` inside an open transaction. */
    method RunInTransaction(s: Spec) returns (o: Outcome)
      modifies this
      ensures (Snapshot(), o) == Record(old(Snapshot()), s)
    {
      var invalid := ValidateSpec(s);
      if invalid.Some? {
        return Rejected(Invalid(invalid.value));
      }
      if locked {
        return Rejected(LockedDown);
      }
      var existing := FindLive(entries, s.refType, s.refId);
      if existing.Some? {
        return Replayed(existing.value);
      }
      var cashTxnIds, ok := MoveCash(s);
      if !ok {
        return Rejected(CashboxNotFound);
      }
      o := BookEntry(s, cashTxnIds);
    }

    /** `recordTransaction`: with no caller transaction it opens its own and rolls back. */
    method RecordTransaction(s: Spec, callerManaged: bool) returns (o: Outcome)
      modifies this
      ensures o == Record(old(Snapshot()), s).1
      ensures callerManaged ==> Snapshot() == Record(old(Snapshot()), s).0
      ensures !callerManaged ==> Snapshot() == Transact(old(Snapshot()), [RecordCall(s)])
    {
      var saved := Snapshot();
      o := RunInTransaction(s);
      assert [RecordCall(s)][..0] == [];
      assert Attempt(saved, [RecordCall(s)]) == (Record(saved, s).0, !o.Rejected?);
      if !callerManaged && o.Rejected? {
        Restore(saved);
      }
    }

    /** `recordCashOnlyMovement`. */
    method RecordCashOnlyMovement(m: Movement, refType: string, refId: RefId, now: int) returns (o: Outcome)
      modifies this
      ensures (Snapshot(), o) == MoveOnly(old(Snapshot()), m, refType, refId, now)
    {
      if m.amount <= 0 {
        return Rejected(Invalid(MovementAmount));
      }
      var id, found := RecordCashboxTxn(m, MapToEntityType(refType), refId, now);
      o := if found then Moved(id) else Rejected(CashboxNotFound);
    }

    /** A caller's transaction over several engine calls: all of them or none. */
    method ExecuteAll(calls: seq<Call>) returns (ok: bool)
      modifies this
      ensures ok == Attempt(old(Snapshot()), calls).1
      ensures Snapshot() == Transact(old(Snapshot()), calls)
    {
      var saved := Snapshot();
      for i := 0 to |calls|
        invariant Attempt(saved, calls[..i]) == (Snapshot(), true)
      {
        assert calls[..i + 1][..i] == calls[..i];
        var o;
        match calls[i] {
          case RecordCall(s) => o := RecordTransaction(s, true);
          case CashOnlyCall(m, t, id, now) => o := RecordCashOnlyMovement(m, t, id, now);
        }
        if o.Rejected? {
          AttemptStops(saved, calls, i + 1);
          Restore(saved);
          return false;
        }
      }
      assert calls[..|calls|] == calls;
      return true;
    }
  }

  lemma {:induction false} AttemptStops(db: Db, calls: seq<Call>, i: nat)
    requires i <= |calls| && !Attempt(db, calls[..i]).1
    ensures !Attempt(db, calls).1
    decreases |calls| - i
  {
    if i == |calls| {
      assert calls[..i] == calls;
    } else {
      assert calls[..i + 1][..i] == calls[..i];
      AttemptStops(db, calls, i + 1);
    }
  }
}
