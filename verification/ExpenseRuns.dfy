/**
 Over every run of the desk, with any other traffic through the engine in between, the
 books of a cash expense are those of one fresh posting of its current row.
 */
module ExpenseRuns {
  import opened Sums
  import opened Ledger
  import opened Alignment
  import opened Engine
  import opened Runs
  import opened Recipes
  import opened Corrections
  import opened ExpenseDesk

  datatype Op =
    | DoRequest(expense: string, asked: Asked, user: string, reason: string)
    | DoApprove(request: nat, today: int, now: int)
    | DoReject(request: nat, why: string)
    | DoCancel(request: nat, user: string)
    | DoCreate(expense: string, row: Row, now: int)
    | DoOther(calls: seq<Call>)

  function Do(d: Desk, op: Op): Desk {
    match op
    case DoRequest(x, asked, user, reason) => RequestEdit(d, x, asked, user, reason)
    case DoApprove(i, today, now) => ApproveEdit(d, i, today, now)
    case DoReject(i, why) => RejectEdit(d, i, why)
    case DoCancel(i, user) => CancelEdit(d, i, user)
    case DoCreate(x, row, now) => CreateExpense(d, x, row, now)
    case DoOther(calls) => d.(db := Transact(d.db, calls))
  }

  function DoAll(d: Desk, ops: seq<Op>): Desk {
    if |ops| == 0 then d else Do(DoAll(d, ops[..|ops| - 1]), ops[|ops| - 1])
  }

  // ----- calls outside a scope -----

  /** The call neither writes under the scope nor voids an entry of it. */
  ghost predicate Outside(db: Db, c: Call, scope: Scope) {
    match c
    case RecordCall(s) =>
      && !scope(s.refType, s.refId) && !scope(MapToEntityType(s.refType), s.refId)
      && (s.reversalOf.Some? && s.reversalOf.value < |db.entries| ==>
            !scope(db.entries[s.reversalOf.value].refType, db.entries[s.reversalOf.value].refId))
    case CashOnlyCall(_, t, id, _) => !scope(MapToEntityType(t), id)
  }

  lemma {:induction false} PayAllOutside(db: Db, moves: seq<Movement>, entity: string, refId: RefId, now: int, box: CashboxId, scope: Scope)
    requires !scope(entity, refId)
    ensures CashNet(PayAll(db, moves, entity, refId, now).0, box, scope) == CashNet(db, box, scope)
  {
    if |moves| > 0 {
      var n := |moves| - 1;
      PayAllOutside(db, moves[..n], entity, refId, now, box, scope);
      var (front, ok) := PayAll(db, moves[..n], entity, refId, now);
      if ok && moves[n].cashbox in front.boxes {
        PayNet(front, moves[n], entity, refId, now, box, scope);
      }
    }
  }

  lemma StepOutside(db: Db, c: Call, account: AccountId, box: CashboxId, scope: Scope)
    requires Outside(db, c, scope)
    ensures AccountNetIn(Step(db, c).0, account, scope) == AccountNetIn(db, account, scope)
    ensures CashNet(Step(db, c).0, box, scope) == CashNet(db, box, scope)
  {
    match c
    case CashOnlyCall(m, t, id, now) =>
      if m.amount > 0 && m.cashbox in db.boxes {
        PayNet(db, m, MapToEntityType(t), id, now, box, scope);
      }
    case RecordCall(s) => RecordOutside(db, s, account, box, scope);
  }

  lemma RecordOutside(db: Db, s: Spec, account: AccountId, box: CashboxId, scope: Scope)
    requires Outside(db, RecordCall(s), scope)
    ensures AccountNetIn(Record(db, s).0, account, scope) == AccountNetIn(db, account, scope)
    ensures CashNet(Record(db, s).0, box, scope) == CashNet(db, box, scope)
  {
    hide Record, MapToEntityType;
    if Record(db, s).1.Posted? {
      PostedOutside(db, s, account, box, scope);
    } else {
      var _ := RecordCases(db, s);
      PayAllOutside(db, s.movements, MapToEntityType(s.refType), s.refId, s.now, box, scope);
    }
  }

  lemma PostedOutside(db: Db, s: Spec, account: AccountId, box: CashboxId, scope: Scope)
    requires Outside(db, RecordCall(s), scope) && Record(db, s).1.Posted?
    ensures AccountNetIn(Record(db, s).0, account, scope) == AccountNetIn(db, account, scope)
    ensures CashNet(Record(db, s).0, box, scope) == CashNet(db, box, scope)
  {
    hide Record, MapToEntityType;
    var lines := PostedNetIn(db, s, account, scope);
    PostedCashIn(db, s, box, scope);
  }

  /** What a call appends: at most one entry, under its own reference. */
  lemma StepAppends(db: Db, c: Call)
    ensures var d := Step(db, c).0;
      forall j :: |db.entries| <= j < |d.entries| ==>
        c.RecordCall? && d.entries[j].refType == c.spec.refType && d.entries[j].refId == c.spec.refId
  {
    hide Record;
    if c.RecordCall? {
      var _ := RecordCases(db, c.spec);
    }
  }

  lemma {:induction false} AttemptOutside(db: Db, calls: seq<Call>, account: AccountId, box: CashboxId, scope: Scope)
    requires forall k :: 0 <= k < |calls| ==> Outside(db, calls[k], scope)
    ensures var d := Attempt(db, calls).0;
      && AccountNetIn(d, account, scope) == AccountNetIn(db, account, scope)
      && CashNet(d, box, scope) == CashNet(db, box, scope)
      && Extends(db.entries, d.entries)
      && forall j :: |db.entries| <= j < |d.entries| ==> !scope(d.entries[j].refType, d.entries[j].refId)
  {
    hide Step, AccountNetIn, CashNet;
    AttemptExtends(db, calls);
    if |calls| > 0 {
      var n := |calls| - 1;
      var front := Attempt(db, calls[..n]).0;
      AttemptOutside(db, calls[..n], account, box, scope);
      if Attempt(db, calls[..n]).1 {
        assert Outside(front, calls[n], scope) by {
          if calls[n].RecordCall? && calls[n].spec.reversalOf.Some? && calls[n].spec.reversalOf.value < |db.entries| {
            var k := calls[n].spec.reversalOf.value;
            assert front.entries[k] == db.entries[k] || front.entries[k] == db.entries[k].(isVoid := true);
          }
        }
        StepOutside(front, calls[n], account, box, scope);
        StepAppends(front, calls[n]);
        StepExtends(front, calls[n]);
        NewOnesOutside(db, front, calls[n], scope);
      }
    }
  }

  lemma NewOnesOutside(db: Db, front: Db, c: Call, scope: Scope)
    requires Extends(db.entries, front.entries) && Outside(front, c, scope)
    requires forall j :: |db.entries| <= j < |front.entries| ==> !scope(front.entries[j].refType, front.entries[j].refId)
    ensures var d := Step(front, c).0;
      forall j :: |db.entries| <= j < |d.entries| ==> !scope(d.entries[j].refType, d.entries[j].refId)
  {
    StepAppends(front, c);
    StepExtends(front, c);
    hide Step;
    var d := Step(front, c).0;
    forall j | |db.entries| <= j < |d.entries| ensures !scope(d.entries[j].refType, d.entries[j].refId) {
      if j < |front.entries| {
        assert d.entries[j] == front.entries[j] || d.entries[j] == front.entries[j].(isVoid := true);
      }
    }
  }

  // ----- keys -----

  /** Every reference in the tables is a known one. */
  ghost predicate Within(db: Db, known: Scope) {
    && (forall i :: 0 <= i < |db.entries| ==> known(db.entries[i].refType, db.entries[i].refId))
    && (forall i :: 0 <= i < |db.cash| ==> known(db.cash[i].entity, db.cash[i].refId))
  }

  ghost predicate CallWithin(c: Call, known: Scope) {
    match c
    case RecordCall(s) => known(s.refType, s.refId) && known(MapToEntityType(s.refType), s.refId)
    case CashOnlyCall(_, t, id, _) => known(MapToEntityType(t), id)
  }

  lemma {:induction false} PayAllWithin(db: Db, moves: seq<Movement>, entity: string, refId: RefId, now: int, known: Scope)
    requires Within(db, known) && known(entity, refId)
    ensures Within(PayAll(db, moves, entity, refId, now).0, known)
  {
    if |moves| > 0 {
      PayAllWithin(db, moves[..|moves| - 1], entity, refId, now, known);
    }
  }

  lemma StepWithin(db: Db, c: Call, known: Scope)
    requires Within(db, known) && CallWithin(c, known)
    ensures Within(Step(db, c).0, known)
  {
    hide Record, MapToEntityType;
    if c.RecordCall? {
      var _ := RecordCases(db, c.spec);
      PayAllWithin(db, c.spec.movements, MapToEntityType(c.spec.refType), c.spec.refId, c.spec.now, known);
    }
  }

  lemma {:induction false} AttemptWithin(db: Db, calls: seq<Call>, known: Scope)
    requires Within(db, known) && forall k :: 0 <= k < |calls| ==> CallWithin(calls[k], known)
    ensures Within(Attempt(db, calls).0, known)
  {
    if |calls| > 0 {
      AttemptWithin(db, calls[..|calls| - 1], known);
      StepWithin(Attempt(db, calls[..|calls| - 1]).0, calls[|calls| - 1], known);
    }
  }

  /** A scope with no row in it sums to nothing. */
  lemma NothingInScope(db: Db, account: AccountId, box: CashboxId, scope: Scope, known: Scope)
    requires Within(db, known) && forall t: string, id: RefId :: scope(t, id) ==> !known(t, id)
    ensures AccountNetIn(db, account, scope) == 0 && CashNet(db, box, scope) == 0
  {
    forall i | 0 <= i < |db.entries| ensures ScopedNet(account, scope)(db.entries[i]) == 0 {
      assert known(db.entries[i].refType, db.entries[i].refId);
    }
    forall i | 0 <= i < |db.cash| ensures CashIn(box, scope)(db.cash[i]) == 0 {
      assert known(db.cash[i].entity, db.cash[i].refId);
    }
    SumZero(ScopedNet(account, scope), db.entries);
    SumZero(CashIn(box, scope), db.cash);
  }

  /** Scopes that agree on the known references give the same figures. */
  lemma SameOnKnown(db: Db, account: AccountId, box: CashboxId, scope: Scope, other: Scope, known: Scope)
    requires Within(db, known) && forall t: string, id: RefId :: known(t, id) ==> scope(t, id) == other(t, id)
    ensures AccountNetIn(db, account, scope) == AccountNetIn(db, account, other)
    ensures CashNet(db, box, scope) == CashNet(db, box, other)
  {
    forall i | 0 <= i < |db.entries| ensures ScopedNet(account, scope)(db.entries[i]) == ScopedNet(account, other)(db.entries[i]) {
      assert known(db.entries[i].refType, db.entries[i].refId);
    }
    forall i | 0 <= i < |db.cash| ensures CashIn(box, scope)(db.cash[i]) == CashIn(box, other)(db.cash[i]) {
      assert known(db.cash[i].entity, db.cash[i].refId);
    }
    SumSame(ScopedNet(account, scope), ScopedNet(account, other), db.entries);
    SumSame(CashIn(box, scope), CashIn(box, other), db.cash);
  }

  // ----- ownership -----

  /** The references of one expense: its document and the keys of its edit requests. */
  function OwnedBy(requests: seq<EditRequest>, expense: string): Scope {
    (t: string, id: RefId) =>
      || (t == "expense" && id == Document(expense))
      || (id.Derived? && id.request < |requests| && requests[id.request].expense == expense)
  }

  /** Keys in use: those of approved requests and of existing expenses, and unrelated ones. */
  function Known(d: Desk): Scope {
    (t: string, id: RefId) =>
      && (id.Derived? ==> id.request < |d.requests| && d.requests[id.request].status.Approved?)
      && (t == "expense" && id.Document? ==> id.id in d.expenses)
  }

  /** Other traffic: not keyed as an expense or as a correction, and reversing neither. */
  ghost predicate Foreign(db: Db, c: Call) {
    match c
    case RecordCall(s) =>
      && !s.refId.Derived? && s.refType != "expense" && MapToEntityType(s.refType) != "expense"
      && (s.reversalOf.Some? && s.reversalOf.value < |db.entries| ==>
            db.entries[s.reversalOf.value].refType != "expense" && !db.entries[s.reversalOf.value].refId.Derived?)
    case CashOnlyCall(_, t, id, _) => !id.Derived? && MapToEntityType(t) != "expense"
  }

  ghost predicate ForeignOp(d: Desk, op: Op) {
    op.DoOther? ==> forall k :: 0 <= k < |op.calls| ==> Foreign(d.db, op.calls[k])
  }

  ghost predicate OthersForeign(d: Desk, ops: seq<Op>) {
    forall k :: 0 <= k < |ops| ==> ForeignOp(DoAll(d, ops[..k]), ops[k])
  }

  // ----- what every operation keeps -----

  ghost predicate OnePending(requests: seq<EditRequest>) {
    forall i, j :: 0 <= i < j < |requests| && requests[i].status.Pending? && requests[j].status.Pending? ==>
      requests[i].expense != requests[j].expense
  }

  /** A pending request's snapshot is the row as it still stands. */
  ghost predicate SnapshotsCurrent(d: Desk) {
    forall i :: 0 <= i < |d.requests| ==>
      && d.requests[i].expense in d.expenses
      && (d.requests[i].status.Pending? ==> d.requests[i].oldRow == d.expenses[d.requests[i].expense])
  }

  predicate RowSane(accounts: map<string, AccountId>, row: Row) {
    CashHasBox(row.payment, row.cashbox) && row.category in accounts && row.amount > 0
  }

  ghost predicate RowsSane(d: Desk) { forall x :: x in d.expenses ==> x != "" && RowSane(d.accounts, d.expenses[x]) }

  /** Each expense still has the live entry it was created with. */
  ghost predicate StillPosted(d: Desk) {
    forall x :: x in d.expenses ==> exists e :: 0 <= e < |d.db.entries| && Claims(d.db.entries[e], "expense", Document(x))
  }

  ghost predicate Mapped(d: Desk) { forall c :: c in d.accounts ==> d.accounts[c] != "" }

  ghost predicate DeskInv(d: Desk) {
    && OnePending(d.requests) && SnapshotsCurrent(d) && Within(d.db, Known(d))
    && RowsSane(d) && StillPosted(d) && Mapped(d)
  }

  predicate PaidInCash(d: Desk, x: string) {
    x in d.expenses && d.expenses[x].payment == "cash" && Present(d.expenses[x].cashbox) && d.expenses[x].category in d.accounts
  }

  /** The books of one expense on one account and one cashbox are those of its row. */
  ghost predicate BooksMatch(d: Desk, x: string, account: AccountId, box: CashboxId) {
    PaidInCash(d, x) ==>
      var row, scope := d.expenses[x], OwnedBy(d.requests, x);
      && AccountNetIn(d.db, account, scope)
         == ExpenseOn(d.accounts[row.category], BookAccount(d.db, row.cashbox.value), row.amount, account)
      && CashNet(d.db, box, scope) == PaidFrom(row.cashbox.value, row.amount, box)
  }

  lemma StepSameChart(db: Db, c: Call)
    ensures SameChart(db, Step(db, c).0)
  {
    hide Record;
    if c.RecordCall? {
      var _ := RecordCases(db, c.spec);
    }
  }

  lemma {:induction false} AttemptSameChart(db: Db, calls: seq<Call>)
    ensures SameChart(db, Attempt(db, calls).0)
  {
    hide Step;
    if |calls| > 0 {
      AttemptSameChart(db, calls[..|calls| - 1]);
      StepSameChart(Attempt(db, calls[..|calls| - 1]).0, calls[|calls| - 1]);
    }
  }

  lemma StepKeepsEntry(db: Db, c: Call, e: nat)
    requires e < |db.entries| && (c.RecordCall? ==> c.spec.reversalOf != Some(e))
    ensures e < |Step(db, c).0.entries| && Step(db, c).0.entries[e] == db.entries[e]
  {
    hide Record;
    if c.RecordCall? {
      var _ := RecordCases(db, c.spec);
    }
  }

  lemma {:induction false} AttemptKeepsEntry(db: Db, calls: seq<Call>, e: nat)
    requires e < |db.entries|
    requires forall k :: 0 <= k < |calls| && calls[k].RecordCall? ==> calls[k].spec.reversalOf != Some(e)
    ensures e < |Attempt(db, calls).0.entries| && Attempt(db, calls).0.entries[e] == db.entries[e]
  {
    hide Step;
    if |calls| > 0 {
      AttemptKeepsEntry(db, calls[..|calls| - 1], e);
      StepKeepsEntry(Attempt(db, calls[..|calls| - 1]).0, calls[|calls| - 1], e);
    }
  }

  lemma ClaimSurvives(db: Db, calls: seq<Call>, x: string)
    requires exists e :: 0 <= e < |db.entries| && Claims(db.entries[e], "expense", Document(x))
    requires forall k :: 0 <= k < |calls| ==> Foreign(db, calls[k]) || (calls[k].RecordCall? && calls[k].spec.reversalOf.None?)
    ensures exists e :: 0 <= e < |Attempt(db, calls).0.entries| && Claims(Attempt(db, calls).0.entries[e], "expense", Document(x))
  {
    hide Attempt, MapToEntityType;
    var e :| 0 <= e < |db.entries| && Claims(db.entries[e], "expense", Document(x));
    forall k | 0 <= k < |calls| && calls[k].RecordCall? ensures calls[k].spec.reversalOf != Some(e) {
      assert Foreign(db, calls[k]) || calls[k].spec.reversalOf.None?;
    }
    AttemptKeepsEntry(db, calls, e);
    assert Claims(Attempt(db, calls).0.entries[e], "expense", Document(x));
  }

  lemma KeepsPosted(d: Desk, calls: seq<Call>)
    requires StillPosted(d)
    requires forall k :: 0 <= k < |calls| ==> Foreign(d.db, calls[k]) || (calls[k].RecordCall? && calls[k].spec.reversalOf.None?)
    ensures StillPosted(d.(db := Attempt(d.db, calls).0))
  {
    hide Attempt, Foreign, Claims;
    forall x | x in d.expenses
      ensures exists e :: 0 <= e < |Attempt(d.db, calls).0.entries| && Claims(Attempt(d.db, calls).0.entries[e], "expense", Document(x))
    {
      ClaimSurvives(d.db, calls, x);
    }
  }

  lemma SameBox(db: Db, d: Db, box: CashboxId)
    requires SameChart(db, d)
    ensures BookAccount(d, box) == BookAccount(db, box)
  {
    SameChartSameAccount(db, d, box);
  }

  // ----- requests come and go -----

  /** The request table grew or closed requests, without approving any. */
  ghost predicate OnlyRequests(d: Desk, d': Desk) {
    && d' == d.(requests := d'.requests) && |d.requests| <= |d'.requests|
    && (forall i :: 0 <= i < |d.requests| ==>
          d'.requests[i].expense == d.requests[i].expense && d'.requests[i].status.Approved? == d.requests[i].status.Approved?)
    && (forall i :: |d.requests| <= i < |d'.requests| ==> !d'.requests[i].status.Approved?)
  }

  lemma OnlyRequestsKeeps(d: Desk, d': Desk, x: string, account: AccountId, box: CashboxId)
    requires OnlyRequests(d, d') && Within(d.db, Known(d))
    ensures Within(d'.db, Known(d'))
    ensures BooksMatch(d, x, account, box) ==> BooksMatch(d', x, account, box)
  {
    SameOnKnown(d.db, account, box, OwnedBy(d.requests, x), OwnedBy(d'.requests, x), Known(d));
  }

  lemma RequestKeeps(d: Desk, expense: string, asked: Asked, user: string, reason: string, x: string, account: AccountId, box: CashboxId)
    requires DeskInv(d)
    ensures var d' := RequestEdit(d, expense, asked, user, reason);
      DeskInv(d') && (BooksMatch(d, x, account, box) ==> BooksMatch(d', x, account, box))
  {
    hide StillPosted, Within, Known, BooksMatch;
    var d' := RequestEdit(d, expense, asked, user, reason);
    assert OnlyRequests(d, d');
    SameLists(d, d');
    OnlyRequestsKeeps(d, d', x, account, box);
  }

  lemma SameLists(d: Desk, d': Desk)
    requires d'.db == d.db && d'.expenses == d.expenses
    ensures StillPosted(d') <==> StillPosted(d)
  {
  }

  lemma CloseKeeps(d: Desk, i: nat, status: Status, x: string, account: AccountId, box: CashboxId)
    requires DeskInv(d) && IsPending(d.requests, i) && (status.Declined? || status.Cancelled?)
    ensures var d' := Close(d, i, status);
      DeskInv(d') && (BooksMatch(d, x, account, box) ==> BooksMatch(d', x, account, box))
  {
    OnlyRequestsKeeps(d, Close(d, i, status), x, account, box);
  }

  // ----- other traffic -----

  lemma NewDb(d: Desk, db: Db, x: string, account: AccountId, box: CashboxId)
    requires DeskInv(d) && Within(db, Known(d)) && StillPosted(d.(db := db)) && SameChart(d.db, db)
    requires AccountNetIn(db, account, OwnedBy(d.requests, x)) == AccountNetIn(d.db, account, OwnedBy(d.requests, x))
    requires CashNet(db, box, OwnedBy(d.requests, x)) == CashNet(d.db, box, OwnedBy(d.requests, x))
    ensures DeskInv(d.(db := db)) && (BooksMatch(d, x, account, box) ==> BooksMatch(d.(db := db), x, account, box))
  {
    hide BookAccount, AccountNetIn, CashNet, SameChart;
    var d' := d.(db := db);
    assert Within(d'.db, Known(d')) by {
      assert forall t: string, id: RefId :: Known(d')(t, id) == Known(d)(t, id);
    }
    if PaidInCash(d, x) {
      SameBox(d.db, db, d.expenses[x].cashbox.value);
    }
  }

  lemma OtherKeeps(d: Desk, calls: seq<Call>, x: string, account: AccountId, box: CashboxId)
    requires DeskInv(d) && forall k :: 0 <= k < |calls| ==> Foreign(d.db, calls[k])
    ensures var d' := d.(db := Transact(d.db, calls));
      DeskInv(d') && (BooksMatch(d, x, account, box) ==> BooksMatch(d', x, account, box))
  {
    hide Attempt, CashboxAccount, MapToEntityType, AccountNetIn, CashNet;
    var scope := OwnedBy(d.requests, x);
    forall k | 0 <= k < |calls| ensures Outside(d.db, calls[k], scope) && CallWithin(calls[k], Known(d)) {
      assert Foreign(d.db, calls[k]);
    }
    AttemptOutside(d.db, calls, account, box, scope);
    AttemptWithin(d.db, calls, Known(d));
    KeepsPosted(d, calls);
    AttemptSameChart(d.db, calls);
    NewDb(d, Attempt(d.db, calls).0, x, account, box);
  }

  // ----- creation -----

  predicate Creatable(d: Desk, x: string, row: Row) { x != "" && x !in d.expenses && CashHasBox(row.payment, row.cashbox) && row.category in d.accounts }

  lemma NoLiveDocument(d: Desk, x: string)
    requires Within(d.db, Known(d)) && x !in d.expenses
    ensures FindLive(d.db.entries, "expense", Document(x)).None?
  {
    forall i | 0 <= i < |d.db.entries| ensures !Claims(d.db.entries[i], "expense", Document(x)) {
      assert Known(d)(d.db.entries[i].refType, d.db.entries[i].refId);
    }
  }

  lemma CreationPosts(d: Desk, x: string, row: Row, now: int)
    requires DeskInv(d) && Creatable(d, x, row)
    requires CallsOf(ExpenseRequest(PostArgs(d.accounts, x, row, now))).Some?
    requires Attempt(d.db, CallsOf(ExpenseRequest(PostArgs(d.accounts, x, row, now))).value).1
    ensures row.amount > 0 && ExpenseRequest(PostArgs(d.accounts, x, row, now)).Ask?
    ensures var s := ExpenseRequest(PostArgs(d.accounts, x, row, now)).spec;
      && Record(d.db, s).1.Posted? && s.refType == "expense" && s.refId == Document(x) && s.reversalOf.None?
      && Attempt(d.db, [RecordCall(s)]) == (Record(d.db, s).0, true)
  {
    var s := ExpenseRequest(PostArgs(d.accounts, x, row, now)).spec;
    AttemptOne(d.db, s);
    assert Calls([s]) == [RecordCall(s)];
    AskedTwo(s, s.lines[0], s.lines[1]);
    NoLiveDocument(d, x);
    hide Record, Attempt;
    AcceptedPosts(d.db, s);
  }

  lemma CreatedWithin(d: Desk, x: string, row: Row, s: Spec)
    requires Within(d.db, Known(d)) && s.refType == "expense" && s.refId == Document(x)
    ensures Within(Record(d.db, s).0, Known(d.(expenses := d.expenses[x := row])))
  {
    ExpensesAreExpenses();
    StepWithin(d.db, RecordCall(s), Known(d.(expenses := d.expenses[x := row])));
  }

  lemma CreatedPosted(d: Desk, x: string, row: Row, s: Spec)
    requires StillPosted(d) && Record(d.db, s).1.Posted?
    requires s.refType == "expense" && s.refId == Document(x) && s.reversalOf.None?
    ensures StillPosted(d.(db := Record(d.db, s).0, expenses := d.expenses[x := row]))
  {
    var d' := d.(db := Record(d.db, s).0, expenses := d.expenses[x := row]);
    hide Record, Attempt, Judge, PaySpec, ValidateSpec, MapToEntityType;
    var paid, lines := PostedFacts(d.db, s);
    assert Claims(d'.db.entries[|d.db.entries|], "expense", Document(x));
    AttemptOne(d.db, s);
    KeepsPosted(d, Calls([s]));
    forall y | y in d'.expenses
      ensures exists e :: 0 <= e < |d'.db.entries| && Claims(d'.db.entries[e], "expense", Document(y))
    {
      if y != x {
        assert y in d.(db := Record(d.db, s).0).expenses;
      }
    }
  }

  lemma CreateKeepsInv(d: Desk, x: string, row: Row, s: Spec)
    requires DeskInv(d) && Creatable(d, x, row) && row.amount > 0
    requires Record(d.db, s).1.Posted? && s.refType == "expense" && s.refId == Document(x) && s.reversalOf.None?
    ensures DeskInv(d.(db := Record(d.db, s).0, expenses := d.expenses[x := row]))
  {
    var d' := d.(db := Record(d.db, s).0, expenses := d.expenses[x := row]);
    CreatedWithin(d, x, row, s);
    CreatedPosted(d, x, row, s);
    hide Record, StillPosted, Known;
    KnownFrame(d', d.(expenses := d.expenses[x := row]));
    RowAdded(d, Record(d.db, s).0, x, row);
  }

  lemma RowAdded(d: Desk, db: Db, x: string, row: Row)
    requires DeskInv(d) && Creatable(d, x, row) && row.amount > 0
    requires var d' := d.(db := db, expenses := d.expenses[x := row]); Within(db, Known(d')) && StillPosted(d')
    ensures DeskInv(d.(db := db, expenses := d.expenses[x := row]))
  {
    hide StillPosted, Known, Within;
  }

  lemma KnownFrame(d: Desk, d': Desk)
    requires d.requests == d'.requests && d.expenses == d'.expenses
    ensures forall t: string, id: RefId :: Known(d)(t, id) == Known(d')(t, id)
  {
  }

  /** A new cash expense starts from nothing in its scope. */
  lemma NewExpenseMatches(d: Desk, x: string, row: Row, now: int, account: AccountId, box: CashboxId)
    requires DeskInv(d) && Creatable(d, x, row) && row.amount > 0 && row.payment == "cash"
    requires ExpenseRequest(PostArgs(d.accounts, x, row, now)).Ask?
    requires Record(d.db, ExpenseRequest(PostArgs(d.accounts, x, row, now)).spec).1.Posted?
    ensures var d' := d.(db := Record(d.db, ExpenseRequest(PostArgs(d.accounts, x, row, now)).spec).0, expenses := d.expenses[x := row]);
      BooksMatch(d', x, account, box)
  {
    hide Record, BookAccount, AccountNetIn, CashNet, MapToEntityType, ExpenseRequest;
    var s, scope := ExpenseRequest(PostArgs(d.accounts, x, row, now)).spec, OwnedBy(d.requests, x);
    NothingInScope(d.db, account, box, scope, Known(d));
    FreshPostingNet(d.db, PostArgs(d.accounts, x, row, now), d.accounts[row.category], account, box, scope);
    SameBox(d.db, Record(d.db, s).0, row.cashbox.value);
  }

  /** The books of the others are untouched. */
  lemma OthersMatch(d: Desk, x: string, row: Row, s: Spec, y: string, account: AccountId, box: CashboxId)
    requires BooksMatch(d, y, account, box) && y in d.expenses && y != x && SnapshotsCurrent(d) && x !in d.expenses
    requires s.refType == "expense" && s.refId == Document(x) && s.reversalOf.None?
    ensures BooksMatch(d.(db := Record(d.db, s).0, expenses := d.expenses[x := row]), y, account, box)
  {
    ExpensesAreExpenses();
    StepSameChart(d.db, RecordCall(s));
    hide Record, BookAccount, AccountNetIn, CashNet, MapToEntityType, ExpenseRequest;
    StepOutside(d.db, RecordCall(s), account, box, OwnedBy(d.requests, y));
    if PaidInCash(d, y) {
      SameBox(d.db, Record(d.db, s).0, d.expenses[y].cashbox.value);
    }
  }

  lemma CreateKeeps(d: Desk, x: string, row: Row, now: int, y: string, account: AccountId, box: CashboxId)
    requires DeskInv(d)
    ensures var d' := CreateExpense(d, x, row, now);
      DeskInv(d') && (BooksMatch(d, y, account, box) ==> BooksMatch(d', y, account, box))
  {
    hide Attempt, Record, ExpenseRequest;
    if CreateExpense(d, x, row, now) != d {
      CreationPosts(d, x, row, now);
      var s := ExpenseRequest(PostArgs(d.accounts, x, row, now)).spec;
      CreateKeepsInv(d, x, row, s);
      if y == x && row.payment == "cash" {
        NewExpenseMatches(d, x, row, now, account, box);
      } else if y in d.expenses && BooksMatch(d, y, account, box) {
        OthersMatch(d, x, row, s, y, account, box);
      }
    }
  }

  // ----- approval -----

  lemma CorrectionKeys(a: CorrectionArgs, k: nat)
    requires k < |Calls(CorrectionSpecs(a))|
    ensures var c := Calls(CorrectionSpecs(a))[k];
      c.RecordCall? && c.spec.refId.Derived? && c.spec.refId.request == a.request && c.spec.reversalOf.None?
  {
  }

  /** An approval of a request on a posted expense never falls back to a second original: it
      posts corrections keyed by the request, or nothing when no accounting field changed. */
  lemma ApprovalIsAdditive(d: Desk, i: nat, today: int, now: int)
    requires DeskInv(d) && Approves(d, i, today, now)
    ensures var r := d.requests[i]; var row := d.expenses[r.expense]; var merged := Merge(row, r.asked);
      && r.oldRow == row && RowSane(d.accounts, merged)
      && (AccountingChanged(r.asked, row) ==> !Switches(row.payment, merged.payment))
      && CallsFor(d, i, today, now).value
         == if AccountingChanged(r.asked, row) then Calls(CorrectionSpecs(ArgsOf(d.accounts, i, r, row, today, now))) else []
  {
    hide Attempt, ExpenseRequest, CorrectionSpecs;
    var r := d.requests[i];
    assert RowSane(d.accounts, d.expenses[r.expense]);
    var live := FindLive(d.db.entries, "expense", Document(r.expense));
    var e :| 0 <= e < |d.db.entries| && Claims(d.db.entries[e], "expense", Document(r.expense));
    assert live.Some?;
  }

  /** The calls of the approval of request `i`. */
  ghost predicate KeyedBy(calls: seq<Call>, i: nat) {
    forall k :: 0 <= k < |calls| ==>
      calls[k].RecordCall? && calls[k].spec.refId.Derived? && calls[k].spec.refId.request == i && calls[k].spec.reversalOf.None?
  }

  lemma ApprovalKeys(d: Desk, i: nat, today: int, now: int)
    requires DeskInv(d) && Approves(d, i, today, now)
    ensures KeyedBy(CallsFor(d, i, today, now).value, i)
  {
    ApprovalIsAdditive(d, i, today, now);
    hide Attempt, CallsFor, CorrectionSpecs, DeskInv;
    var calls := CallsFor(d, i, today, now).value;
    forall k | 0 <= k < |calls|
      ensures calls[k].RecordCall? && calls[k].spec.refId.Derived? && calls[k].spec.refId.request == i && calls[k].spec.reversalOf.None?
    {
      CorrectionKeys(ArgsOf(d.accounts, i, d.requests[i], d.expenses[d.requests[i].expense], today, now), k);
    }
  }

  ghost function Applied(d: Desk, i: nat, db: Db, merged: Row, entry: Option<nat>): Desk
    requires i < |d.requests|
  {
    d.(db := db, expenses := d.expenses[d.requests[i].expense := merged],
       requests := d.requests[i := d.requests[i].(status := Approved, appliedEntry := entry)])
  }

  lemma ApprovedWithin(d: Desk, i: nat, calls: seq<Call>, merged: Row, entry: Option<nat>)
    requires Within(d.db, Known(d)) && Decidable(d, i) && KeyedBy(calls, i)
    ensures var db := Attempt(d.db, calls).0; Within(db, Known(Applied(d, i, db, merged, entry)))
  {
    hide Attempt, MapToEntityType;
    AttemptWithin(d.db, calls, Known(Applied(d, i, Attempt(d.db, calls).0, merged, entry)));
  }

  lemma ApprovedPosted(d: Desk, i: nat, calls: seq<Call>, merged: Row, entry: Option<nat>)
    requires StillPosted(d) && Decidable(d, i) && KeyedBy(calls, i)
    ensures var db := Attempt(d.db, calls).0; StillPosted(Applied(d, i, db, merged, entry))
  {
    hide Attempt, MapToEntityType;
    KeepsPosted(d, calls);
    assert d.(db := Attempt(d.db, calls).0).expenses.Keys == Applied(d, i, Attempt(d.db, calls).0, merged, entry).expenses.Keys;
  }

  lemma ApproveKeepsInv(d: Desk, i: nat, calls: seq<Call>, merged: Row, entry: Option<nat>)
    requires DeskInv(d) && Decidable(d, i) && KeyedBy(calls, i) && RowSane(d.accounts, merged)
    ensures var db := Attempt(d.db, calls).0; DeskInv(Applied(d, i, db, merged, entry))
  {
    hide Attempt, StillPosted, Within, Known, KeyedBy, DeskInv;
    InvParts(d);
    ApprovedWithin(d, i, calls, merged, entry);
    ApprovedPosted(d, i, calls, merged, entry);
    RowReplaced(d, i, Attempt(d.db, calls).0, merged, entry);
  }

  lemma InvParts(d: Desk)
    requires DeskInv(d)
    ensures Within(d.db, Known(d)) && StillPosted(d)
  {
  }

  lemma RowReplaced(d: Desk, i: nat, db: Db, merged: Row, entry: Option<nat>)
    requires DeskInv(d) && Decidable(d, i) && RowSane(d.accounts, merged)
    requires Within(db, Known(Applied(d, i, db, merged, entry))) && StillPosted(Applied(d, i, db, merged, entry))
    ensures DeskInv(Applied(d, i, db, merged, entry))
  {
    hide StillPosted, Within, Known;
  }

  /** An approval leaves the books of every other expense alone. */
  lemma ApproveOthers(d: Desk, i: nat, calls: seq<Call>, merged: Row, entry: Option<nat>, x: string, account: AccountId, box: CashboxId)
    requires DeskInv(d) && Decidable(d, i) && KeyedBy(calls, i) && x != d.requests[i].expense
    requires BooksMatch(d, x, account, box)
    ensures BooksMatch(Applied(d, i, Attempt(d.db, calls).0, merged, entry), x, account, box)
  {
    hide Attempt, MapToEntityType, AccountNetIn, CashNet, BookAccount;
    var db, scope := Attempt(d.db, calls).0, OwnedBy(d.requests, x);
    var d' := Applied(d, i, db, merged, entry);
    ApprovedWithin(d, i, calls, merged, entry);
    AttemptOutside(d.db, calls, account, box, scope);
    AttemptSameChart(d.db, calls);
    SameOnKnown(db, account, box, scope, OwnedBy(d'.requests, x), Known(d'));
    if PaidInCash(d', x) {
      SameBox(d.db, db, d.expenses[x].cashbox.value);
    }
  }

  lemma NoCorrectionsMatch(d: Desk, i: nat, merged: Row, entry: Option<nat>, account: AccountId, box: CashboxId)
    requires DeskInv(d) && Decidable(d, i) && BooksMatch(d, d.requests[i].expense, account, box)
    requires var row := d.expenses[d.requests[i].expense];
      merged.category == row.category && merged.amount == row.amount && merged.cashbox == row.cashbox && merged.payment == row.payment
    ensures BooksMatch(Applied(d, i, d.db, merged, entry), d.requests[i].expense, account, box)
  {
    hide MapToEntityType, AccountNetIn, CashNet, BookAccount;
    var x := d.requests[i].expense;
    SameOnKnown(d.db, account, box, OwnedBy(d.requests, x), OwnedBy(Applied(d, i, d.db, merged, entry).requests, x), Known(d));
  }

  lemma RequestUnused(d: Desk, i: nat)
    requires Within(d.db, Known(d)) && IsPending(d.requests, i)
    ensures Unused(d.db, i)
  {
    forall k | 0 <= k < |d.db.entries| && d.db.entries[k].refId.Derived? ensures d.db.entries[k].refId.request != i {
      assert Known(d)(d.db.entries[k].refType, d.db.entries[k].refId);
    }
  }

  lemma CorrectedMatches(d: Desk, i: nat, a: CorrectionArgs, db: Db, merged: Row, entry: Option<nat>, account: AccountId, box: CashboxId)
    requires DeskInv(d) && Decidable(d, i) && BooksMatch(d, d.requests[i].expense, account, box)
    requires PaidInCash(d, d.requests[i].expense) && merged.category in d.accounts && Present(merged.cashbox)
    requires var row := d.expenses[d.requests[i].expense];
      && a.oldAmount == row.amount && a.oldCategory == d.accounts[row.category] && a.oldBox == row.cashbox.value
      && a.newAmount == merged.amount && a.newCategory == d.accounts[merged.category] && a.newBox == merged.cashbox.value
    requires SameChart(d.db, db) && Within(db, Known(Applied(d, i, db, merged, entry)))
    requires var scope := OwnedBy(d.requests, d.requests[i].expense);
      && AccountNetIn(db, account, scope) == AccountNetIn(d.db, account, scope)
         + ExpenseOn(a.newCategory, BookAccount(d.db, a.newBox), a.newAmount, account)
         - ExpenseOn(a.oldCategory, BookAccount(d.db, a.oldBox), a.oldAmount, account)
      && CashNet(db, box, scope) == CashNet(d.db, box, scope)
         + PaidFrom(a.newBox, a.newAmount, box) - PaidFrom(a.oldBox, a.oldAmount, box)
    ensures BooksMatch(Applied(d, i, db, merged, entry), d.requests[i].expense, account, box)
  {
    hide AccountNetIn, CashNet, BookAccount, DeskInv, SameChart, Within;
    var x := d.requests[i].expense;
    var d' := Applied(d, i, db, merged, entry);
    SameOnKnown(db, account, box, OwnedBy(d.requests, x), OwnedBy(d'.requests, x), Known(d'));
    SameBox(d.db, db, a.newBox);
  }

  /** The corrections carry the books of the edited expense from its old row to its new one. */
  lemma CorrectionsMatch(d: Desk, i: nat, today: int, now: int, entry: Option<nat>, account: AccountId, box: CashboxId)
    requires DeskInv(d) && Decidable(d, i) && BooksMatch(d, d.requests[i].expense, account, box)
    requires d.requests[i].oldRow == d.expenses[d.requests[i].expense]
    requires RowSane(d.accounts, Merge(d.requests[i].oldRow, d.requests[i].asked)) && RowSane(d.accounts, d.requests[i].oldRow)
    requires !Switches(d.requests[i].oldRow.payment, Merge(d.requests[i].oldRow, d.requests[i].asked).payment)
    requires var calls := Calls(CorrectionSpecs(ArgsOf(d.accounts, i, d.requests[i], d.requests[i].oldRow, today, now)));
      Attempt(d.db, calls).1
    ensures var r := d.requests[i]; var calls := Calls(CorrectionSpecs(ArgsOf(d.accounts, i, r, r.oldRow, today, now)));
      BooksMatch(Applied(d, i, Attempt(d.db, calls).0, Merge(r.oldRow, r.asked), entry), r.expense, account, box)
  {
    var r := d.requests[i];
    var a, merged, scope := ArgsOf(d.accounts, i, r, r.oldRow, today, now), Merge(r.oldRow, r.asked), OwnedBy(d.requests, r.expense);
    hide Attempt, CorrectionSpecs, AccountNetIn, CashNet, BookAccount, MapToEntityType;
    var db := Attempt(d.db, Calls(CorrectionSpecs(a))).0;
    RequestUnused(d, i);
    if merged.payment == "cash" {
      CorrectionsNet(d.db, a, account, box, scope);
      forall k | 0 <= k < |Calls(CorrectionSpecs(a))|
        ensures var c := Calls(CorrectionSpecs(a))[k];
          c.RecordCall? && c.spec.refId.Derived? && c.spec.refId.request == i && c.spec.reversalOf.None?
      {
        CorrectionKeys(a, k);
      }
      ApprovedWithin(d, i, Calls(CorrectionSpecs(a)), merged, entry);
      CorrectedMatches(d, i, a, db, merged, entry, account, box);
    }
  }

  lemma ApproveKeeps(d: Desk, i: nat, today: int, now: int, x: string, account: AccountId, box: CashboxId)
    requires DeskInv(d)
    ensures var d' := ApproveEdit(d, i, today, now);
      DeskInv(d') && (BooksMatch(d, x, account, box) ==> BooksMatch(d', x, account, box))
  {
    if Approves(d, i, today, now) {
      var r, calls := d.requests[i], CallsFor(d, i, today, now).value;
      var entry, merged := PrimaryEntry(d.db, calls), Merge(d.expenses[r.expense], r.asked);
      ApprovalIsAdditive(d, i, today, now);
      ApprovalKeys(d, i, today, now);
      hide PrimaryEntry, CallsFor, CorrectionSpecs, Merge, Attempt, AccountingChanged;
      ApproveKeepsInv(d, i, calls, merged, entry);
      if BooksMatch(d, x, account, box) {
        if x != r.expense {
          ApproveOthers(d, i, calls, merged, entry, x, account, box);
        } else {
          ApproveOwn(d, i, today, now, entry, account, box);
        }
      }
    }
  }

  lemma ApproveOwn(d: Desk, i: nat, today: int, now: int, entry: Option<nat>, account: AccountId, box: CashboxId)
    requires DeskInv(d) && Approves(d, i, today, now) && BooksMatch(d, d.requests[i].expense, account, box)
    ensures var r := d.requests[i];
      BooksMatch(Applied(d, i, Attempt(d.db, CallsFor(d, i, today, now).value).0, Merge(d.expenses[r.expense], r.asked), entry), r.expense, account, box)
  {
    var r := d.requests[i];
    ApprovalIsAdditive(d, i, today, now);
    assert RowSane(d.accounts, r.oldRow);
    hide CorrectionSpecs, DeskInv, BooksMatch, CallsFor;
    if AccountingChanged(r.asked, r.oldRow) {
      CorrectionsMatch(d, i, today, now, entry, account, box);
    } else {
      NoCorrectionsMatch(d, i, Merge(r.oldRow, r.asked), entry, account, box);
    }
  }

  // ----- whole runs -----

  lemma DoKeeps(d: Desk, op: Op, x: string, account: AccountId, box: CashboxId)
    requires DeskInv(d) && ForeignOp(d, op)
    ensures DeskInv(Do(d, op)) && (BooksMatch(d, x, account, box) ==> BooksMatch(Do(d, op), x, account, box))
  {
    hide DeskInv, BooksMatch, ApproveEdit, CreateExpense, RequestEdit, Transact;
    match op
    case DoRequest(y, asked, user, reason) => RequestKeeps(d, y, asked, user, reason, x, account, box);
    case DoApprove(i, today, now) => ApproveKeeps(d, i, today, now, x, account, box);
    case DoReject(i, why) =>
      if RejectEdit(d, i, why) != d { CloseKeeps(d, i, Declined, x, account, box); }
    case DoCancel(i, user) =>
      if CancelEdit(d, i, user) != d { CloseKeeps(d, i, Cancelled, x, account, box); }
    case DoCreate(y, row, now) => CreateKeeps(d, y, row, now, x, account, box);
    case DoOther(calls) => OtherKeeps(d, calls, x, account, box);
  }

  lemma {:induction false} DoAllKeeps(d: Desk, ops: seq<Op>, x: string, account: AccountId, box: CashboxId)
    requires DeskInv(d) && OthersForeign(d, ops) && BooksMatch(d, x, account, box)
    ensures DeskInv(DoAll(d, ops)) && BooksMatch(DoAll(d, ops), x, account, box)
  {
    hide DeskInv, BooksMatch, Do, ForeignOp;
    if |ops| > 0 {
      var n := |ops| - 1;
      forall k | 0 <= k < n ensures ForeignOp(DoAll(d, ops[..n][..k]), ops[..n][k]) {
        assert ops[..n][..k] == ops[..k];
        assert ForeignOp(DoAll(d, ops[..k]), ops[k]);
      }
      DoAllKeeps(d, ops[..n], x, account, box);
      DoKeeps(DoAll(d, ops[..n]), ops[n], x, account, box);
    }
  }

  /** A desk with no expenses yet, on books that use none of its keys. */
  ghost predicate Opening(d: Desk) {
    d.expenses == map[] && d.requests == [] && Within(d.db, Known(d)) && Mapped(d)
  }

  lemma OpeningInv(d: Desk, x: string, account: AccountId, box: CashboxId)
    requires Opening(d)
    ensures DeskInv(d) && BooksMatch(d, x, account, box)
  {
  }

  lemma MatchedIsFresh(d: Desk, x: string, account: AccountId, box: CashboxId, clean: Db, now: int)
    requires DeskInv(d) && BooksMatch(d, x, account, box) && PaidInCash(d, x) && SameChart(d.db, clean)
    requires var r := ExpenseRequest(PostArgs(d.accounts, x, d.expenses[x], now)); r.Ask? && Record(clean, r.spec).1.Posted?
    ensures var posted := Record(clean, ExpenseRequest(PostArgs(d.accounts, x, d.expenses[x], now)).spec).0;
      && AccountNetIn(d.db, account, OwnedBy(d.requests, x)) == AccountNetIn(posted, account, Everything()) - AccountNetIn(clean, account, Everything())
      && CashNet(d.db, box, OwnedBy(d.requests, x)) == CashNet(posted, box, Everything()) - CashNet(clean, box, Everything())
  {
    hide Record, AccountNetIn, CashNet, BookAccount, ExpenseRequest, SameChart, OwnedBy, Within, StillPosted;
    var row := d.expenses[x];
    FreshPostingNet(clean, PostArgs(d.accounts, x, row, now), d.accounts[row.category], account, box, Everything());
    SameBox(d.db, clean, row.cashbox.value);
  }

  /** After any mix of creations, edit requests, approvals, rejections, cancellations and
      other traffic, the original entry of a cash expense and all of its corrections have, on
      every account and in every cashbox, exactly the effect that posting its current row
      once, on any books with the same chart, would have. */
  lemma EditsRefineFreshPosting(d: Desk, ops: seq<Op>, x: string, account: AccountId, box: CashboxId, clean: Db, now: int)
    requires Opening(d) && OthersForeign(d, ops) && PaidInCash(DoAll(d, ops), x)
    requires SameChart(DoAll(d, ops).db, clean)
    requires var r := ExpenseRequest(PostArgs(d.accounts, x, DoAll(d, ops).expenses[x], now)); r.Ask? && Record(clean, r.spec).1.Posted?
    ensures var last := DoAll(d, ops);
      var posted := Record(clean, ExpenseRequest(PostArgs(d.accounts, x, last.expenses[x], now)).spec).0;
      && AccountNetIn(last.db, account, OwnedBy(last.requests, x)) == AccountNetIn(posted, account, Everything()) - AccountNetIn(clean, account, Everything())
      && CashNet(last.db, box, OwnedBy(last.requests, x)) == CashNet(posted, box, Everything()) - CashNet(clean, box, Everything())
  {
    hide *;
    OpeningInv(d, x, account, box);
    DoAllAccounts(d, ops);
    DoAllKeeps(d, ops, x, account, box);
    MatchedIsFresh(DoAll(d, ops), x, account, box, clean, now);
  }

  lemma {:induction false} DoAllAccounts(d: Desk, ops: seq<Op>)
    ensures DoAll(d, ops).accounts == d.accounts
  {
    if |ops| > 0 {
      DoAllAccounts(d, ops[..|ops| - 1]);
    }
  }

  // ----- where the refinement stops: credit expenses -----

  /** What posting a credit expense does to an account, and that it moves no cash. */
  lemma FreshCreditNet(db: Db, a: ExpenseArgs, category: AccountId, account: AccountId, box: CashboxId, scope: Scope)
    requires a.amount > 0 && a.method_ != "cash" && !a.isAdvance && a.category == Some(category) && category != ""
    requires Record(db, ExpenseRequest(a).spec).1.Posted? && scope("expense", Document(a.id))
    ensures var d := Record(db, ExpenseRequest(a).spec).0;
      && AccountByCode(db.accounts, "211").Some?
      && AccountNetIn(d, account, scope)
         == AccountNetIn(db, account, scope) + ExpenseOn(category, AccountByCode(db.accounts, "211").value, a.amount, account)
      && CashNet(d, box, scope) == CashNet(db, box, scope)
  {
    var s := ExpenseRequest(a).spec;
    hide Record, MapToEntityType;
    var lines := PostedNetIn(db, s, account, scope);
    NoCashEffect(db, s, ById(category), ByCode("211"), a.amount, account, lines);
    PostedCashIn(db, s, box, scope);
  }

  /** The cashbox column holds a cashbox or nothing. */
  predicate RealBox(b: Option<CashboxId>) { b.Some? ==> b.value != "" && b.value != "null" }

  /** The approval of an edit of a credit expense. */
  ghost predicate CreditEdit(d: Desk, i: nat, today: int, now: int) {
    && DeskInv(d) && Approves(d, i, today, now)
    && var row := d.expenses[d.requests[i].expense];
       row.payment != "cash" && RealBox(row.cashbox) && RealBox(Merge(row, d.requests[i].asked).cashbox)
  }

  /** What the approval of an edit does, in figures, whatever the payment method is. */
  lemma ApprovedNet(d: Desk, i: nat, today: int, now: int, account: AccountId, box: CashboxId)
    requires DeskInv(d) && Approves(d, i, today, now)
    requires var row := d.expenses[d.requests[i].expense]; RealBox(row.cashbox) && RealBox(Merge(row, d.requests[i].asked).cashbox)
    ensures var r := d.requests[i]; var row, merged := d.expenses[r.expense], Merge(d.expenses[r.expense], r.asked);
      var d', scope := ApproveEdit(d, i, today, now), OwnedBy(d.requests, r.expense);
      && row.amount > 0 && merged.amount > 0 && row.category in d.accounts && merged.category in d.accounts
      && AccountNetIn(d'.db, account, scope) == AccountNetIn(d.db, account, scope)
         + ExpenseOn(d.accounts[merged.category], BookAccount(d.db, BoxText(merged.cashbox)), merged.amount, account)
         - ExpenseOn(d.accounts[row.category], BookAccount(d.db, BoxText(row.cashbox)), row.amount, account)
      && CashNet(d'.db, box, scope) == CashNet(d.db, box, scope)
         + PaidFrom(BoxText(merged.cashbox), merged.amount, box) - PaidFrom(BoxText(row.cashbox), row.amount, box)
  {
    var r := d.requests[i];
    var row := d.expenses[r.expense];
    ApprovalIsAdditive(d, i, today, now);
    RequestUnused(d, i);
    assert RowSane(d.accounts, row);
    hide Attempt, CorrectionSpecs, AccountNetIn, CashNet, BookAccount, MapToEntityType, CallsFor, PrimaryEntry;
    if AccountingChanged(r.asked, row) {
      CorrectionsNet(d.db, ArgsOf(d.accounts, i, r, row, today, now), account, box, OwnedBy(d.requests, r.expense));
    }
  }

  /** The corrections do not look at the payment method. A credit expense has no cash, and an
      approved edit leaves every cashbox as it was if and only if it changes neither the amount
      nor the cashbox: any other moves the difference, or the whole amount between two boxes. */
  lemma CreditEditMovesCashIff(d: Desk, i: nat, today: int, now: int)
    requires CreditEdit(d, i, today, now)
    ensures var r := d.requests[i]; var row, merged := d.expenses[r.expense], Merge(d.expenses[r.expense], r.asked);
      var d', scope := ApproveEdit(d, i, today, now), OwnedBy(d.requests, r.expense);
      (forall box: CashboxId :: CashNet(d'.db, box, scope) == CashNet(d.db, box, scope))
      <==> merged.amount == row.amount && merged.cashbox == row.cashbox
  {
    var r := d.requests[i];
    var row, merged := d.expenses[r.expense], Merge(d.expenses[r.expense], r.asked);
    hide ApproveEdit, CashNet, BookAccount, AccountNetIn, Approves, DeskInv;
    forall box: CashboxId
      ensures var d', scope := ApproveEdit(d, i, today, now), OwnedBy(d.requests, r.expense);
        row.amount > 0 && merged.amount > 0
        && CashNet(d'.db, box, scope) == CashNet(d.db, box, scope)
         + PaidFrom(BoxText(merged.cashbox), merged.amount, box) - PaidFrom(BoxText(row.cashbox), row.amount, box)
    {
      ApprovedNet(d, i, today, now, "", box);
    }
    PaidSame(BoxText(row.cashbox), row.amount, BoxText(merged.cashbox), merged.amount);
  }

  lemma PaidSame(b: CashboxId, x: Cents, c: CashboxId, y: Cents)
    requires x > 0 && y > 0
    ensures (forall box: CashboxId :: PaidFrom(b, x, box) == PaidFrom(c, y, box)) <==> b == c && x == y
  {
    if forall box: CashboxId :: PaidFrom(b, x, box) == PaidFrom(c, y, box) {
      assert PaidFrom(b, x, b) == PaidFrom(c, y, b);
    }
  }

  /** On the accounts the corrections credit the cash account where posting the row afresh
      credits the payable. The edit turns the posting of the old row into that of the new one
      if and only if the amount stays and both cashboxes book to one account. */
  lemma CreditEditAccountsIff(d: Desk, i: nat, today: int, now: int)
    requires CreditEdit(d, i, today, now) && AccountByCode(d.db.accounts, "211").Some?
    requires var r := d.requests[i]; var row, merged := d.expenses[r.expense], Merge(d.expenses[r.expense], r.asked);
      && AccountByCode(d.db.accounts, "211").value != BookAccount(d.db, BoxText(row.cashbox))
      && AccountByCode(d.db.accounts, "211").value != BookAccount(d.db, BoxText(merged.cashbox))
      && row.category in d.accounts && merged.category in d.accounts
    ensures var r := d.requests[i]; var row, merged := d.expenses[r.expense], Merge(d.expenses[r.expense], r.asked);
      var d', scope, payable := ApproveEdit(d, i, today, now), OwnedBy(d.requests, r.expense), AccountByCode(d.db.accounts, "211").value;
      (forall account: AccountId :: AccountNetIn(d'.db, account, scope) == AccountNetIn(d.db, account, scope)
         + ExpenseOn(d.accounts[merged.category], payable, merged.amount, account) - ExpenseOn(d.accounts[row.category], payable, row.amount, account))
      <==> merged.amount == row.amount && BookAccount(d.db, BoxText(merged.cashbox)) == BookAccount(d.db, BoxText(row.cashbox))
  {
    var r := d.requests[i];
    var row, merged := d.expenses[r.expense], Merge(d.expenses[r.expense], r.asked);
    var payable := AccountByCode(d.db.accounts, "211").value;
    hide ApproveEdit, CashNet, BookAccount, AccountNetIn, Approves, DeskInv;
    forall account: AccountId
      ensures var d', scope := ApproveEdit(d, i, today, now), OwnedBy(d.requests, r.expense);
        row.amount > 0 && merged.amount > 0
        && AccountNetIn(d'.db, account, scope) == AccountNetIn(d.db, account, scope)
         + ExpenseOn(d.accounts[merged.category], BookAccount(d.db, BoxText(merged.cashbox)), merged.amount, account)
         - ExpenseOn(d.accounts[row.category], BookAccount(d.db, BoxText(row.cashbox)), row.amount, account)
    {
      ApprovedNet(d, i, today, now, account, "");
    }
    CreditsSame(payable, BookAccount(d.db, BoxText(row.cashbox)), row.amount, d.accounts[row.category],
                BookAccount(d.db, BoxText(merged.cashbox)), merged.amount, d.accounts[merged.category]);
  }

  lemma CreditsSame(payable: AccountId, b: AccountId, x: Cents, old_: AccountId, c: AccountId, y: Cents, new_: AccountId)
    requires x > 0 && y > 0 && payable != b && payable != c
    ensures (forall account: AccountId ::
               ExpenseOn(new_, c, y, account) - ExpenseOn(old_, b, x, account) == ExpenseOn(new_, payable, y, account) - ExpenseOn(old_, payable, x, account))
       <==> b == c && x == y
  {
    if forall account: AccountId ::
         ExpenseOn(new_, c, y, account) - ExpenseOn(old_, b, x, account) == ExpenseOn(new_, payable, y, account) - ExpenseOn(old_, payable, x, account) {
      assert ExpenseOn(new_, c, y, b) - ExpenseOn(old_, b, x, b) == ExpenseOn(new_, payable, y, b) - ExpenseOn(old_, payable, x, b);
      assert ExpenseOn(new_, c, y, payable) - ExpenseOn(old_, b, x, payable) == ExpenseOn(new_, payable, y, payable) - ExpenseOn(old_, payable, x, payable);
    }
  }
}
