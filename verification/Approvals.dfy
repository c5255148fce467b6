/**
 Multi-level approval of expenses: a submission spawns one row per matching rule, rows are
 decided in any order, and the decision that completes them posts the expense.
 */
module Approvals {
  import opened Sums
  import opened Ledger
  import opened Engine
  import opened Runs
  import opened Recipes
  import opened ExpenseDesk
  import Corrections
  import Reversal
  import opened RecipeBooks
  import Alignment

  datatype Rule = Rule(level: nat, role: string, minAmount: Cents, maxAmount: Option<Cents>, isActive: bool)

  datatype Decision = Waiting | Agreed | TurnedDown

  datatype Approval = Approval(expense: string, level: nat, role: string, status: Decision, decidedBy: Option<string>, reason: string)

  datatype Claim = Claim(
    amount: Cents, category: Option<AccountId>, cashbox: Option<CashboxId>, payment: string, date: int,
    description: Option<string>, isAdvance: bool, employee: Option<string>, isApproved: bool, rejectedReason: string)

  datatype Workflow = Workflow(db: Db, claims: map<string, Claim>, approvals: seq<Approval>)

  predicate Covers(r: Rule, amount: Cents) {
    r.isActive && amount >= r.minAmount && (r.maxAmount.Some? ==> amount <= r.maxAmount.value)
  }

  /** `spawnForExpense`, over the rules in level order. */
  function Spawned(expense: string, amount: Cents, rules: seq<Rule>): (rows: seq<Approval>)
    ensures forall i :: 0 <= i < |rows| ==> rows[i].expense == expense && rows[i].status.Waiting?
  {
    if |rules| == 0 then []
    else
      var n := |rules| - 1;
      var front := Spawned(expense, amount, rules[..n]);
      if Covers(rules[n], amount) then front + [Approval(expense, rules[n].level, rules[n].role, Waiting, None, "")] else front
  }

  /** A rule is active and the amount lies within its bounds, both included. */
  ghost function AppliesTo(amount: Cents): Rule -> bool {
    (r: Rule) => r.isActive && r.minAmount <= amount && (r.maxAmount == None || amount <= r.maxAmount.value)
  }

  ghost function WaitingFor(expense: string): Rule -> Approval { (r: Rule) => Approval(expense, r.level, r.role, Waiting, None, "") }

  /** One waiting row for each rule that applies, in their order, at its level and for its role. */
  lemma {:induction false} SpawnedPerRule(expense: string, amount: Cents, rules: seq<Rule>)
    ensures Spawned(expense, amount, rules) == Alignment.Image(WaitingFor(expense), Keep(AppliesTo(amount), rules))
    ensures |Spawned(expense, amount, rules)| > 0 <==> exists k :: 0 <= k < |rules| && AppliesTo(amount)(rules[k])
  {
    if |rules| > 0 {
      var n := |rules| - 1;
      SpawnedPerRule(expense, amount, rules[..n]);
      assert Covers(rules[n], amount) == AppliesTo(amount)(rules[n]);
      hide AppliesTo, WaitingFor, Covers;
      var front, f := Keep(AppliesTo(amount), rules[..n]), WaitingFor(expense);
      if AppliesTo(amount)(rules[n]) {
        assert f(rules[n]) == Approval(expense, rules[n].level, rules[n].role, Waiting, None, "") by { Row(expense, rules[n]); }
        assert Alignment.Image(f, front + [rules[n]]) == Alignment.Image(f, front) + [f(rules[n])];
      } else {
        assert front + [] == front;
      }
      if k :| 0 <= k < |rules[..n]| && AppliesTo(amount)(rules[..n][k]) {
        assert rules[k] == rules[..n][k];
      }
      if k :| 0 <= k < |rules| && AppliesTo(amount)(rules[k]) {
        assert k < n ==> rules[..n][k] == rules[k];
      }
    }
  }

  lemma Row(expense: string, r: Rule)
    ensures WaitingFor(expense)(r) == Approval(expense, r.level, r.role, Waiting, None, "")
  {
  }

  /** Some row of the expense has the status. */
  predicate Has(approvals: seq<Approval>, expense: string, status: Decision) {
    exists i :: 0 <= i < |approvals| && approvals[i].expense == expense && approvals[i].status == status
  }

  function DecisionArgs(x: string, c: Claim, now: int): ExpenseArgs {
    ExpenseArgs(x, c.amount, c.category, c.cashbox, c.payment, false, None, c.date, c.description, now)
  }

  function DirectArgs(x: string, c: Claim, now: int): ExpenseArgs {
    ExpenseArgs(x, c.amount, c.category, c.cashbox, c.payment, c.isAdvance, c.employee, c.date, c.description, now)
  }

  /** The posting of the last decision; advances are not passed on. */
  function DecisionPosting(x: string, c: Claim, now: int): Request { ExpenseRequest(DecisionArgs(x, c, now)) }

  /** The posting of a submission or of a single-step approval. */
  function DirectPosting(x: string, c: Claim, now: int): Request { ExpenseRequest(DirectArgs(x, c, now)) }

  /** The books after a posting, or None when it fails. */
  function PostOrFail(db: Db, r: Request): Option<Db> {
    if !r.Ask? || Record(db, r.spec).1.Rejected? then None else Some(Record(db, r.spec).0)
  }

  /** The skeleton of `createExpense`. */
  function Submit(w: Workflow, x: string, c: Claim, rules: seq<Rule>, now: int): Workflow {
    var rows := Spawned(x, c.amount, rules);
    if x == "" || x in w.claims || !CashHasBox(c.payment, c.cashbox) || c.amount <= 0 then w
    else if |rows| > 0 then
      w.(claims := w.claims[x := c.(isApproved := false)], approvals := w.approvals + rows)
    else
      var posted := PostOrFail(w.db, DirectPosting(x, c, now));
      if posted.None? then w else w.(db := posted.value, claims := w.claims[x := c.(isApproved := true)])
  }

  function Decided(a: Approval, agree: bool, user: string, reason: string): Approval {
    a.(status := if agree then Agreed else TurnedDown, decidedBy := Some(user), reason := reason)
  }

  predicate Undecided(w: Workflow, i: nat) { i < |w.approvals| && w.approvals[i].status.Waiting? }

  /** `decide`: the row, the flag and the posting, or nothing. */
  function Decide(w: Workflow, i: nat, agree: bool, user: string, reason: string, now: int): Workflow {
    if !Undecided(w, i) || (!agree && reason == "") then w
    else
      var x, rows := w.approvals[i].expense, w.approvals[i := Decided(w.approvals[i], agree, user, reason)];
      if x !in w.claims then w.(approvals := rows)
      else if Has(rows, x, TurnedDown) then
        w.(approvals := rows, claims := w.claims[x := w.claims[x].(isApproved := false, rejectedReason := reason)])
      else if Has(rows, x, Waiting) then w.(approvals := rows)
      else
        var c := w.claims[x];
        var posted := PostOrFail(w.db, DecisionPosting(x, c, now));
        if !CashHasBox(c.payment, c.cashbox) || posted.None? then w
        else w.(db := posted.value, approvals := rows, claims := w.claims[x := c.(isApproved := true)])
  }

  /** Single-step `approveExpense`, which does not look at the approval rows. */
  function ApproveDirectly(w: Workflow, x: string, now: int): Workflow {
    if x !in w.claims || w.claims[x].isApproved || !CashHasBox(w.claims[x].payment, w.claims[x].cashbox) then w
    else
      var posted := PostOrFail(w.db, DirectPosting(x, w.claims[x], now));
      if posted.None? then w else w.(db := posted.value, claims := w.claims[x := w.claims[x].(isApproved := true)])
  }

  datatype Op =
    | DoSubmit(expense: string, claim: Claim, rules: seq<Rule>, now: int)
    | DoDecide(row: nat, agree: bool, user: string, reason: string, now: int)
    | DoOther(calls: seq<Call>)

  function Do(w: Workflow, op: Op): Workflow {
    match op
    case DoSubmit(x, c, rules, now) => Submit(w, x, c, rules, now)
    case DoDecide(i, agree, user, reason, now) => Decide(w, i, agree, user, reason, now)
    case DoOther(calls) => w.(db := Transact(w.db, calls))
  }

  function DoAll(w: Workflow, ops: seq<Op>): Workflow {
    if |ops| == 0 then w else Do(DoAll(w, ops[..|ops| - 1]), ops[|ops| - 1])
  }

  // ----- what every run keeps -----

  /** One for each entry, live or void, that was posted for the expense. */
  function PostingOf(x: string): Entry -> int { (e: Entry) => if e.refType == "expense" && e.refId == Document(x) then 1 else 0 }

  function Postings(db: Db, x: string): int { Sum(PostingOf(x), db.entries) }

  /** No row of the expense is waiting or refused. */
  predicate Complete(approvals: seq<Approval>, x: string) { !Has(approvals, x, Waiting) && !Has(approvals, x, TurnedDown) }

  /** An expense is posted once if its rows are complete, and never otherwise. */
  ghost predicate Settled(w: Workflow, x: string) {
    && (x in w.claims ==> w.claims[x].isApproved == Complete(w.approvals, x))
    && Postings(w.db, x) == if x in w.claims && Complete(w.approvals, x) then 1 else 0
  }

  ghost predicate RowsKnown(w: Workflow) {
    forall i :: 0 <= i < |w.approvals| ==> w.approvals[i].expense in w.claims
  }

  ghost predicate WorkflowInv(w: Workflow) { RowsKnown(w) && forall x: string :: Settled(w, x) }

  /** Other traffic posts no expenses. */
  predicate Unrelated(op: Op) {
    op.DoOther? ==> forall k :: 0 <= k < |op.calls| && op.calls[k].RecordCall? ==> op.calls[k].spec.refType != "expense"
  }

  lemma PostingKeyed(s: Spec, lines: seq<Line>, x: string)
    ensures PostingOf(x)(NewEntry(s, lines)) == if s.refType == "expense" && s.refId == Document(x) then 1 else 0
  {
  }

  lemma RecordPostings(db: Db, s: Spec, x: string)
    ensures Postings(Record(db, s).0, x) == Postings(db, x)
         + if Record(db, s).1.Posted? && s.refType == "expense" && s.refId == Document(x) then 1 else 0
  {
    hide Record, PaySpec, ValidateSpec, MapToEntityType;
    if Record(db, s).1.Posted? {
      var paid, lines := PostedFacts(db, s);
      var f := PostingOf(x);
      if s.reversalOf.Some? {
        var k := s.reversalOf.value;
        SumSet(f, paid.entries, k, paid.entries[k].(isVoid := true));
      }
      SumSnoc(f, VoidOriginal(paid.entries, s.reversalOf), NewEntry(s, lines));
      PostingKeyed(s, lines, x);
    } else {
      var _ := RecordCases(db, s);
    }
  }

  lemma {:induction false} OthersPostNone(db: Db, calls: seq<Call>, x: string)
    requires forall k :: 0 <= k < |calls| && calls[k].RecordCall? ==> calls[k].spec.refType != "expense"
    ensures Postings(Attempt(db, calls).0, x) == Postings(db, x)
  {
    hide Record, Postings;
    if |calls| > 0 {
      var n := |calls| - 1;
      OthersPostNone(db, calls[..n], x);
      var front := Attempt(db, calls[..n]).0;
      match calls[n]
      case RecordCall(s) => RecordPostings(front, s, x);
      case CashOnlyCall(m, t, id, now) => SameEntries(front, Step(front, calls[n]).0, x);
    }
  }

  lemma SameEntries(db: Db, d: Db, x: string)
    requires d.entries == db.entries
    ensures Postings(d, x) == Postings(db, x)
  {
  }

  /** A posting of an expense that has none yet really posts. */
  lemma FirstPosting(db: Db, x: string, a: ExpenseArgs, y: string)
    requires Postings(db, x) == 0 && a.id == x && PostOrFail(db, ExpenseRequest(a)).Some?
    ensures Postings(PostOrFail(db, ExpenseRequest(a)).value, y) == Postings(db, y) + if y == x then 1 else 0
  {
    var s := ExpenseRequest(a).spec;
    NoneLive(db, x);
    assert s.refType == "expense" && s.refId == Document(x);
    AskedSome(db, a);
    RecordPostings(db, s, y);
  }

  lemma NoneLive(db: Db, x: string)
    requires Postings(db, x) == 0
    ensures FindLive(db.entries, "expense", Document(x)).None?
  {
    var live := FindLive(db.entries, "expense", Document(x));
    if live.Some? {
      SumAtLeast(PostingOf(x), db.entries, live.value);
    }
  }

  lemma {:induction false} SumAtLeast(f: Entry -> int, s: seq<Entry>, i: nat)
    requires i < |s| && forall k :: 0 <= k < |s| ==> f(s[k]) >= 0
    ensures Sum(f, s) >= f(s[i])
  {
    SumNonNegative(f, s[..|s| - 1]);
    if i < |s| - 1 {
      SumAtLeast(f, s[..|s| - 1], i);
    }
  }

  lemma {:induction false} SumNonNegative(f: Entry -> int, s: seq<Entry>)
    requires forall k :: 0 <= k < |s| ==> f(s[k]) >= 0
    ensures Sum(f, s) >= 0
  {
    if |s| > 0 {
      SumNonNegative(f, s[..|s| - 1]);
    }
  }

  /** An accepted expense posting is no replay once nothing is live, and is never empty. */
  lemma AskedSome(db: Db, a: ExpenseArgs)
    requires ExpenseRequest(a).Ask? && FindLive(db.entries, "expense", Document(a.id)).None?
    requires !Record(db, ExpenseRequest(a).spec).1.Rejected?
    ensures Record(db, ExpenseRequest(a).spec).1.Posted?
  {
    hide Record;
    var s := ExpenseRequest(a).spec;
    SumTwo(AskedDebit(), s.lines[0], s.lines[1]);
    assert s.lines == [s.lines[0], s.lines[1]];
    AcceptedPosts(db, s);
  }

  lemma SubmitKeeps(w: Workflow, x: string, c: Claim, rules: seq<Rule>, now: int)
    requires WorkflowInv(w)
    ensures WorkflowInv(Submit(w, x, c, rules, now))
  {
    var w', rows := Submit(w, x, c, rules, now), Spawned(x, c.amount, rules);
    hide ExpenseRequest, PostOrFail, Postings;
    if w' != w {
      assert Settled(w, x);
      forall y: string ensures Settled(w', y) {
        assert Settled(w, y);
        if |rows| > 0 {
          SubmittedRows(w.approvals, rows, x, y);
        } else {
          FirstPosting(w.db, x, DirectArgs(x, c, now), y);
          if y == x {
            NoRows(w, x);
          }
        }
      }
    }
  }

  lemma NoRows(w: Workflow, x: string)
    requires RowsKnown(w) && x !in w.claims
    ensures Complete(w.approvals, x)
  {
  }

  lemma SubmittedRows(approvals: seq<Approval>, rows: seq<Approval>, x: string, y: string)
    requires |rows| > 0 && forall i :: 0 <= i < |rows| ==> rows[i].expense == x && rows[i].status.Waiting?
    ensures if y == x then !Complete(approvals + rows, x) else Complete(approvals + rows, y) == Complete(approvals, y)
  {
    var all := approvals + rows;
    assert all[|approvals|] == rows[0];
    forall status: Decision | y != x ensures Has(all, y, status) == Has(approvals, y, status) {
      if Has(approvals, y, status) {
        var i :| 0 <= i < |approvals| && approvals[i].expense == y && approvals[i].status == status;
        assert all[i] == approvals[i];
      }
    }
  }

  lemma DecidedRows(approvals: seq<Approval>, i: nat, a: Approval, y: string)
    requires i < |approvals| && a.expense == approvals[i].expense != y
    ensures Complete(approvals[i := a], y) == Complete(approvals, y)
  {
    forall status: Decision ensures Has(approvals[i := a], y, status) == Has(approvals, y, status) {
      if Has(approvals, y, status) {
        var k :| 0 <= k < |approvals| && approvals[k].expense == y && approvals[k].status == status;
        assert approvals[i := a][k] == approvals[k];
      }
    }
  }

  lemma DecideKeeps(w: Workflow, i: nat, agree: bool, user: string, reason: string, now: int)
    requires WorkflowInv(w)
    ensures WorkflowInv(Decide(w, i, agree, user, reason, now))
  {
    var w' := Decide(w, i, agree, user, reason, now);
    if w' != w {
      var x := w.approvals[i].expense;
      assert Settled(w, x) && x in w.claims && Has(w.approvals, x, Waiting);
      hide ExpenseRequest, PostOrFail, Postings;
      forall y: string ensures Settled(w', y) {
        DecideSettles(w, i, agree, user, reason, now, y);
      }
    }
  }

  lemma DecideSettles(w: Workflow, i: nat, agree: bool, user: string, reason: string, now: int, y: string)
    requires WorkflowInv(w) && Undecided(w, i) && w.approvals[i].expense in w.claims
    ensures Settled(Decide(w, i, agree, user, reason, now), y)
  {
    var x, a := w.approvals[i].expense, Decided(w.approvals[i], agree, user, reason);
    var rows := w.approvals[i := a];
    assert Settled(w, x) && Settled(w, y) && Has(w.approvals, x, Waiting);
    hide ExpenseRequest, PostOrFail, Postings, Has, WorkflowInv;
    if y != x {
      DecidedRows(w.approvals, i, a, y);
    }
    if Complete(rows, x) && PostOrFail(w.db, DecisionPosting(x, w.claims[x], now)).Some? {
      var c := w.claims[x];
      FirstPosting(w.db, x, DecisionArgs(x, c, now), y);
    }
  }

  lemma OtherKeeps(w: Workflow, calls: seq<Call>)
    requires WorkflowInv(w) && Unrelated(DoOther(calls))
    ensures WorkflowInv(w.(db := Transact(w.db, calls)))
  {
    hide Attempt, Postings;
    forall y: string ensures Settled(w.(db := Transact(w.db, calls)), y) {
      assert Settled(w, y);
      OthersPostNone(w.db, calls, y);
    }
  }

  /** Under any interleaving of submissions, decisions and other traffic, an expense is posted
      exactly once if every row is agreed, and not at all while one is waiting or turned down. */
  lemma {:induction false} PostedIffComplete(w: Workflow, ops: seq<Op>)
    requires WorkflowInv(w) && forall k :: 0 <= k < |ops| ==> Unrelated(ops[k])
    ensures WorkflowInv(DoAll(w, ops))
  {
    if |ops| > 0 {
      var before := DoAll(w, ops[..|ops| - 1]);
      PostedIffComplete(w, ops[..|ops| - 1]);
      hide WorkflowInv, Submit, Decide, Transact;
      match ops[|ops| - 1]
      case DoSubmit(x, c, rules, now) => SubmitKeeps(before, x, c, rules, now);
      case DoDecide(i, agree, user, reason, now) => DecideKeeps(before, i, agree, user, reason, now);
      case DoOther(calls) => OtherKeeps(before, calls);
    }
  }

  /** Rows are appended, and a decided row never changes again. */
  ghost predicate Grows(older: seq<Approval>, newer: seq<Approval>) {
    |older| <= |newer| && forall i :: 0 <= i < |older| ==>
      newer[i].expense == older[i].expense && (!older[i].status.Waiting? ==> newer[i] == older[i])
  }

  lemma {:induction false} DecidedOnce(w: Workflow, ops: seq<Op>)
    ensures Grows(w.approvals, DoAll(w, ops).approvals)
  {
    if |ops| > 0 {
      DecidedOnce(w, ops[..|ops| - 1]);
      hide PostOrFail;
    }
  }

  /** A turned-down row rules the expense out for good. */
  lemma RejectedForever(w: Workflow, ops: seq<Op>, i: nat)
    requires WorkflowInv(w) && (forall k :: 0 <= k < |ops| ==> Unrelated(ops[k]))
    requires i < |w.approvals| && w.approvals[i].status.TurnedDown?
    ensures Postings(DoAll(w, ops).db, w.approvals[i].expense) == 0
  {
    PostedIffComplete(w, ops);
    DecidedOnce(w, ops);
    hide DoAll, Postings;
    var last, x := DoAll(w, ops), w.approvals[i].expense;
    assert last.approvals[i] == w.approvals[i];
    assert Has(last.approvals, x, TurnedDown);
    assert Settled(last, x);
  }

  /** The one step that posts an expense with rows agrees to its last waiting row. */
  lemma OnlyTheLastAgreementPosts(w: Workflow, op: Op, x: string)
    requires WorkflowInv(w) && Unrelated(op) && x in w.claims
    requires Postings(Do(w, op).db, x) != Postings(w.db, x)
    ensures op.DoDecide? && op.agree && Undecided(w, op.row) && w.approvals[op.row].expense == x
    ensures forall k :: 0 <= k < |w.approvals| && w.approvals[k].expense == x && k != op.row ==> w.approvals[k].status.Agreed?
  {
    match op
    case DoOther(calls) => OthersPostNone(w.db, calls, x);
    case DoSubmit(y, c, rules, now) =>
      if Submit(w, y, c, rules, now).db != w.db {
        assert Settled(w, y);
        FirstPosting(w.db, y, DirectArgs(y, c, now), x);
      }
    case DoDecide(i, agree, user, reason, now) => DecisionThatPosts(w, i, agree, user, reason, now, x);
  }

  lemma DecisionThatPosts(w: Workflow, i: nat, agree: bool, user: string, reason: string, now: int, x: string)
    requires WorkflowInv(w) && x in w.claims
    requires Postings(Decide(w, i, agree, user, reason, now).db, x) != Postings(w.db, x)
    ensures agree && Undecided(w, i) && w.approvals[i].expense == x
    ensures forall k :: 0 <= k < |w.approvals| && w.approvals[k].expense == x && k != i ==> w.approvals[k].status.Agreed?
  {
    hide ExpenseRequest, Postings, PostOrFail;
    var y, a := w.approvals[i].expense, Decided(w.approvals[i], agree, user, reason);
    var rows, c := w.approvals[i := a], w.claims[y];
    assert Complete(rows, y);
    assert rows[i].status.Agreed?;
    assert Settled(w, y) && Has(w.approvals, y, Waiting);
    FirstPosting(w.db, y, DecisionArgs(y, c, now), x);
    forall k | 0 <= k < |w.approvals| && w.approvals[k].expense == x && k != i ensures w.approvals[k].status.Agreed? {
      assert rows[k] == w.approvals[k];
    }
  }

  /** A workflow without expenses, on books without expense entries, is where runs start. */
  lemma StartsSettled(w: Workflow)
    requires w.claims == map[] && w.approvals == []
    requires forall i :: 0 <= i < |w.db.entries| ==> w.db.entries[i].refType != "expense"
    ensures WorkflowInv(w)
  {
    forall x: string ensures Settled(w, x) {
      SumZero(PostingOf(x), w.db.entries);
    }
  }

  // ----- when a posting goes through -----

  /** What a caller can check before an expense is posted for the first time. */
  ghost predicate CanPost(db: Db, a: ExpenseArgs) {
    && a.amount > 0 && a.description != Some("") && !db.locked && PlainCounterpart(db, ExpenseDebit(a))
    && if a.method_ == "cash" then a.cashbox.Some? && LiquidBox(db, a.cashbox.value) else PlainCounterpart(db, ByCode("211"))
  }

  lemma PostsWhenItCan(db: Db, a: ExpenseArgs)
    requires a.id != "" && Postings(db, a.id) == 0
    ensures PostOrFail(db, ExpenseRequest(a)).Some? <==> CanPost(db, a)
  {
    NoneLive(db, a.id);
    hide Record, LiquidBox, PlainCounterpart, ExpenseDebit, Postings;
    if a.description != Some("") {
      if a.method_ == "cash" {
        CashExpensePostsIff(db, a);
      } else {
        CreditExpensePostsIff(db, a);
      }
      if PostOrFail(db, ExpenseRequest(a)).Some? {
        AskedSome(db, a);
      }
    } else if ExpenseRequest(a).Ask? {
      UndescribedFails(db, ExpenseRequest(a).spec);
    }
  }

  lemma UndescribedFails(db: Db, s: Spec)
    requires s.description == ""
    ensures Record(db, s).1.Rejected?
  {
  }

  /** The last agreement takes effect exactly when the expense can be posted; otherwise nothing
      changes and its row is still waiting. */
  lemma LastAgreementIff(w: Workflow, i: nat, user: string, reason: string, now: int)
    requires WorkflowInv(w) && Undecided(w, i) && w.approvals[i].expense != ""
    requires Complete(w.approvals[i := Decided(w.approvals[i], true, user, reason)], w.approvals[i].expense)
    ensures var x := w.approvals[i].expense;
      Decide(w, i, true, user, reason, now) != w <==> CanPost(w.db, DecisionArgs(x, w.claims[x], now))
  {
    var x := w.approvals[i].expense;
    assert Settled(w, x) && Has(w.approvals, x, Waiting);
    PostsWhenItCan(w.db, DecisionArgs(x, w.claims[x], now));
    hide PostOrFail, ExpenseRequest, CanPost, WorkflowInv, Postings;
    assert Decided(w.approvals[i], true, user, reason).status.Agreed?;
    var rows := w.approvals[i := Decided(w.approvals[i], true, user, reason)];
    assert rows[i] != w.approvals[i];
    if !CashHasBox(w.claims[x].payment, w.claims[x].cashbox) {
      NoBoxCannot(w.db, x, w.claims[x], now);
    }
  }

  lemma NoBoxCannot(db: Db, x: string, c: Claim, now: int)
    requires !CashHasBox(c.payment, c.cashbox)
    ensures !CanPost(db, DecisionArgs(x, c, now)) && !CanPost(db, DirectArgs(x, c, now))
  {
  }

  // ----- each operation in full -----

  ghost predicate RowOf(w: Workflow, k: nat, x: string, status: Decision) {
    k < |w.approvals| && w.approvals[k].expense == x && w.approvals[k].status == status
  }

  lemma HasIff(approvals: seq<Approval>, i: nat, a: Approval, x: string, status: Decision)
    requires i < |approvals| && approvals[i].expense == a.expense == x && a.status != status
    ensures Has(approvals[i := a], x, status) <==> exists k: nat :: k < |approvals| && k != i && approvals[k].expense == x && approvals[k].status == status
  {
    var rows := approvals[i := a];
    if Has(rows, x, status) {
      var k :| 0 <= k < |rows| && rows[k].expense == x && rows[k].status == status;
      assert approvals[k] == rows[k];
    }
    if k: nat :| k < |approvals| && k != i && approvals[k].expense == x && approvals[k].status == status {
      assert rows[k] == approvals[k];
    }
  }

  /** What is posted for a claim; `direct` passes on that it is an advance. */
  ghost function PostedAs(x: string, c: Claim, direct: bool, now: int): ExpenseArgs {
    ExpenseArgs(x, c.amount, c.category, c.cashbox, c.payment, direct && c.isAdvance, if direct then c.employee else None, c.date, c.description, now)
  }

  /** A decision needs a waiting row, and a reason to turn it down. It writes who decided and why
      on that row and no other. A row turned down, now or before, clears the flag and leaves its
      reason; an agreement that leaves another row waiting does nothing more; the last one posts
      the expense and sets the flag, or nothing at all happens. */
  lemma DecideMeans(w: Workflow, i: nat, agree: bool, user: string, reason: string, now: int)
    requires i < |w.approvals|
    ensures var a, x, d := w.approvals[i], w.approvals[i].expense, Decide(w, i, agree, user, reason, now);
      var rows := w.approvals[i := a.(status := if agree then Agreed else TurnedDown, decidedBy := Some(user), reason := reason)];
      var refused := !agree || exists k: nat :: k != i && RowOf(w, k, x, TurnedDown);
      var pending := exists k: nat :: k != i && RowOf(w, k, x, Waiting);
      if a.status != Waiting || (!agree && reason == "") then d == w
      else if x !in w.claims then d == w.(approvals := rows)
      else if refused then d == w.(approvals := rows, claims := w.claims[x := w.claims[x].(isApproved := false, rejectedReason := reason)])
      else if pending then d == w.(approvals := rows)
      else d == w || (d == w.(db := d.db, approvals := rows, claims := w.claims[x := w.claims[x].(isApproved := true)])
                      && d.db == After(w.db, ExpenseRequest(PostedAs(x, w.claims[x], false, now))))
  {
    var a, x := w.approvals[i], w.approvals[i].expense;
    var decided := Decided(a, agree, user, reason);
    var rows := w.approvals[i := decided];
    HasIff(w.approvals, i, decided, x, Waiting);
    if agree {
      HasIff(w.approvals, i, decided, x, TurnedDown);
    } else {
      assert rows[i].status == TurnedDown && rows[i].expense == x;
    }
    RowsOf(w, i, x, Waiting);
    RowsOf(w, i, x, TurnedDown);
    hide Has, RowOf, PostOrFail, DecisionPosting;
  }

  lemma RowsOf(w: Workflow, i: nat, x: string, status: Decision)
    ensures (exists k: nat :: k != i && RowOf(w, k, x, status)) <==>
      exists k: nat :: k < |w.approvals| && k != i && w.approvals[k].expense == x && w.approvals[k].status == status
  {
    if k: nat :| k < |w.approvals| && k != i && w.approvals[k].expense == x && w.approvals[k].status == status {
      assert RowOf(w, k, x, status);
    }
  }

  /** A submission is taken if and only if it has a new key, a positive amount and a cashbox to
      pay cash from, and a rule applies or it can be posted at once. It is approved, and posted,
      exactly when no rule applies. */
  lemma SubmitIff(w: Workflow, x: string, c: Claim, rules: seq<Rule>, now: int)
    requires WorkflowInv(w)
    ensures var d := Submit(w, x, c, rules, now); var ruled := exists k :: 0 <= k < |rules| && AppliesTo(c.amount)(rules[k]);
      var taken := x != "" && x !in w.claims && c.amount > 0 && (c.payment == "cash" ==> c.cashbox.Some? && c.cashbox.value != "")
                   && (ruled || CanPost(w.db, DirectArgs(x, c, now)));
      && (x in d.claims && x !in w.claims <==> taken)
      && (taken ==> d.claims == w.claims[x := c.(isApproved := !ruled)])
      && (!taken ==> d == w) && (ruled ==> d.db == w.db)
      && (taken && !ruled ==> d.db == After(w.db, ExpenseRequest(PostedAs(x, c, true, now))) && d.approvals == w.approvals)
  {
    SpawnedPerRule(x, c.amount, rules);
    if x !in w.claims {
      assert Settled(w, x);
      if x != "" { PostsWhenItCan(w.db, DirectArgs(x, c, now)); }
    }
    hide WorkflowInv, Settled, Spawned, PostOrFail, CanPost, ExpenseRequest, AppliesTo;
  }

  /** Single-step approval sets the flag and posts, unless the expense has the flag or cannot be
      posted; then it does nothing. It leaves the rows alone. */
  lemma DirectMeans(w: Workflow, x: string, now: int)
    requires WorkflowInv(w) && x in w.claims && x != ""
    ensures var d := ApproveDirectly(w, x, now);
      if !w.claims[x].isApproved && CanPost(w.db, DirectArgs(x, w.claims[x], now))
      then d == w.(db := After(w.db, ExpenseRequest(PostedAs(x, w.claims[x], true, now))), claims := w.claims[x := w.claims[x].(isApproved := true)])
      else d == w
  {
    assert Settled(w, x);
    if !w.claims[x].isApproved {
      PostsWhenItCan(w.db, DirectArgs(x, w.claims[x], now));
      NoBoxNoPosting(w.db, x, w.claims[x], now);
    }
    hide WorkflowInv, PostOrFail, CanPost, ExpenseRequest;
  }

  lemma NoBoxNoPosting(db: Db, x: string, c: Claim, now: int)
    ensures !CashHasBox(c.payment, c.cashbox) ==> !CanPost(db, DirectArgs(x, c, now))
  {
    if !CashHasBox(c.payment, c.cashbox) {
      NoBoxCannot(db, x, c, now);
    }
  }

  // ----- where it stops -----

  /** Single-step approval posts without looking at the rows. It keeps the workflow's promise
      if and only if it does nothing: the expense is approved already, or cannot be posted. */
  lemma DirectKeepsIff(w: Workflow, x: string, now: int)
    requires WorkflowInv(w) && x in w.claims && x != ""
    ensures WorkflowInv(ApproveDirectly(w, x, now)) <==> w.claims[x].isApproved || !CanPost(w.db, DirectArgs(x, w.claims[x], now))
    ensures !w.claims[x].isApproved && CanPost(w.db, DirectArgs(x, w.claims[x], now)) ==>
      var last := ApproveDirectly(w, x, now); Postings(last.db, x) == 1 && !Complete(last.approvals, x)
  {
    var a := DirectArgs(x, w.claims[x], now);
    assert Settled(w, x);
    if !w.claims[x].isApproved {
      PostsWhenItCan(w.db, a);
      if CashHasBox(w.claims[x].payment, w.claims[x].cashbox) {
        if CanPost(w.db, a) {
          FirstPosting(w.db, x, a, x);
          hide PostOrFail, ExpenseRequest, CanPost, Postings, Has;
          assert !Settled(ApproveDirectly(w, x, now), x);
        }
      } else {
        NoBoxCannot(w.db, x, w.claims[x], now);
      }
    }
  }

  /** A row turned down after a single-step approval clears the flag, and the expense is posted
      all the same if and only if it could be. */
  lemma DirectThenTurnedDown(w: Workflow, i: nat, user: string, reason: string, now: int)
    requires WorkflowInv(w) && Undecided(w, i) && w.approvals[i].expense != "" && reason != ""
    ensures var x := w.approvals[i].expense; var last := Decide(ApproveDirectly(w, x, now), i, false, user, reason, now);
      && !last.claims[x].isApproved && Has(last.approvals, x, TurnedDown)
      && Postings(last.db, x) == if CanPost(w.db, DirectArgs(x, w.claims[x], now)) then 1 else 0
  {
    var x := w.approvals[i].expense;
    assert Settled(w, x) && Has(w.approvals, x, Waiting);
    DirectKeepsIff(w, x, now);
    PostsWhenItCan(w.db, DirectArgs(x, w.claims[x], now));
    hide Postings, PostOrFail, ExpenseRequest, CanPost, WorkflowInv;
    if !CashHasBox(w.claims[x].payment, w.claims[x].cashbox) {
      NoBoxCannot(w.db, x, w.claims[x], now);
    }
    var rows := w.approvals[i := Decided(w.approvals[i], false, user, reason)];
    assert rows[i].expense == x && rows[i].status.TurnedDown?;
    assert Has(rows, x, TurnedDown);
  }

  /** Approval through rows asks for the same posting as the other two paths if and only if the
      expense is not an advance to an employee. */
  lemma RowsForgetAdvancesIff(x: string, c: Claim, now: int)
    requires c.amount > 0 && CashHasBox(c.payment, c.cashbox)
    ensures DirectPosting(x, c, now) == DecisionPosting(x, c, now) <==> !(c.isAdvance && Present(c.employee))
  {
    var direct, decided := DirectPosting(x, c, now), DecisionPosting(x, c, now);
    assert c.isAdvance && Present(c.employee) ==> direct.spec.lines[0].employee.Some? && decided.spec.lines[0].employee.None?;
  }

  function DebitAccount(db: Db, a: ExpenseArgs): AccountId {
    if CounterAccount(db, ExpenseDebit(a)).Some? then CounterAccount(db, ExpenseDebit(a)).value else ""
  }

  function CreditAccount(db: Db, a: ExpenseArgs): AccountId {
    var credit := if a.method_ == "cash" && a.cashbox.Some? then CashboxAccount(db, a.cashbox.value) else AccountByCode(db.accounts, "211");
    if credit.Some? then credit.value else ""
  }

  /** A posted expense adds its amount to the debit account, and takes it off one that does not
      depend on who asked. */
  lemma PostedExpense(db: Db, a: ExpenseArgs, account: AccountId)
    requires PostsRequest(db, ExpenseRequest(a))
    ensures AccountNet(Record(db, ExpenseRequest(a).spec).0, account)
         == AccountNet(db, account) + Corrections.ExpenseOn(DebitAccount(db, a), CreditAccount(db, a), a.amount, account)
  {
    hide Record, AccountNet;
    var s := ExpenseRequest(a).spec;
    var lines := Reversal.PostedAccountNet(db, s, account);
    if a.method_ == "cash" {
      Corrections.OneCashLegEffect(db, s, ExpenseDebit(a), a.cashbox.value, a.amount, account, lines);
    } else {
      Corrections.NoCashEffect(db, s, ExpenseDebit(a), ByCode("211"), a.amount, account, lines);
    }
  }

  /** On the books: an advance approved through rows stands on its category instead of on the
      employee's account, by the whole amount, and every other account is the same. */
  lemma ForgottenAdvance(db: Db, x: string, c: Claim, now: int, account: AccountId)
    requires c.isAdvance && Present(c.employee)
    requires PostsRequest(db, DirectPosting(x, c, now)) && PostsRequest(db, DecisionPosting(x, c, now))
    ensures var direct, decided := Record(db, DirectPosting(x, c, now).spec).0, Record(db, DecisionPosting(x, c, now).spec).0;
      var personal, category := DebitAccount(db, DirectArgs(x, c, now)), DebitAccount(db, DecisionArgs(x, c, now));
      && AccountByCode(db.accounts, GL_EMPLOYEE_RECEIVABLE) == Some(personal)
      && AccountNet(decided, account) == AccountNet(direct, account)
         + (if account == category then c.amount else 0) - (if account == personal then c.amount else 0)
  {
    PostedExpense(db, DirectArgs(x, c, now), account);
    PostedExpense(db, DecisionArgs(x, c, now), account);
    hide AccountNet;
    OneLegResolved(db, DirectPosting(x, c, now).spec);
  }

  lemma OneLegResolved(db: Db, s: Spec)
    requires Record(db, s).1.Posted? && |s.lines| > 0
    ensures ResolveAccount(db, s.lines[0]).Some?
  {
    hide Record;
    var paid, lines := PostedFacts(db, s);
    ResolveFrame(db, paid, s.lines[0]);
    assert Resolve(paid, s.lines[0]).Some?;
  }

  // ----- the service as it runs -----

  class ApprovalService {
    const engine: FinancialEngine
    var claims: map<string, Claim>
    var approvals: seq<Approval>

    function Snapshot(): Workflow
      reads this, engine
    {
      Workflow(engine.Snapshot(), claims, approvals)
    }

    constructor (engine: FinancialEngine)
      ensures this.engine == engine
      ensures Snapshot() == Workflow(engine.Snapshot(), map[], [])
    {
      this.engine := engine;
      claims, approvals := map[], [];
    }

    method SpawnForExpense(expense: string, amount: Cents, rules: seq<Rule>) returns (spawned: nat)
      modifies this`approvals
      ensures approvals == old(approvals) + Spawned(expense, amount, rules) && spawned == |Spawned(expense, amount, rules)|
    {
      spawned := 0;
      for k := 0 to |rules|
        invariant approvals == old(approvals) + Spawned(expense, amount, rules[..k])
        invariant spawned == |Spawned(expense, amount, rules[..k])|
      {
        assert rules[..k + 1][..k] == rules[..k];
        if Covers(rules[k], amount) {
          approvals := approvals + [Approval(expense, rules[k].level, rules[k].role, Waiting, None, "")];
          spawned := spawned + 1;
        }
      }
      assert rules[..|rules|] == rules;
    }

    /** The group-by of the rows of one expense. */
    method Summary(expense: string) returns (pending: nat, rejected: nat)
      ensures pending > 0 <==> Has(approvals, expense, Waiting)
      ensures rejected > 0 <==> Has(approvals, expense, TurnedDown)
    {
      pending, rejected := 0, 0;
      for k := 0 to |approvals|
        invariant pending > 0 <==> exists j :: 0 <= j < k && approvals[j].expense == expense && approvals[j].status == Waiting
        invariant rejected > 0 <==> exists j :: 0 <= j < k && approvals[j].expense == expense && approvals[j].status == TurnedDown
      {
        if approvals[k].expense == expense {
          match approvals[k].status {
            case Waiting => pending := pending + 1;
            case TurnedDown => rejected := rejected + 1;
            case Agreed =>
          }
        }
      }
    }

    method PostRequest(r: Request) returns (ok: bool)
      modifies engine
      ensures ok == PostOrFail(old(engine.Snapshot()), r).Some?
      ensures ok ==> engine.Snapshot() == PostOrFail(old(engine.Snapshot()), r).value
    {
      if !r.Ask? {
        return false;
      }
      var o := engine.RecordTransaction(r.spec, true);
      return !o.Rejected?;
    }

    /** `decide`: one transaction, rolled back when the posting fails. */
    method DecideRow(i: nat, agree: bool, user: string, reason: string, now: int) returns (ok: bool)
      modifies this`claims, this`approvals, engine
      ensures Snapshot() == Decide(old(Snapshot()), i, agree, user, reason, now)
      ensures ok ==> i < |approvals| && !approvals[i].status.Waiting?
      ensures !ok ==> Snapshot() == old(Snapshot())
    {
      if !Undecided(Snapshot(), i) || (!agree && reason == "") {
        return false;
      }
      var saved := Snapshot();
      hide PostOrFail, ExpenseRequest;
      approvals := approvals[i := Decided(approvals[i], agree, user, reason)];
      var x := approvals[i].expense;
      if x !in claims {
        return true;
      }
      var pending, rejected := Summary(x);
      if rejected > 0 {
        claims := claims[x := claims[x].(isApproved := false, rejectedReason := reason)];
      } else if pending == 0 {
        var c := claims[x];
        claims := claims[x := c.(isApproved := true)];
        ok := CashHasBox(c.payment, c.cashbox);
        if ok {
          ok := PostRequest(DecisionPosting(x, c, now));
        }
        if !ok {
          engine.Restore(saved.db);
          claims, approvals := saved.claims, saved.approvals;
          return false;
        }
      }
      return true;
    }

    /** The skeleton of `createExpense`: spawn rows, or post at once when no rule applies. */
    method SubmitExpense(x: string, c: Claim, rules: seq<Rule>, now: int) returns (ok: bool)
      modifies this`claims, this`approvals, engine
      ensures Snapshot() == Submit(old(Snapshot()), x, c, rules, now)
      ensures !ok ==> Snapshot() == old(Snapshot())
    {
      if x == "" || x in claims || !CashHasBox(c.payment, c.cashbox) || c.amount <= 0 {
        return false;
      }
      hide PostOrFail, ExpenseRequest, Spawned, DirectPosting;
      var saved := Snapshot();
      claims := claims[x := c.(isApproved := false)];
      var spawned := SpawnForExpense(x, c.amount, rules);
      if spawned > 0 {
        return true;
      }
      claims := claims[x := c.(isApproved := true)];
      assert claims == saved.claims[x := c.(isApproved := true)] && approvals == saved.approvals;
      ok := PostRequest(DirectPosting(x, c, now));
      if !ok {
        engine.Restore(saved.db);
        claims, approvals := saved.claims, saved.approvals;
      }
    }

    /** Single-step `approveExpense`. */
    method ApproveExpense(x: string, now: int) returns (ok: bool)
      modifies this`claims, engine
      ensures Snapshot() == ApproveDirectly(old(Snapshot()), x, now)
      ensures !ok ==> Snapshot() == old(Snapshot())
    {
      if x !in claims || claims[x].isApproved || !CashHasBox(claims[x].payment, claims[x].cashbox) {
        return false;
      }
      var saved, c := Snapshot(), claims[x];
      hide PostOrFail, ExpenseRequest;
      claims := claims[x := c.(isApproved := true)];
      ok := PostRequest(DirectPosting(x, c, now));
      if !ok {
        engine.Restore(saved.db);
        claims := saved.claims;
      }
    }
  }
}
