/**
 The edit-request workflow of posted expenses. A request snapshots the row, an approval
 rewrites the row and posts corrections, a rejection or cancellation closes it. The
 functions specify one operation each; the class performs them on its own tables and on
 the engine.
 */
module ExpenseDesk {
  import opened Ledger
  import opened Engine
  import opened Recipes
  import opened Corrections

  datatype Row = Row(
    category: string, amount: Cents, cashbox: Option<CashboxId>, payment: string, date: int, employee: Option<string>,
    description: string)

  /** The fields an edit asks to change. */
  datatype Asked = Asked(
    category: Option<string>, amount: Option<Cents>, cashbox: Option<Option<CashboxId>>,
    payment: Option<string>, date: Option<int>, employee: Option<Option<string>>, description: Option<string>)

  datatype Status = Pending | Approved | Declined | Cancelled

  datatype EditRequest = EditRequest(
    expense: string, requestedBy: string, oldRow: Row, asked: Asked, status: Status, appliedEntry: Option<nat>)

  /** `accounts` is the strict mapping from expense categories to their posting accounts. */
  datatype Desk = Desk(db: Db, expenses: map<string, Row>, requests: seq<EditRequest>, accounts: map<string, AccountId>)

  function Or<T>(o: Option<T>, default: T): T { if o.Some? then o.value else default }

  function Merge(row: Row, a: Asked): Row {
    Row(Or(a.category, row.category), Or(a.amount, row.amount), Or(a.cashbox, row.cashbox),
        Or(a.payment, row.payment), Or(a.date, row.date), Or(a.employee, row.employee), Or(a.description, row.description))
  }

  /** Some field is asked for with a value the row does not have. */
  predicate Differs(a: Asked, row: Row) {
    || (a.category.Some? && a.category.value != row.category) || (a.amount.Some? && a.amount.value != row.amount)
    || (a.cashbox.Some? && a.cashbox.value != row.cashbox) || (a.payment.Some? && a.payment.value != row.payment)
    || (a.date.Some? && a.date.value != row.date) || (a.employee.Some? && a.employee.value != row.employee)
    || (a.description.Some? && a.description.value != row.description)
  }

  /** Some field with accounting weight is asked for and differs from the snapshot. */
  predicate AccountingChanged(a: Asked, before: Row) {
    var m := Merge(before, a);
    m.category != before.category || m.amount != before.amount || m.cashbox != before.cashbox
    || m.payment != before.payment || m.date != before.date
  }

  /** `assertExpenseInvariants`: cash needs a cashbox. */
  predicate CashHasBox(payment: string, cashbox: Option<CashboxId>) { payment == "cash" ==> Present(cashbox) }

  /** A missing cashbox becomes the text "null", which names no cashbox. */
  function BoxText(b: Option<CashboxId>): CashboxId { if b.Some? then b.value else "null" }

  predicate HasPending(requests: seq<EditRequest>, expense: string) {
    exists i :: 0 <= i < |requests| && requests[i].expense == expense && requests[i].status.Pending?
  }

  // ----- the operations -----

  /** `requestExpenseEdit`; the reason is already trimmed. */
  function RequestEdit(d: Desk, expense: string, asked: Asked, user: string, reason: string): Desk {
    if |reason| < 5 || expense !in d.expenses || HasPending(d.requests, expense) then d
    else if Merge(d.expenses[expense], asked) == d.expenses[expense] then d
    else d.(requests := d.requests + [EditRequest(expense, user, d.expenses[expense], asked, Pending, None)])
  }

  predicate IsPending(requests: seq<EditRequest>, i: nat) { i < |requests| && requests[i].status.Pending? }

  function Close(d: Desk, i: nat, status: Status): Desk
    requires i < |d.requests|
  {
    d.(requests := d.requests[i := d.requests[i].(status := status)])
  }

  function CancelEdit(d: Desk, i: nat, user: string): Desk {
    if IsPending(d.requests, i) && d.requests[i].requestedBy == user then Close(d, i, Cancelled) else d
  }

  function RejectEdit(d: Desk, i: nat, reason: string): Desk {
    if |reason| >= 3 && IsPending(d.requests, i) then Close(d, i, Declined) else d
  }

  function ArgsOf(accounts: map<string, AccountId>, i: nat, r: EditRequest, current: Row, today: int, now: int): CorrectionArgs
    requires r.oldRow.category in accounts && Merge(current, r.asked).category in accounts
  {
    var before, merged := r.oldRow, Merge(current, r.asked);
    CorrectionArgs(i, before.amount, merged.amount, accounts[before.category], accounts[merged.category],
                   BoxText(if before.cashbox.Some? then before.cashbox else current.cashbox), BoxText(merged.cashbox), today, now)
  }

  function PostArgs(accounts: map<string, AccountId>, expense: string, row: Row, now: int): ExpenseArgs {
    ExpenseArgs(expense, row.amount, if row.category in accounts then Some(accounts[row.category]) else None,
                row.cashbox, row.payment, false, row.employee, row.date, if row.description == "" then None else Some(row.description), now)
  }

  function CallsOf(r: Request): Option<seq<Call>> {
    match r
    case Refused => None
    case Nothing => Some([])
    case Ask(s) => Some([RecordCall(s)])
  }

  /** The payment method moves between cash and credit. */
  predicate Switches(before: string, after: string) { (before == "cash") != (after == "cash") }

  /** The engine calls the approval of request `r` makes on the current row, or None when it
      is refused before any of them. */
  function ApprovalCalls(db: Db, accounts: map<string, AccountId>, i: nat, r: EditRequest, current: Row, today: int, now: int): Option<seq<Call>> {
    var merged := Merge(current, r.asked);
    if !CashHasBox(merged.payment, merged.cashbox) || merged.amount <= 0 then None
    else if !AccountingChanged(r.asked, r.oldRow) then Some([])
    else if merged.category !in accounts then None
    else if FindLive(db.entries, "expense", Document(r.expense)).None? then
      CallsOf(ExpenseRequest(PostArgs(accounts, r.expense, merged, now)))
    else if r.oldRow.category !in accounts || Switches(r.oldRow.payment, merged.payment) then None
    else Some(Calls(CorrectionSpecs(ArgsOf(accounts, i, r, current, today, now))))
  }

  function EntryOf(o: Outcome): Option<nat> {
    match o
    case Posted(e, _) => Some(e)
    case Replayed(e) => Some(e)
    case _ => None
  }

  /** The first entry any of the calls wrote or found. */
  function PrimaryEntry(db: Db, calls: seq<Call>): Option<nat> {
    if |calls| == 0 then None
    else
      var n := |calls| - 1;
      var earlier := PrimaryEntry(db, calls[..n]);
      if earlier.Some? then earlier else EntryOf(Step(Attempt(db, calls[..n]).0, calls[n]).1)
  }

  /** Request `i` awaits a decision and its expense exists. */
  predicate Decidable(d: Desk, i: nat) { IsPending(d.requests, i) && d.requests[i].expense in d.expenses }

  function CallsFor(d: Desk, i: nat, today: int, now: int): Option<seq<Call>>
    requires Decidable(d, i)
  {
    ApprovalCalls(d.db, d.accounts, i, d.requests[i], d.expenses[d.requests[i].expense], today, now)
  }

  predicate Approves(d: Desk, i: nat, today: int, now: int) {
    Decidable(d, i) && CallsFor(d, i, today, now).Some? && Attempt(d.db, CallsFor(d, i, today, now).value).1
  }

  /** `approveEditRequest`: the row, the postings and the request, or nothing. */
  function ApproveEdit(d: Desk, i: nat, today: int, now: int): Desk {
    if !Approves(d, i, today, now) then d
    else
      var r, calls := d.requests[i], CallsFor(d, i, today, now).value;
      d.(db := Attempt(d.db, calls).0,
         expenses := d.expenses[r.expense := Merge(d.expenses[r.expense], r.asked)],
         requests := d.requests[i := r.(status := Approved, appliedEntry := PrimaryEntry(d.db, calls))])
  }

  /** A daily expense: strict category mapping, approved and posted in one transaction. */
  function CreateExpense(d: Desk, expense: string, row: Row, now: int): Desk {
    if expense == "" || expense in d.expenses || !CashHasBox(row.payment, row.cashbox) || row.category !in d.accounts then d
    else
      var calls := CallsOf(ExpenseRequest(PostArgs(d.accounts, expense, row, now)));
      if calls.None? || !Attempt(d.db, calls.value).1 then d
      else d.(db := Attempt(d.db, calls.value).0, expenses := d.expenses[expense := row])
  }

  // ----- the service as it runs -----

  lemma AttemptSnoc(db: Db, calls: seq<Call>, c: Call)
    requires Attempt(db, calls).1
    ensures var d := Attempt(db, calls).0;
      && Attempt(db, calls + [c]) == (Step(d, c).0, !Step(d, c).1.Rejected?)
      && PrimaryEntry(db, calls + [c]) == (var p := PrimaryEntry(db, calls); if p.Some? then p else EntryOf(Step(d, c).1))
  {
    hide Step;
    assert (calls + [c])[..|calls|] == calls;
  }

  lemma CallsSnoc(specs: seq<Spec>, s: Spec)
    ensures Calls(specs + [s]) == Calls(specs) + [RecordCall(s)]
  {
  }

  lemma CallsFail(db: Db, done: seq<Spec>, rest: seq<Spec>)
    requires !Attempt(db, Calls(done)).1
    ensures !Attempt(db, Calls(done + rest)).1
  {
    CallsCat(done, rest);
    AttemptCat(db, Calls(done), Calls(rest));
  }

  class ExpenseService {
    const engine: FinancialEngine
    const accounts: map<string, AccountId>
    var expenses: map<string, Row>
    var requests: seq<EditRequest>

    function Snapshot(): Desk
      reads this, engine
    {
      Desk(engine.Snapshot(), expenses, requests, accounts)
    }

    constructor (engine: FinancialEngine, accounts: map<string, AccountId>)
      ensures this.engine == engine
      ensures Snapshot() == Desk(engine.Snapshot(), map[], [], accounts)
    {
      this.engine, this.accounts := engine, accounts;
      expenses, requests := map[], [];
    }

    method RequestExpenseEdit(expense: string, asked: Asked, user: string, reason: string) returns (ok: bool)
      modifies this`requests
      ensures Snapshot() == RequestEdit(old(Snapshot()), expense, asked, user, reason)
      ensures ok <==>
        && |reason| >= 5 && expense in expenses && Differs(asked, expenses[expense])
        && forall i :: 0 <= i < |old(requests)| && old(requests)[i].expense == expense ==> old(requests)[i].status != Pending
      ensures ok ==> requests == old(requests) + [EditRequest(expense, user, expenses[expense], asked, Pending, None)]
      ensures !ok ==> requests == old(requests)
    {
      if |reason| < 5 || expense !in expenses || HasPending(requests, expense) {
        return false;
      }
      var before := expenses[expense];
      if Merge(before, asked) == before {
        return false;
      }
      requests := requests + [EditRequest(expense, user, before, asked, Pending, None)];
      return true;
    }

    method CancelEditRequest(i: nat, user: string) returns (ok: bool)
      modifies this`requests
      ensures Snapshot() == CancelEdit(old(Snapshot()), i, user)
      ensures ok <==> i < |old(requests)| && old(requests)[i].status == Pending && old(requests)[i].requestedBy == user
      ensures requests == if ok then old(requests)[i := old(requests)[i].(status := Cancelled)] else old(requests)
    {
      ok := IsPending(requests, i) && requests[i].requestedBy == user;
      if ok {
        requests := requests[i := requests[i].(status := Cancelled)];
      }
    }

    method RejectEditRequest(i: nat, reason: string) returns (ok: bool)
      modifies this`requests
      ensures Snapshot() == RejectEdit(old(Snapshot()), i, reason)
      ensures ok <==> |reason| >= 3 && i < |old(requests)| && old(requests)[i].status == Pending
      ensures requests == if ok then old(requests)[i := old(requests)[i].(status := Declined)] else old(requests)
    {
      ok := |reason| >= 3 && IsPending(requests, i);
      if ok {
        requests := requests[i := requests[i].(status := Declined)];
      }
    }

    /** One posting on top of those already done. */
    method PostNext(ghost start: Db, ghost done: seq<Spec>, s: Spec, before: Option<nat>) returns (ok: bool, primary: Option<nat>)
      requires Attempt(start, Calls(done)) == (engine.Snapshot(), true) && before == PrimaryEntry(start, Calls(done))
      modifies engine
      ensures (engine.Snapshot(), ok) == Attempt(start, Calls(done + [s]))
      ensures primary == PrimaryEntry(start, Calls(done + [s]))
    {
      AttemptSnoc(start, Calls(done), RecordCall(s));
      CallsSnoc(done, s);
      var o := engine.RecordTransaction(s, true);
      ok := !o.Rejected?;
      primary := if before.Some? then before else EntryOf(o);
    }

    /** Up to three engine calls; stops at the first that fails. */
    method ApplyExpenseEditCorrections(a: CorrectionArgs) returns (ok: bool, primary: Option<nat>)
      modifies engine
      ensures ok == Attempt(old(engine.Snapshot()), Calls(CorrectionSpecs(a))).1
      ensures ok ==> engine.Snapshot() == Attempt(old(engine.Snapshot()), Calls(CorrectionSpecs(a))).0
      ensures ok ==> primary == PrimaryEntry(old(engine.Snapshot()), Calls(CorrectionSpecs(a)))
    {
      hide Step, AmountDeltaSpec, CashboxSwapSpec, ReclassifySpec;
      ghost var start := engine.Snapshot();
      var amountChanged, categoryChanged, cashboxChanged := AmountChanged(a), CategoryChanged(a), BoxChanged(a);
      ok, primary := true, None;
      ghost var specs1: seq<Spec>, specs2: seq<Spec> := [], [];
      assert Calls([]) == [];
      if amountChanged {
        var spec := AmountDeltaSpec(a, if categoryChanged then a.oldCategory else a.newCategory,
                                    if cashboxChanged then a.oldBox else a.newBox);
        ok, primary := PostNext(start, [], spec, primary);
        specs1 := [spec];
        assert [] + [spec] == [spec];
        if !ok {
          CallsFail(start, specs1, CorrectionSpecs(a)[1..]);
          assert CorrectionSpecs(a) == specs1 + CorrectionSpecs(a)[1..];
          return;
        }
      }
      specs2 := specs1;
      if cashboxChanged {
        var spec := CashboxSwapSpec(a);
        ok, primary := PostNext(start, specs1, spec, primary);
        specs2 := specs1 + [spec];
        if !ok {
          CallsFail(start, specs2, CorrectionSpecs(a)[|specs2|..]);
          assert CorrectionSpecs(a) == specs2 + CorrectionSpecs(a)[|specs2|..];
          return;
        }
      }
      if categoryChanged {
        var spec := ReclassifySpec(a);
        ok, primary := PostNext(start, specs2, spec, primary);
        assert CorrectionSpecs(a) == specs2 + [spec];
      } else {
        assert CorrectionSpecs(a) == specs2;
      }
    }

    /** `postViaEngine`: one expense posting in the caller's transaction. */
    method PostFresh(a: ExpenseArgs) returns (ok: bool, entry: Option<nat>)
      modifies engine
      ensures var calls := CallsOf(ExpenseRequest(a));
        && ok == (calls.Some? && Attempt(old(engine.Snapshot()), calls.value).1)
        && (ok ==> engine.Snapshot() == Attempt(old(engine.Snapshot()), calls.value).0
                   && entry == PrimaryEntry(old(engine.Snapshot()), calls.value))
    {
      hide Step, ExpenseRequest;
      match ExpenseRequest(a) {
        case Refused => return false, None;
        case Nothing => return true, None;
        case Ask(s) =>
          assert Calls([]) == [] && Calls([] + [s]) == [RecordCall(s)];
          ok, entry := PostNext(engine.Snapshot(), [], s, None);
      }
    }

    /** The postings of an approval, inside the approver's transaction. */
    method PostApproval(i: nat, r: EditRequest, current: Row, today: int, now: int) returns (ok: bool, applied: Option<nat>)
      modifies engine
      ensures var calls := ApprovalCalls(old(engine.Snapshot()), accounts, i, r, current, today, now);
        && ok == (calls.Some? && Attempt(old(engine.Snapshot()), calls.value).1)
        && (ok ==> engine.Snapshot() == Attempt(old(engine.Snapshot()), calls.value).0
                   && applied == PrimaryEntry(old(engine.Snapshot()), calls.value))
    {
      hide Step, Record, CorrectionSpecs, ExpenseRequest;
      var merged := Merge(current, r.asked);
      if !CashHasBox(merged.payment, merged.cashbox) || merged.amount <= 0 {
        return false, None;
      }
      if !AccountingChanged(r.asked, r.oldRow) {
        return true, None;
      }
      if merged.category !in accounts {
        return false, None;
      }
      if FindLive(engine.entries, "expense", Document(r.expense)).None? {
        ok, applied := PostFresh(PostArgs(accounts, r.expense, merged, now));
      } else if r.oldRow.category !in accounts || Switches(r.oldRow.payment, merged.payment) {
        return false, None;
      } else {
        ok, applied := ApplyExpenseEditCorrections(ArgsOf(accounts, i, r, current, today, now));
      }
    }

    /** The approval transaction: everything it did is undone on failure. */
    method ApproveEditRequest(i: nat, today: int, now: int) returns (ok: bool)
      modifies this`expenses, this`requests, engine
      ensures Snapshot() == ApproveEdit(old(Snapshot()), i, today, now)
      ensures ok == Approves(old(Snapshot()), i, today, now)
    {
      if !IsPending(requests, i) || requests[i].expense !in expenses {
        return false;
      }
      hide Attempt, ApprovalCalls;
      var saved, r, current := Snapshot(), requests[i], expenses[requests[i].expense];
      expenses := expenses[r.expense := Merge(current, r.asked)];
      var applied;
      ok, applied := PostApproval(i, r, current, today, now);
      if ok {
        requests := requests[i := r.(status := Approved, appliedEntry := applied)];
      } else {
        engine.Restore(saved.db);
        expenses := saved.expenses;
      }
    }

    /** The daily-expense path of `createExpense`. */
    method CreateDailyExpense(expense: string, row: Row, now: int) returns (ok: bool)
      modifies this`expenses, engine
      ensures Snapshot() == CreateExpense(old(Snapshot()), expense, row, now)
      ensures ok ==> expense in expenses && expenses[expense] == row
    {
      if expense == "" || expense in expenses || !CashHasBox(row.payment, row.cashbox) || row.category !in accounts {
        return false;
      }
      hide Attempt, ExpenseRequest;
      var saved := Snapshot();
      expenses := expenses[expense := row];
      var entry;
      ok, entry := PostFresh(PostArgs(accounts, expense, row, now));
      if !ok {
        engine.Restore(saved.db);
        expenses := saved.expenses;
      }
    }
  }
}
