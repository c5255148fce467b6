/**
 Paying a wage: the payable part settles what the employee is owed, and the excess is an
 advance or a bonus. Each leg is a transaction of its own, so a call can stop half way.
 */
module Wages {
  import opened Sums
  import opened Ledger
  import opened Alignment
  import opened Engine
  import opened Runs
  import opened Recipes
  import opened Corrections
  import Approvals
  import Chart
  import RecipeBooks
  import Written = Postings

  const GL_SALARIES := "521"
  const PERSONAL_CODES: set<string> := {GL_EMPLOYEE_PAYABLE, GL_EMPLOYEE_RECEIVABLE}

  datatype Handling = AsAdvance | AsBonus

  /** The ids stand for the keys the database hands out to the rows of each leg. */
  datatype WageArgs = WageArgs(
    employee: string, amount: Cents, cashbox: CashboxId, handling: Option<Handling>,
    settlement: string, bonus: string, bonusSettlement: string, advance: string, today: int, now: int)

  /** The shift a call names, as it is found. */
  datatype Shift = NotGiven | Unknown | Found(status: string, cashbox: CashboxId)

  /** What the call finds outside the ledger: an active employee, the shift, whether the caller
      may pay out of a cashbox without one, whether an advance can be booked (its category is
      active and mapped, the caller may pick the employee, and some warehouse is active), and
      the approval rules. */
  datatype Setup = Setup(
    employeeActive: bool, shift: Shift, directCashbox: bool, advanceOpen: bool, rules: seq<Approvals.Rule>)

  datatype WageOutcome = BadAmount | NoCashbox | NoEmployee | NeedsHandling | NoExcess | Stopped(done: nat) | Paid

  // ----- the employee's balance -----

  /** A line's effect on the accounts of some codes, as far as it is tagged with the employee. */
  function EmployeeOn(accounts: seq<Account>, employee: string, codes: set<string>): Line -> int {
    (l: Line) => if l.employee == Some(employee) && CodeOf(accounts, l.account) in codes then l.debit - l.credit else 0
  }

  function EmployeeIn(accounts: seq<Account>, employee: string, codes: set<string>): Entry -> int {
    (e: Entry) => if e.isVoid then 0 else Sum(EmployeeOn(accounts, employee, codes), e.lines)
  }

  function EmployeeNet(db: Db, employee: string, codes: set<string>): Cents {
    Sum(EmployeeIn(db.accounts, employee, codes), db.entries)
  }

  /** `v_employee_gl_balance`: what the employee owes, less what he is owed. */
  function Balance(db: Db, employee: string): Cents { EmployeeNet(db, employee, PERSONAL_CODES) }

  /** `payableBalance`. */
  function Owed(db: Db, employee: string): nat { if Balance(db, employee) < 0 then -Balance(db, employee) else 0 }

  // ----- the legs -----

  function PayablePart(payable: nat, amount: nat): nat { if amount <= payable then amount else payable }

  function ExcessOf(payable: nat, amount: nat): nat { amount - PayablePart(payable, amount) }

  /** `recordSettlement` in cash: debit the payable, credit the cashbox. */
  function SettleSpec(a: WageArgs, id: string, amount: Cents): Spec {
    OneCashLeg("employee_settlement", Document(id), a.today, "settlement", a.now,
               OfEmployee(GL_EMPLOYEE_PAYABLE, a.employee), a.cashbox, Out, amount, "employee_settlement")
  }

  /** The advance as a daily expense in cash: debit the employee's account. */
  function AdvanceSpec(a: WageArgs, amount: Cents): Spec {
    OneCashLeg("expense", Document(a.advance), a.today, "advance", a.now,
               OfEmployee(GL_EMPLOYEE_RECEIVABLE, a.employee), a.cashbox, Out, amount, "expense")
  }

  function AdvanceArgs(a: WageArgs, amount: Cents): ExpenseArgs {
    ExpenseArgs(a.advance, amount, None, Some(a.cashbox), "cash", true, Some(a.employee), a.today, Some("advance"), a.now)
  }

  /** What the daily-expense path asks the engine for is that spec. */
  lemma AdvanceIsAnExpense(a: WageArgs, amount: Cents)
    requires amount > 0 && a.cashbox != "" && a.employee != ""
    ensures ExpenseRequest(AdvanceArgs(a, amount)) == Ask(AdvanceSpec(a, amount))
  {
  }

  /** `fn_account_id`: the first leaf with the code. */
  function LeafByCode(accounts: seq<Account>, code: string): Option<AccountId> {
    if |accounts| == 0 then None
    else if accounts[0].code == code && accounts[0].isLeaf then Some(accounts[0].id)
    else LeafByCode(accounts[1..], code)
  }

  predicate BonusPosts(db: Db) {
    LeafByCode(db.accounts, GL_SALARIES).Some? && LeafByCode(db.accounts, GL_EMPLOYEE_PAYABLE).Some?
  }

  /** The accrual of a bonus: debit salaries, credit the payable, both for the employee. */
  function AccrualLines(db: Db, a: WageArgs, amount: Cents): seq<Line>
    requires BonusPosts(db)
  {
    [Line(LeafByCode(db.accounts, GL_SALARIES).value, amount, 0, None, Some(a.employee)),
     Line(LeafByCode(db.accounts, GL_EMPLOYEE_PAYABLE).value, 0, amount, None, Some(a.employee))]
  }

  /** `addBonus` with the posting procedure behind it, which writes the entry itself: no
      lockdown and no guard, and nothing at all when one of its accounts is missing. */
  function Accrue(db: Db, a: WageArgs, amount: Cents): Db {
    if !BonusPosts(db) then db
    else db.(entries := db.entries + [Entry("employee_txn", Document(a.bonus), a.today, AccrualLines(db, a, amount), None, false)])
  }

  /** A shift that is given is open, or closing, and belongs to the cashbox. */
  predicate ShiftFits(o: Setup, a: WageArgs) {
    match o.shift
    case NotGiven => true
    case Unknown => false
    case Found(status, box) => (status == "open" || status == "pending_close") && box == a.cashbox
  }

  /** The checks of `recordSettlement` before its transaction. */
  predicate SettleOpen(o: Setup, a: WageArgs) { ShiftFits(o, a) && (o.shift.NotGiven? ==> o.directCashbox) }

  /** The checks of the advance path before its posting. */
  predicate AdvanceOpen(o: Setup, a: WageArgs) { o.advanceOpen && ShiftFits(o, a) }

  /** A leg posts, is an accrual, or is closed: its own checks throw before it does anything. */
  datatype Leg = Posting(spec: Spec) | Accrual(amount: nat) | Closed

  function Settlement(o: Setup, a: WageArgs, id: string, amount: nat): Leg {
    if SettleOpen(o, a) then Posting(SettleSpec(a, id, amount)) else Closed
  }

  function SettleLegs(o: Setup, a: WageArgs, part: nat): seq<Leg> { if part > 0 then [Settlement(o, a, a.settlement, part)] else [] }

  /** The legs of an excess: an advance that some approval rule covers is only submitted. */
  function ExcessLegs(o: Setup, a: WageArgs, excess: nat): seq<Leg> {
    if excess == 0 || a.handling.None? then []
    else if a.handling.value.AsBonus? then [Accrual(excess), Settlement(o, a, a.bonusSettlement, excess)]
    else if !AdvanceOpen(o, a) then [Closed]
    else if |Approvals.Spawned(a.advance, excess, o.rules)| > 0 then []
    else [Posting(AdvanceSpec(a, excess))]
  }

  function Legs(payable: nat, o: Setup, a: WageArgs): seq<Leg>
    requires a.amount > 0
  {
    SettleLegs(o, a, PayablePart(payable, a.amount)) + ExcessLegs(o, a, ExcessOf(payable, a.amount))
  }

  /** One leg, committed on its own. */
  function Take(db: Db, a: WageArgs, leg: Leg): (Db, bool) {
    match leg
    case Posting(s) => if Record(db, s).1.Rejected? then (db, false) else (Record(db, s).0, true)
    case Accrual(amount) => (Accrue(db, a, amount), true)
    case Closed => (db, false)
  }

  /** The legs one after the other, up to the first failure. */
  function InTurn(db: Db, a: WageArgs, legs: seq<Leg>): (r: (Db, nat))
    ensures r.1 <= |legs|
  {
    if |legs| == 0 then (db, 0)
    else
      var n := |legs| - 1;
      var (front, done) := InTurn(db, a, legs[..n]);
      if done < n then (front, done)
      else
        var (d, ok) := Take(front, a, legs[n]);
        (d, if ok then n + 1 else n)
  }

  function Refusal(payable: nat, o: Setup, a: WageArgs): Option<WageOutcome> {
    if a.amount <= 0 then Some(BadAmount)
    else if a.cashbox == "" then Some(NoCashbox)
    else if !o.employeeActive || a.employee == "" then Some(NoEmployee)
    else if ExcessOf(payable, a.amount) > 0 && a.handling.None? then Some(NeedsHandling)
    else if ExcessOf(payable, a.amount) == 0 && a.handling.Some? then Some(NoExcess)
    else None
  }

  /** `payWage`. */
  function PayWage(db: Db, o: Setup, a: WageArgs): (Db, WageOutcome) {
    var payable := Owed(db, a.employee);
    if Refusal(payable, o, a).Some? then (db, Refusal(payable, o, a).value)
    else
      var legs := Legs(payable, o, a);
      var (d, done) := InTurn(db, a, legs);
      (d, if done == |legs| then Paid else Stopped(done))
  }

  // ----- a chain of legs -----

  predicate SameKey(s: Spec, t: Spec) { s.refType == t.refType && s.refId == t.refId }

  /** A plain guarded posting under a key of its own. */
  ghost predicate NewPosting(db: Db, s: Spec) {
    && FindLive(db.entries, s.refType, s.refId).None? && s.refType != "employee_txn"
    && s.reversalOf.None? && !s.accountingOnly && Sum(AskedDebit(), s.lines) >= 1
  }

  /** None of the postings was made before, and no two share a key. */
  ghost predicate Fresh(db: Db, legs: seq<Leg>) {
    && (forall i :: 0 <= i < |legs| && legs[i].Posting? ==> NewPosting(db, legs[i].spec))
    && forall i, j :: 0 <= i < j < |legs| && legs[i].Posting? && legs[j].Posting? ==> !SameKey(legs[i].spec, legs[j].spec)
  }

  /** Whether a leg would go through on the books the call starts from. */
  ghost predicate GoesThrough(db: Db, leg: Leg) {
    match leg
    case Posting(s) => Record(db, s).1.Posted?
    case Accrual(_) => true
    case Closed => false
  }

  function LegTag(db: Db, a: WageArgs, who: string, codes: set<string>): Leg -> int {
    (leg: Leg) =>
      match leg
      case Posting(s) => if ResolveAll(db, s.lines).Some? then Sum(EmployeeOn(db.accounts, who, codes), ResolveAll(db, s.lines).value) else 0
      case Accrual(amount) => if BonusPosts(db) then Sum(EmployeeOn(db.accounts, who, codes), AccrualLines(db, a, amount)) else 0
      case Closed => 0
  }

  function LegCash(box: CashboxId): Leg -> int {
    (leg: Leg) => if leg.Posting? then Sum(MoveOn(box), leg.spec.movements) else 0
  }

  /** The legs so far leave accounts, cashboxes and the lockdown as they were. */
  predicate Beside(db: Db, d: Db) { SameChart(db, d) && d.locked == db.locked }

  /** A new posting fares the same on any books with the same accounts and cashboxes. */
  lemma SamePosting(db: Db, d: Db, s: Spec)
    requires Beside(db, d) && NewPosting(db, s) && NewPosting(d, s)
    ensures Record(d, s).1.Posted? <==> Record(db, s).1.Posted?
  {
    PostsIff(db, s);
    PostsIff(d, s);
    ResolveAllFrame(db, d, s.lines);
    hide Record, ValidateSpec, Agree, LineKeys;
  }

  lemma OtherKeysUnclaimed(entries: seq<Entry>, e: Entry)
    ensures forall t: Spec :: !(e.refType == t.refType && e.refId == t.refId) && FindLive(entries, t.refType, t.refId).None? ==>
      FindLive(entries + [e], t.refType, t.refId).None?
  {
    forall t: Spec | !(e.refType == t.refType && e.refId == t.refId) && FindLive(entries, t.refType, t.refId).None?
      ensures FindLive(entries + [e], t.refType, t.refId).None?
    {
      var live := FindLive(entries + [e], t.refType, t.refId);
      assert forall i :: 0 <= i < |entries| ==> (entries + [e])[i] == entries[i];
    }
  }

  lemma EmployeeSnoc(db: Db, entries: seq<Entry>, e: Entry, who: string, codes: set<string>)
    requires !e.isVoid
    ensures Sum(EmployeeIn(db.accounts, who, codes), entries + [e])
         == Sum(EmployeeIn(db.accounts, who, codes), entries) + Sum(EmployeeOn(db.accounts, who, codes), e.lines)
  {
    SumSnoc(EmployeeIn(db.accounts, who, codes), entries, e);
  }

  /** Other keys stay unclaimed. */
  ghost predicate KeepsOpen(d: Db, e: Db, leg: Leg) {
    forall t: Spec ::
      (t.refType != "employee_txn" && FindLive(d.entries, t.refType, t.refId).None? && !(leg.Posting? && SameKey(leg.spec, t)))
      ==> FindLive(e.entries, t.refType, t.refId).None?
  }

  lemma PostingTaken(db: Db, front: Db, a: WageArgs, s: Spec, who: string, codes: set<string>)
    requires Beside(db, front) && NewPosting(front, s) && Record(front, s).1.Posted?
    ensures var d := Record(front, s).0;
      && Beside(db, d) && KeepsOpen(front, d, Posting(s))
      && EmployeeNet(d, who, codes) == EmployeeNet(front, who, codes) + LegTag(db, a, who, codes)(Posting(s))
  {
    hide Record, PaySpec, ValidateSpec, Judge;
    var paid, lines := PostedFacts(front, s);
    ResolveAllFrame(db, front, s.lines);
    ResolveAllFrame(front, paid, s.lines);
    OtherKeysUnclaimed(front.entries, NewEntry(s, lines));
    assert Record(front, s).0.entries == front.entries + [NewEntry(s, lines)];
    EmployeeSnoc(db, front.entries, NewEntry(s, lines), who, codes);
    SumKeep(EmployeeOn(db.accounts, who, codes), IsNonzero(), lines);
    SameCharts(db, front, Record(front, s).0);
  }

  lemma AccrualTaken(db: Db, front: Db, a: WageArgs, amount: nat, who: string, codes: set<string>)
    requires Beside(db, front)
    ensures var d := Accrue(front, a, amount);
      && Beside(db, d) && KeepsOpen(front, d, Accrual(amount)) && d.cash == front.cash
      && EmployeeNet(d, who, codes) == EmployeeNet(front, who, codes) + LegTag(db, a, who, codes)(Accrual(amount))
  {
    if BonusPosts(front) {
      var e := Entry("employee_txn", Document(a.bonus), a.today, AccrualLines(front, a, amount), None, false);
      OtherKeysUnclaimed(front.entries, e);
      EmployeeSnoc(db, front.entries, e, who, codes);
    }
  }

  /** One leg: whether it is taken depends on the starting books only, and its effect too. */
  lemma LegTaken(db: Db, front: Db, a: WageArgs, leg: Leg, who: string, codes: set<string>, box: CashboxId)
    requires Beside(db, front) && (leg.Posting? ==> NewPosting(db, leg.spec) && NewPosting(front, leg.spec))
    ensures var (d, ok) := Take(front, a, leg);
      && ok == GoesThrough(db, leg) && (!ok ==> d == front) && Beside(db, d) && KeepsOpen(front, d, leg)
      && (ok ==> EmployeeNet(d, who, codes) == EmployeeNet(front, who, codes) + LegTag(db, a, who, codes)(leg))
      && (ok ==> CashNet(d, box, Everything()) == CashNet(front, box, Everything()) + LegCash(box)(leg))
  {
    hide Record, EmployeeNet, CashNet, FindLive;
    match leg
    case Posting(s) =>
      SamePosting(db, front, s);
      if !Record(front, s).1.Rejected? {
        AcceptedPosts(front, s);
        PostingTaken(db, front, a, s, who, codes);
        PostedCashIn(front, s, box, Everything());
      }
    case Accrual(amount) =>
      AccrualTaken(db, front, a, amount, who, codes);
      SameCash(front, Accrue(front, a, amount), box);
    case Closed =>
  }

  lemma SameCash(db: Db, d: Db, box: CashboxId)
    requires d.cash == db.cash
    ensures CashNet(d, box, Everything()) == CashNet(db, box, Everything())
  {
  }

  ghost predicate StillNew(d: Db, t: Spec, legs: seq<Leg>) {
    t.refType != "employee_txn" && FindLive(d.entries, t.refType, t.refId).None?
    && forall i :: 0 <= i < |legs| && legs[i].Posting? ==> !SameKey(legs[i].spec, t)
  }

  /** The legs taken are those before the first that would not go through, and they account
      for every change. */
  lemma {:induction false} LegsAddUp(db: Db, a: WageArgs, legs: seq<Leg>, who: string, codes: set<string>, box: CashboxId)
    requires Fresh(db, legs)
    ensures var (d, done) := InTurn(db, a, legs);
      && Beside(db, d)
      && (forall i :: 0 <= i < done ==> GoesThrough(db, legs[i])) && (done < |legs| ==> !GoesThrough(db, legs[done]))
      && (done == 0 ==> d == db)
      && EmployeeNet(d, who, codes) == EmployeeNet(db, who, codes) + Sum(LegTag(db, a, who, codes), legs[..done])
      && CashNet(d, box, Everything()) == CashNet(db, box, Everything()) + Sum(LegCash(box), legs[..done])
      && forall t: Spec :: StillNew(db, t, legs) ==> FindLive(d.entries, t.refType, t.refId).None?
  {
    hide EmployeeNet, CashNet, LegTag, LegCash, FindLive, SameChart, GoesThrough, Take, Sum;
    var tag, cash := LegTag(db, a, who, codes), LegCash(box);
    NothingTaken(db, tag, cash);
    if |legs| > 0 {
      var n := |legs| - 1;
      assert forall i :: 0 <= i < n ==> legs[..n][i] == legs[i];
      FreshFront(db, legs, n);
      LegsAddUp(db, a, legs[..n], who, codes, box);
      var (front, done) := InTurn(db, a, legs[..n]);
      assert legs[..n][..done] == legs[..done];
      if done == n {
        if legs[n].Posting? {
          LastIsNew(db, front, legs, n);
        }
        LegTaken(db, front, a, legs[n], who, codes, box);
        assert legs[..n + 1] == legs[..n] + [legs[n]] == legs;
        SumSnoc(tag, legs[..n], legs[n]);
        SumSnoc(cash, legs[..n], legs[n]);
      }
      forall t: Spec | StillNew(db, t, legs) ensures FindLive(InTurn(db, a, legs).0.entries, t.refType, t.refId).None? {
        assert StillNew(db, t, legs[..n]);
      }
    }
  }

  lemma NothingTaken(db: Db, f: Leg -> int, g: Leg -> int)
    ensures Beside(db, db) && Sum(f, []) == 0 && Sum(g, []) == 0
  {
  }

  lemma FreshFront(db: Db, legs: seq<Leg>, n: nat)
    requires Fresh(db, legs) && n <= |legs|
    ensures Fresh(db, legs[..n])
  {
  }

  lemma LastIsNew(db: Db, front: Db, legs: seq<Leg>, n: nat)
    requires Fresh(db, legs) && n == |legs| - 1 && legs[n].Posting?
    requires forall t: Spec :: StillNew(db, t, legs[..n]) ==> FindLive(front.entries, t.refType, t.refId).None?
    ensures NewPosting(db, legs[n].spec) && NewPosting(front, legs[n].spec)
  {
    assert StillNew(db, legs[n].spec, legs[..n]);
  }

  // ----- which legs go through -----

  /** The keys of the rows are named, new to the books and different from each other. */
  ghost predicate NewKeys(db: Db, a: WageArgs) {
    && Chart.UniqueIds(db.accounts)
    && a.settlement != a.bonusSettlement && a.settlement != "" && a.bonusSettlement != "" && a.advance != ""
    && FindLive(db.entries, "employee_settlement", Document(a.settlement)).None?
    && FindLive(db.entries, "employee_settlement", Document(a.bonusSettlement)).None?
    && FindLive(db.entries, "expense", Document(a.advance)).None?
  }

  /** Cash can be paid out of the cashbox against an account of the employee. */
  predicate CanPay(db: Db, box: CashboxId, code: string) {
    !db.locked && LiquidBox(db, box) && AccountByCode(db.accounts, code).Some?
  }

  lemma CodeOfCoded(accounts: seq<Account>, code: string)
    requires Chart.UniqueIds(accounts) && AccountByCode(accounts, code).Some?
    ensures CodeOf(accounts, AccountByCode(accounts, code).value) == code
  {
    var i := Chart.CodedIs(accounts, code);
    Chart.CodeIs(accounts, i);
  }

  lemma {:induction false} LeafIs(accounts: seq<Account>, code: string) returns (i: nat)
    requires LeafByCode(accounts, code).Some?
    ensures i < |accounts| && accounts[i].code == code && LeafByCode(accounts, code) == Some(accounts[i].id)
  {
    if accounts[0].code == code && accounts[0].isLeaf {
      i := 0;
    } else {
      i := LeafIs(accounts[1..], code);
      i := i + 1;
    }
  }

  lemma CodeOfLeaf(accounts: seq<Account>, code: string)
    requires Chart.UniqueIds(accounts) && LeafByCode(accounts, code).Some?
    ensures CodeOf(accounts, LeafByCode(accounts, code).value) == code
  {
    var i := LeafIs(accounts, code);
    Chart.CodeIs(accounts, i);
  }

  /** A cash leg to the employee. */
  ghost predicate ToEmployee(s: Spec, a: WageArgs, code: string, amount: Cents) {
    && s.refId != Document("") && s.refType != "" && s.description != "" && |s.movements| == 1
    && s == OneCashLeg(s.refType, s.refId, s.date, s.description, s.now, OfEmployee(code, a.employee), a.cashbox, Out, amount, s.movements[0].category)
  }

  lemma EmployeeLeg(db: Db, a: WageArgs, s: Spec, code: string, amount: Cents, who: string, codes: set<string>, box: CashboxId)
    requires Chart.UniqueIds(db.accounts) && FindLive(db.entries, s.refType, s.refId).None?
    requires ToEmployee(s, a, code, amount) && IsPersonal(code) && a.cashbox != "" && amount > 0
    ensures GoesThrough(db, Posting(s)) <==> CanPay(db, a.cashbox, code)
    ensures CanPay(db, a.cashbox, code) ==>
      LegTag(db, a, who, codes)(Posting(s)) == if who == a.employee && code in codes then amount else 0
    ensures LegCash(box)(Posting(s)) == PaidFrom(a.cashbox, amount, box) && Sum(AskedDebit(), s.lines) == amount
  {
    var counter := OfEmployee(code, a.employee);
    hide Record;
    OneCashLegPostsIff(db, s.refType, s.refId, s.date, s.description, s.now, counter, a.cashbox, Out, amount, s.movements[0].category);
    AccountByCodeExists(db.accounts, code);
    PersonalIsPlain(code);
    if AccountByCode(db.accounts, code).Some? {
      CodeOfCoded(db.accounts, code);
    }
    assert s.movements == [s.movements[0]] && s.lines == [s.lines[0], s.lines[1]];
    OneMove(box, s.movements[0]);
    AskedTwo(s, s.lines[0], s.lines[1]);
    if CanPay(db, a.cashbox, code) {
      EmployeeTag(db, a, s, code, amount, who, codes);
    }
  }

  lemma EmployeeTag(db: Db, a: WageArgs, s: Spec, code: string, amount: Cents, who: string, codes: set<string>)
    requires ToEmployee(s, a, code, amount) && code != "" && a.cashbox != ""
    requires AccountByCode(db.accounts, code).Some? && CashboxAccount(db, a.cashbox).Some?
    requires CodeOf(db.accounts, AccountByCode(db.accounts, code).value) == code
    ensures LegTag(db, a, who, codes)(Posting(s)) == if who == a.employee && code in codes then amount else 0
  {
    CounterResolves(db, OfEmployee(code, a.employee), amount, 0);
    CashResolves(db, a.cashbox, 0, amount);
    TwoLinesResolve(db, s.lines[0], s.lines[1]);
    assert s.lines == [s.lines[0], s.lines[1]];
    SumTwo(EmployeeOn(db.accounts, who, codes), Resolve(db, s.lines[0]).value, Resolve(db, s.lines[1]).value);
  }

  lemma AccrualTag(db: Db, a: WageArgs, amount: nat, who: string, codes: set<string>)
    requires Chart.UniqueIds(db.accounts)
    ensures LegTag(db, a, who, codes)(Accrual(amount))
         == if BonusPosts(db) && who == a.employee
            then (if GL_SALARIES in codes then amount else 0) - (if GL_EMPLOYEE_PAYABLE in codes then amount else 0) else 0
  {
    if BonusPosts(db) {
      CodeOfLeaf(db.accounts, GL_SALARIES);
      CodeOfLeaf(db.accounts, GL_EMPLOYEE_PAYABLE);
      var lines := AccrualLines(db, a, amount);
      SumTwo(EmployeeOn(db.accounts, who, codes), lines[0], lines[1]);
    }
  }

  // ----- the legs of a call -----

  predicate Accepted(payable: nat, o: Setup, a: WageArgs) { Refusal(payable, o, a).None? }

  /** A settlement can be paid: its own checks hold, and its posting goes through. */
  predicate CanSettle(db: Db, o: Setup, a: WageArgs) { SettleOpen(o, a) && CanPay(db, a.cashbox, GL_EMPLOYEE_PAYABLE) }

  lemma SettleLeg(db: Db, o: Setup, a: WageArgs, id: string, amount: nat, who: string, codes: set<string>, box: CashboxId)
    requires NewKeys(db, a) && id in {a.settlement, a.bonusSettlement} && a.cashbox != "" && amount > 0
    ensures var leg := Settlement(o, a, id, amount);
      && (leg.Posting? ==> NewPosting(db, leg.spec) && leg.spec.refType == "employee_settlement" && leg.spec.refId == Document(id))
      && (GoesThrough(db, leg) <==> CanSettle(db, o, a))
      && (CanSettle(db, o, a) ==>
            && LegCash(box)(leg) == PaidFrom(a.cashbox, amount, box)
            && LegTag(db, a, who, codes)(leg) == if who == a.employee && GL_EMPLOYEE_PAYABLE in codes then amount else 0)
  {
    assert |"employee_settlement"| == 19 && |"employee_txn"| == 12;
    EmployeeLeg(db, a, SettleSpec(a, id, amount), GL_EMPLOYEE_PAYABLE, amount, who, codes, box);
  }

  lemma AdvanceLeg(db: Db, a: WageArgs, amount: Cents, who: string, codes: set<string>, box: CashboxId)
    requires NewKeys(db, a) && a.cashbox != "" && amount > 0
    ensures var leg := Posting(AdvanceSpec(a, amount));
      && NewPosting(db, leg.spec) && leg.spec.refType == "expense" && leg.spec.refId == Document(a.advance)
      && (GoesThrough(db, leg) <==> CanPay(db, a.cashbox, GL_EMPLOYEE_RECEIVABLE))
      && LegCash(box)(leg) == PaidFrom(a.cashbox, amount, box)
      && (CanPay(db, a.cashbox, GL_EMPLOYEE_RECEIVABLE) ==>
            LegTag(db, a, who, codes)(leg) == if who == a.employee && GL_EMPLOYEE_RECEIVABLE in codes then amount else 0)
  {
    assert |"expense"| == 7 && |"employee_txn"| == 12;
    EmployeeLeg(db, a, AdvanceSpec(a, amount), GL_EMPLOYEE_RECEIVABLE, amount, who, codes, box);
  }

  /** The facts about the legs of a call, all together. */
  ghost predicate LegFacts(db: Db, o: Setup, a: WageArgs, part: nat, excess: nat) {
    && (part > 0 ==> LegFact(db, Settlement(o, a, a.settlement, part), CanSettle(db, o, a), "employee_settlement", a.settlement))
    && (excess > 0 ==>
          && LegFact(db, Settlement(o, a, a.bonusSettlement, excess), CanSettle(db, o, a), "employee_settlement", a.bonusSettlement)
          && LegFact(db, Posting(AdvanceSpec(a, excess)), CanPay(db, a.cashbox, GL_EMPLOYEE_RECEIVABLE), "expense", a.advance))
  }

  /** The leg goes through exactly under the condition, and posts under its own key. */
  ghost predicate LegFact(db: Db, leg: Leg, condition: bool, refType: string, id: string) {
    && (GoesThrough(db, leg) <==> condition) && !leg.Accrual?
    && (leg.Posting? ==> NewPosting(db, leg.spec) && leg.spec.refType == refType && leg.spec.refId == Document(id))
  }

  lemma LegFactsHold(db: Db, o: Setup, a: WageArgs, part: nat, excess: nat)
    requires NewKeys(db, a) && a.cashbox != ""
    ensures LegFacts(db, o, a, part, excess)
  {
    hide NewKeys, NewPosting, GoesThrough, CanPay, LegTag, LegCash;
    if part > 0 { SettleLeg(db, o, a, a.settlement, part, "", {}, ""); }
    if excess > 0 {
      SettleLeg(db, o, a, a.bonusSettlement, excess, "", {}, "");
      AdvanceLeg(db, a, excess, "", {}, "");
    }
  }

  lemma FreshJoin(db: Db, first: seq<Leg>, rest: seq<Leg>)
    requires |first| <= 1 && |rest| <= 2 && (|rest| == 2 ==> !rest[0].Posting?)
    requires forall i :: 0 <= i < |first| && first[i].Posting? ==> NewPosting(db, first[i].spec)
    requires forall i :: 0 <= i < |rest| && rest[i].Posting? ==> NewPosting(db, rest[i].spec)
    requires forall i, j :: 0 <= i < |first| && 0 <= j < |rest| && first[i].Posting? && rest[j].Posting? ==>
      !SameKey(first[i].spec, rest[j].spec)
    ensures Fresh(db, first + rest)
  {
    hide NewPosting, SameKey;
    var legs := first + rest;
    forall i | 0 <= i < |legs| && legs[i].Posting? ensures NewPosting(db, legs[i].spec) {
      assert legs[i] == if i < |first| then first[i] else rest[i - |first|];
    }
    forall i, j | 0 <= i < j < |legs| && legs[i].Posting? && legs[j].Posting? ensures !SameKey(legs[i].spec, legs[j].spec) {
      if i >= |first| {
        assert false;
      }
      assert legs[i] == first[i] && legs[j] == rest[j - |first|];
    }
  }

  lemma LegsFresh(db: Db, payable: nat, o: Setup, a: WageArgs)
    requires NewKeys(db, a) && Accepted(payable, o, a)
    ensures Fresh(db, Legs(payable, o, a))
  {
    hide NewPosting, Approvals.Spawned, GoesThrough, CanPay, Settlement, AdvanceSpec, PayablePart, FindLive, Chart.UniqueIds, Fresh, ShiftFits;
    var part, excess := PayablePart(payable, a.amount), ExcessOf(payable, a.amount);
    LegFactsHold(db, o, a, part, excess);
    assert |"employee_settlement"| == 19 && |"expense"| == 7;
    FreshJoin(db, SettleLegs(o, a, part), ExcessLegs(o, a, excess));
  }

  /** Where a chain of at most three legs stops. */
  lemma StopsAt(db: Db, first: seq<Leg>, rest: seq<Leg>, done: nat)
    requires |first| <= 1 && |rest| <= 2 && done <= |first + rest|
    requires forall i :: 0 <= i < done ==> GoesThrough(db, (first + rest)[i])
    requires done < |first + rest| ==> !GoesThrough(db, (first + rest)[done])
    ensures done == if |first| == 1 && !GoesThrough(db, first[0]) then 0
                    else if |rest| >= 1 && !GoesThrough(db, rest[0]) then |first|
                    else if |rest| == 2 && !GoesThrough(db, rest[1]) then |first| + 1 else |first + rest|
  {
    hide GoesThrough;
    var legs := first + rest;
    assert |first| == 1 ==> legs[0] == first[0];
    assert |rest| >= 1 ==> legs[|first|] == rest[0];
    assert |rest| == 2 ==> legs[|first| + 1] == rest[1];
  }

  /** The advance that some approval rule covers, which a call submits but does not pay. */
  function Deferred(payable: nat, o: Setup, a: WageArgs): nat {
    if a.amount > 0 && a.handling == Some(AsAdvance) && AdvanceOpen(o, a) && |Approvals.Spawned(a.advance, ExcessOf(payable, a.amount), o.rules)| > 0
    then ExcessOf(payable, a.amount) else 0
  }

  /** Nothing stands in the way of a leg, all of it checkable before the call. */
  predicate AllClear(db: Db, o: Setup, a: WageArgs) {
    var payable := Owed(db, a.employee);
    && (payable > 0 || a.handling == Some(AsBonus) ==> CanSettle(db, o, a))
    && (a.handling == Some(AsAdvance) ==>
          AdvanceOpen(o, a) && (Deferred(payable, o, a) > 0 || CanPay(db, a.cashbox, GL_EMPLOYEE_RECEIVABLE)))
  }

  /** A bonus accrued to an employee who is owed nothing, and not paid; or the payable part
      paid, and the advance refused. */
  predicate Halfway(db: Db, o: Setup, a: WageArgs) {
    var payable := Owed(db, a.employee);
    || (a.handling == Some(AsBonus) && payable == 0 && !CanSettle(db, o, a))
    || (a.handling == Some(AsAdvance) && payable > 0 && CanSettle(db, o, a)
        && (!AdvanceOpen(o, a) || (Deferred(payable, o, a) == 0 && !CanPay(db, a.cashbox, GL_EMPLOYEE_RECEIVABLE))))
  }

  /** How an accepted call ends: paid when nothing stands in the way, stopped after exactly
      one leg half way, and otherwise stopped before the first. */
  lemma WageEnds(db: Db, o: Setup, a: WageArgs)
    requires NewKeys(db, a) && Accepted(Owed(db, a.employee), o, a)
    ensures PayWage(db, o, a).1 == (if AllClear(db, o, a) then Paid else if Halfway(db, o, a) then Stopped(1) else Stopped(0))
    ensures PayWage(db, o, a).1 == Stopped(0) ==> PayWage(db, o, a).0 == db
  {
    hide NewPosting, NewKeys, Approvals.Spawned, CanPay, CanSettle, AdvanceOpen, Fresh, InTurn, EmployeeNet, CashNet, LegTag, LegCash, Settlement, AdvanceSpec, Beside, FindLive, Owed, StillNew;
    var payable := Owed(db, a.employee);
    var part, excess := PayablePart(payable, a.amount), ExcessOf(payable, a.amount);
    LegsFresh(db, payable, o, a);
    LegsAddUp(db, a, Legs(payable, o, a), "", {}, "");
    LegFactsHold(db, o, a, part, excess);
    var first, rest := SettleLegs(o, a, part), ExcessLegs(o, a, excess);
    StopsAt(db, first, rest, InTurn(db, a, Legs(payable, o, a)).1);
    assert GoesThrough(db, Accrual(excess)) && !GoesThrough(db, Closed);
    hide GoesThrough;
  }

  // ----- conservation -----

  lemma PartSum(f: Leg -> int, o: Setup, a: WageArgs, part: nat)
    ensures Sum(f, SettleLegs(o, a, part)) == if part > 0 then f(Settlement(o, a, a.settlement, part)) else 0
  {
    if part > 0 {
      var leg := Settlement(o, a, a.settlement, part);
      SumSnoc(f, [], leg);
      assert [] + [leg] == [leg];
    }
  }

  lemma ExcessSum(f: Leg -> int, o: Setup, a: WageArgs, excess: nat)
    ensures Sum(f, ExcessLegs(o, a, excess))
         == if excess == 0 || a.handling.None? then 0
            else if a.handling.value.AsBonus? then f(Accrual(excess)) + f(Settlement(o, a, a.bonusSettlement, excess))
            else if !AdvanceOpen(o, a) then f(Closed)
            else if |Approvals.Spawned(a.advance, excess, o.rules)| > 0 then 0
            else f(Posting(AdvanceSpec(a, excess)))
  {
    hide Approvals.Spawned, Settlement, AdvanceSpec, AdvanceOpen;
    var legs := ExcessLegs(o, a, excess);
    if |legs| == 2 {
      SumTwo(f, legs[0], legs[1]);
      assert legs == [legs[0], legs[1]];
    } else if |legs| == 1 {
      SumSnoc(f, [], legs[0]);
      assert [] + [legs[0]] == legs;
    }
  }

  lemma LegSum(f: Leg -> int, payable: nat, o: Setup, a: WageArgs)
    requires a.amount > 0
    ensures var part, excess := PayablePart(payable, a.amount), ExcessOf(payable, a.amount);
      Sum(f, Legs(payable, o, a)) == (if part > 0 then f(Settlement(o, a, a.settlement, part)) else 0)
        + if excess == 0 || a.handling.None? then 0
          else if a.handling.value.AsBonus? then f(Accrual(excess)) + f(Settlement(o, a, a.bonusSettlement, excess))
          else if !AdvanceOpen(o, a) then f(Closed)
          else if |Approvals.Spawned(a.advance, excess, o.rules)| > 0 then 0
          else f(Posting(AdvanceSpec(a, excess)))
  {
    hide Approvals.Spawned, Settlement, AdvanceSpec, AdvanceOpen;
    var part, excess := PayablePart(payable, a.amount), ExcessOf(payable, a.amount);
    SumCat(f, SettleLegs(o, a, part), ExcessLegs(o, a, excess));
    PartSum(f, o, a, part);
    ExcessSum(f, o, a, excess);
  }

  /** A leg's cash, its effect on the employee's balance, and its charge to salaries. */
  ghost predicate Figures(db: Db, a: WageArgs, leg: Leg, who: string, box: CashboxId, cash: Cents, balance: Cents, salary: Cents) {
    && LegCash(box)(leg) == cash && LegTag(db, a, who, PERSONAL_CODES)(leg) == balance
    && LegTag(db, a, who, {GL_SALARIES})(leg) == salary
  }

  lemma CodesDiffer()
    ensures GL_SALARIES !in PERSONAL_CODES && GL_EMPLOYEE_PAYABLE !in {GL_SALARIES} && GL_EMPLOYEE_RECEIVABLE !in {GL_SALARIES}
  {
    assert GL_SALARIES[0] != GL_EMPLOYEE_PAYABLE[0] && |GL_SALARIES| != |GL_EMPLOYEE_RECEIVABLE|;
  }

  lemma LegFigures(db: Db, o: Setup, a: WageArgs, amount: nat, who: string, box: CashboxId)
    requires NewKeys(db, a) && a.cashbox != "" && amount > 0
    ensures var paid, mine := PaidFrom(a.cashbox, amount, box), if who == a.employee then amount else 0;
      && (forall id :: id in {a.settlement, a.bonusSettlement} && CanSettle(db, o, a) ==>
            Figures(db, a, Settlement(o, a, id, amount), who, box, paid, mine, 0))
      && (CanPay(db, a.cashbox, GL_EMPLOYEE_RECEIVABLE) ==> Figures(db, a, Posting(AdvanceSpec(a, amount)), who, box, paid, mine, 0))
      && Figures(db, a, Accrual(amount), who, box, 0, if BonusPosts(db) then -mine else 0, if BonusPosts(db) then mine else 0)
  {
    CodesDiffer();
    hide NewPosting, GoesThrough, CanPay, CanSettle, LegTag, Settlement, AdvanceSpec, BonusPosts, FindLive, Chart.UniqueIds;
    forall id, codes: set<string> | id in {a.settlement, a.bonusSettlement} && CanSettle(db, o, a)
      ensures LegCash(box)(Settlement(o, a, id, amount)) == PaidFrom(a.cashbox, amount, box)
      ensures LegTag(db, a, who, codes)(Settlement(o, a, id, amount)) == if who == a.employee && GL_EMPLOYEE_PAYABLE in codes then amount else 0
    {
      SettleLeg(db, o, a, id, amount, who, codes, box);
    }
    AdvanceLeg(db, a, amount, who, PERSONAL_CODES, box);
    AdvanceLeg(db, a, amount, who, {GL_SALARIES}, box);
    AccrualTag(db, a, amount, who, PERSONAL_CODES);
    AccrualTag(db, a, amount, who, {GL_SALARIES});
  }

  /** What a paid call adds to the employee's balance: the whole amount, less an advance that
      is only submitted, and less a bonus that was accrued first. */
  function Charged(db: Db, o: Setup, a: WageArgs): int
    requires a.amount > 0
  {
    var payable := Owed(db, a.employee);
    a.amount - Deferred(payable, o, a) - if a.handling == Some(AsBonus) && BonusPosts(db) then ExcessOf(payable, a.amount) else 0
  }

  /** The bonus charged to salaries. */
  function Charge(db: Db, a: WageArgs): nat
    requires a.amount > 0
  {
    if a.handling == Some(AsBonus) && BonusPosts(db) then ExcessOf(Owed(db, a.employee), a.amount) else 0
  }

  lemma PaidAdds(source: CashboxId, x: Cents, y: Cents, box: CashboxId)
    ensures PaidFrom(source, x, box) + PaidFrom(source, y, box) == PaidFrom(source, x + y, box) && PaidFrom(source, 0, box) == 0
  {
  }

  /** All the legs of an unhindered call together. */
  lemma WageSums(db: Db, o: Setup, a: WageArgs, who: string, box: CashboxId)
    requires NewKeys(db, a) && Accepted(Owed(db, a.employee), o, a) && AllClear(db, o, a)
    ensures var payable := Owed(db, a.employee); var legs := Legs(payable, o, a);
      && Sum(LegCash(box), legs) == PaidFrom(a.cashbox, a.amount - Deferred(payable, o, a), box)
      && Sum(LegTag(db, a, who, PERSONAL_CODES), legs) == (if who == a.employee then Charged(db, o, a) else 0)
      && Sum(LegTag(db, a, who, {GL_SALARIES}), legs) == (if who == a.employee then Charge(db, a) else 0)
  {
    hide NewKeys, CanPay, CanSettle, AdvanceOpen, Approvals.Spawned, LegTag, LegCash, Settlement, AdvanceSpec, BonusPosts, Owed, Sum, PaidFrom, Legs;
    var payable := Owed(db, a.employee);
    var part, excess := PayablePart(payable, a.amount), ExcessOf(payable, a.amount);
    LegSum(LegCash(box), payable, o, a);
    LegSum(LegTag(db, a, who, PERSONAL_CODES), payable, o, a);
    LegSum(LegTag(db, a, who, {GL_SALARIES}), payable, o, a);
    if part > 0 { LegFigures(db, o, a, part, who, box); }
    if excess > 0 { LegFigures(db, o, a, excess, who, box); }
    assert a.settlement in {a.settlement, a.bonusSettlement} && a.bonusSettlement in {a.settlement, a.bonusSettlement};
    PaidAdds(a.cashbox, part, excess, box);
  }

  /** A paid call takes exactly its amount out of its cashbox (less an advance that awaits
      approval) and nothing out of any other. What the company owes the employee drops by the
      payable part; his balance rises by the whole amount under an advance and by the payable
      part under a bonus, which is charged to salaries; no other employee is touched. */
  lemma WageConserves(db: Db, o: Setup, a: WageArgs, who: string, box: CashboxId)
    requires NewKeys(db, a) && PayWage(db, o, a).1.Paid?
    ensures var d, payable := PayWage(db, o, a).0, Owed(db, a.employee);
      && CashNet(d, box, Everything()) == CashNet(db, box, Everything()) + PaidFrom(a.cashbox, a.amount - Deferred(payable, o, a), box)
      && Owed(d, a.employee) == payable - PayablePart(payable, a.amount)
      && Balance(d, who) == Balance(db, who) + (if who == a.employee then Charged(db, o, a) else 0)
      && EmployeeNet(d, who, {GL_SALARIES}) == EmployeeNet(db, who, {GL_SALARIES}) + (if who == a.employee then Charge(db, a) else 0)
  {
    hide NewKeys, CanPay, Approvals.Spawned, LegTag, LegCash, BonusPosts, Sum, PaidFrom, Legs, EmployeeNet, CashNet, InTurn, Fresh, StillNew, GoesThrough, Beside;
    var payable := Owed(db, a.employee);
    var legs := Legs(payable, o, a);
    WageEnds(db, o, a);
    WageSums(db, o, a, who, box);
    WageSums(db, o, a, a.employee, box);
    LegsFresh(db, payable, o, a);
    LegsAddUp(db, a, legs, who, PERSONAL_CODES, box);
    LegsAddUp(db, a, legs, a.employee, PERSONAL_CODES, box);
    LegsAddUp(db, a, legs, who, {GL_SALARIES}, box);
    assert legs[..|legs|] == legs;
  }

  /** A call that stops half way is not undone. A bonus stays accrued, and so owed, with nothing
      paid; or the payable part stays paid. It happens if and only if the call is accepted and
      either an employee who is owed nothing gets a bonus that cannot be settled, for the
      cashbox, the shift or the permission, or the payable part can be settled and the advance
      that follows is refused. */
  lemma HalfPaidIff(db: Db, o: Setup, a: WageArgs, who: string, box: CashboxId)
    requires NewKeys(db, a)
    ensures (exists n: nat :: n > 0 && PayWage(db, o, a).1 == Stopped(n)) <==> Accepted(Owed(db, a.employee), o, a) && Halfway(db, o, a)
    ensures Accepted(Owed(db, a.employee), o, a) && Halfway(db, o, a) ==>
      var d, payable := PayWage(db, o, a).0, Owed(db, a.employee);
      if a.handling == Some(AsBonus) then
        && CashNet(d, box, Everything()) == CashNet(db, box, Everything())
        && Balance(d, who) == Balance(db, who) - (if who == a.employee then Charge(db, a) else 0)
      else
        && CashNet(d, box, Everything()) == CashNet(db, box, Everything()) + PaidFrom(a.cashbox, payable, box)
        && Balance(d, who) == Balance(db, who) + (if who == a.employee then payable else 0)
  {
    hide NewKeys, CanPay, CanSettle, AdvanceOpen, Approvals.Spawned, LegTag, LegCash, BonusPosts, Sum, PaidFrom, EmployeeNet, CashNet, InTurn, Fresh, StillNew, GoesThrough, Beside, Owed, Settlement, AdvanceSpec;
    var payable := Owed(db, a.employee);
    if Accepted(payable, o, a) {
      WageEnds(db, o, a);
      if Halfway(db, o, a) {
        var legs, part, excess := Legs(payable, o, a), PayablePart(payable, a.amount), ExcessOf(payable, a.amount);
        assert PayWage(db, o, a).1 == Stopped(1);
        LegsFresh(db, payable, o, a);
        LegsAddUp(db, a, legs, who, PERSONAL_CODES, box);
        LegFigures(db, o, a, if a.handling == Some(AsBonus) then excess else part, who, box);
        assert a.settlement in {a.settlement, a.bonusSettlement};
        assert legs[..1] == [] + [legs[0]];
        SumSnoc(LegCash(box), [], legs[0]);
        SumSnoc(LegTag(db, a, who, PERSONAL_CODES), [], legs[0]);
        NothingTaken(db, LegCash(box), LegTag(db, a, who, PERSONAL_CODES));
      }
    }
  }

  /** A call reaches its postings exactly when it asks for something, names a cashbox and an
      active employee, and classifies what exceeds the amount owed in the journal if and only
      if something does; any other call says which of these it lacks, the first of them, and
      leaves the books alone. */
  lemma RefusedIff(db: Db, o: Setup, a: WageArgs)
    ensures PayWage(db, o, a).1.Paid? || PayWage(db, o, a).1.Stopped? <==>
      a.amount > 0 && a.cashbox != "" && o.employeeActive && a.employee != "" && (a.handling.Some? <==> a.amount > Owed(db, a.employee))
    ensures !(PayWage(db, o, a).1.Paid? || PayWage(db, o, a).1.Stopped?) ==> PayWage(db, o, a).0 == db
    ensures var end, named := PayWage(db, o, a).1, a.amount > 0 && a.cashbox != "" && o.employeeActive && a.employee != "";
      && (end == BadAmount <==> a.amount <= 0) && (end == NoCashbox <==> a.amount > 0 && a.cashbox == "")
      && (end == NoEmployee <==> a.amount > 0 && a.cashbox != "" && !(o.employeeActive && a.employee != ""))
      && (end == NeedsHandling <==> named && a.amount > Owed(db, a.employee) && a.handling == None)
      && (end == NoExcess <==> named && a.amount <= Owed(db, a.employee) && a.handling != None)
  {
    hide InTurn, Legs, Owed;
  }

  // ----- the same in terms a caller can check -----

  /** A line's effect on 213 and 1123 as far as it names the employee. */
  ghost function Due(accounts: seq<Account>, employee: string): Line -> int {
    (l: Line) => if l.employee == Some(employee) && (CodeOf(accounts, l.account) == "213" || CodeOf(accounts, l.account) == "1123") then l.credit - l.debit else 0
  }

  ghost function DueIn(accounts: seq<Account>, employee: string): Entry -> int {
    (e: Entry) => if !e.isVoid then Sum(Due(accounts, employee), e.lines) else 0
  }

  lemma {:induction false} SumOpposite<T>(f: T -> int, g: T -> int, s: seq<T>)
    requires forall x :: f(x) == -g(x)
    ensures Sum(f, s) == -Sum(g, s)
  {
    if |s| > 0 {
      SumOpposite(f, g, s[..|s| - 1]);
    }
  }

  /** What is owed is what the live entries credit the employee with on his two accounts, less
      what they debit, and nothing if that is negative. */
  lemma OwedIs(db: Db, employee: string)
    ensures var due := Sum(DueIn(db.accounts, employee), db.entries); Owed(db, employee) == if due > 0 then due else 0
  {
    forall l: Line ensures Due(db.accounts, employee)(l) == -EmployeeOn(db.accounts, employee, PERSONAL_CODES)(l) {}
    forall e: Entry ensures DueIn(db.accounts, employee)(e) == -EmployeeIn(db.accounts, employee, PERSONAL_CODES)(e) {
      SumOpposite(Due(db.accounts, employee), EmployeeOn(db.accounts, employee, PERSONAL_CODES), e.lines);
    }
    SumOpposite(DueIn(db.accounts, employee), EmployeeIn(db.accounts, employee, PERSONAL_CODES), db.entries);
  }

  /** No shift, or one that is open or closing and belongs to the cashbox. */
  ghost predicate ShiftAllows(o: Setup, a: WageArgs) {
    o.shift == NotGiven || o.shift == Found("open", a.cashbox) || o.shift == Found("pending_close", a.cashbox)
  }

  /** A settlement can be paid: the shift allows it or the caller may do without, and the cashbox
      can be paid from against 213. */
  ghost predicate MaySettle(db: Db, o: Setup, a: WageArgs) {
    ShiftAllows(o, a) && (o.shift == NotGiven ==> o.directCashbox) && CanPay(db, a.cashbox, "213")
  }

  /** An approval rule covers the excess, so an advance waits for its approval. */
  ghost predicate MustWait(owed: nat, o: Setup, a: WageArgs) {
    exists k :: 0 <= k < |o.rules| && Approvals.AppliesTo(a.amount - owed)(o.rules[k])
  }

  /** An advance can be taken: submitted if it must wait, else paid against 1123. */
  ghost predicate MayAdvance(db: Db, owed: nat, o: Setup, a: WageArgs) {
    o.advanceOpen && ShiftAllows(o, a) && (MustWait(owed, o, a) || CanPay(db, a.cashbox, "1123"))
  }

  /** Some leaf carries 521 and some leaf 213: a bonus is booked when it is accrued. */
  ghost predicate Bookable(accounts: seq<Account>) {
    (exists i :: 0 <= i < |accounts| && accounts[i].code == "521" && accounts[i].isLeaf)
    && exists i :: 0 <= i < |accounts| && accounts[i].code == "213" && accounts[i].isLeaf
  }

  lemma {:induction false} LeafIff(accounts: seq<Account>, code: string)
    ensures LeafByCode(accounts, code).Some? <==> exists i :: 0 <= i < |accounts| && accounts[i].code == code && accounts[i].isLeaf
  {
    if |accounts| > 0 {
      LeafIff(accounts[1..], code);
      assert forall i :: 1 <= i < |accounts| ==> accounts[1..][i - 1] == accounts[i];
      if i :| 0 <= i < |accounts[1..]| && accounts[1..][i].code == code && accounts[1..][i].isLeaf {
        assert accounts[i + 1].code == code && accounts[i + 1].isLeaf;
      }
    }
  }

  lemma TermsAgree(db: Db, o: Setup, a: WageArgs, owed: nat)
    requires a.amount > 0
    ensures CanSettle(db, o, a) <==> MaySettle(db, o, a)
    ensures AdvanceOpen(o, a) <==> o.advanceOpen && ShiftAllows(o, a)
    ensures ExcessOf(owed, a.amount) == if a.amount > owed then a.amount - owed else 0
    ensures a.amount > owed ==> (|Approvals.Spawned(a.advance, ExcessOf(owed, a.amount), o.rules)| > 0 <==> MustWait(owed, o, a))
    ensures BonusPosts(db) <==> Bookable(db.accounts)
  {
    Approvals.SpawnedPerRule(a.advance, ExcessOf(owed, a.amount), o.rules);
    LeafIff(db.accounts, "521");
    LeafIff(db.accounts, "213");
    hide Approvals.Spawned, LeafByCode, CanPay, Approvals.AppliesTo;
  }

  /** How a call ends. One that asks for a positive amount, names a cashbox and an active employee
      and classifies an excess exactly when there is one is paid when each leg it needs may go
      through; it stops after one leg if a bonus was accrued to an employee owed nothing and may
      not be settled, or an advance is refused after what is owed was paid; else it stops before
      the first. */
  lemma WageEndsWhen(db: Db, o: Setup, a: WageArgs)
    requires NewKeys(db, a)
    ensures var owed, end := Owed(db, a.employee), PayWage(db, o, a).1;
      var asked := a.amount > 0 && a.cashbox != "" && o.employeeActive && a.employee != "" && (a.handling.Some? <==> a.amount > owed);
      var bonus, advance := a.handling == Some(AsBonus), a.handling == Some(AsAdvance);
      var settles := owed > 0 || bonus;
      && (end == Paid <==> asked && (settles ==> MaySettle(db, o, a)) && (advance ==> MayAdvance(db, owed, o, a)))
      && (end == Stopped(1) <==>
            && asked
            && ((bonus && owed == 0 && !MaySettle(db, o, a)) || (advance && owed > 0 && MaySettle(db, o, a) && !MayAdvance(db, owed, o, a))))
      && (end == Stopped(0) <==> asked && ((owed > 0 && !MaySettle(db, o, a)) || (advance && owed == 0 && !MayAdvance(db, owed, o, a))))
      && (end == Stopped(0) || !asked ==> PayWage(db, o, a).0 == db)
  {
    var owed := Owed(db, a.employee);
    RefusedIff(db, o, a);
    hide PayWage, Owed, NewKeys, CanPay, MaySettle, CanSettle, AdvanceOpen, MustWait, Approvals.Spawned, ShiftAllows;
    if a.amount > 0 {
      TermsAgree(db, o, a, owed);
      if Accepted(owed, o, a) {
        WageEnds(db, o, a);
      }
    }
  }

  /** What an advance that must wait keeps back. */
  ghost function KeptBack(owed: nat, o: Setup, a: WageArgs): int {
    if a.handling == Some(AsAdvance) && MustWait(owed, o, a) then a.amount - owed else 0
  }

  /** The bonus that is booked. */
  ghost function Booked(db: Db, a: WageArgs): int {
    if a.handling == Some(AsBonus) && Bookable(db.accounts) then a.amount - Owed(db, a.employee) else 0
  }

  /** What a paid call does: its amount, less an advance kept back, leaves its cashbox and no
      other; what is owed drops by it, to nothing if it is more; the employee's balance rises by it,
      less the bonus that was booked first, which is charged to salaries (521). */
  lemma WageMoves(db: Db, o: Setup, a: WageArgs, who: string, box: CashboxId)
    requires NewKeys(db, a) && PayWage(db, o, a).1.Paid?
    ensures var d, owed := PayWage(db, o, a).0, Owed(db, a.employee); var paid := a.amount - KeptBack(owed, o, a);
      && CashNet(d, box, Everything()) == CashNet(db, box, Everything()) - (if box == a.cashbox then paid else 0)
      && Owed(d, a.employee) == (if a.amount < owed then owed - a.amount else 0)
      && EmployeeNet(d, who, {"213", "1123"}) == EmployeeNet(db, who, {"213", "1123"}) + (if who == a.employee then paid - Booked(db, a) else 0)
      && EmployeeNet(d, who, {"521"}) == EmployeeNet(db, who, {"521"}) + (if who == a.employee then Booked(db, a) else 0)
  {
    var owed := Owed(db, a.employee);
    RefusedIff(db, o, a);
    WageConserves(db, o, a, who, box);
    TermsAgree(db, o, a, owed);
    WageEndsWhen(db, o, a);
    hide PayWage, Owed, NewKeys, CanPay, MaySettle, CanSettle, MustWait, Approvals.Spawned, ShiftAllows, EmployeeNet, CashNet, Bookable, BonusPosts;
  }

  /** Every entry a call leaves is live and dated the day of the call, whether it is paid or stops
      half way, and no entry before it changes. */
  ghost predicate WageEntry(e: Entry, a: WageArgs) {
    && e.date == a.today && !e.isVoid && e.reversalOf.None?
    && ((e.refType == "employee_settlement" && (e.refId == Document(a.settlement) || e.refId == Document(a.bonusSettlement)))
        || (e.refType == "expense" && e.refId == Document(a.advance)) || (e.refType == "employee_txn" && e.refId == Document(a.bonus)))
  }

  ghost predicate OnlyWages(db: Db, d: Db, a: WageArgs) {
    && |db.entries| <= |d.entries| && d.entries[..|db.entries|] == db.entries
    && forall k :: |db.entries| <= k < |d.entries| ==> WageEntry(d.entries[k], a)
  }

  ghost predicate WageLeg(leg: Leg, a: WageArgs) {
    leg.Posting? ==>
      && leg.spec.date == a.today && leg.spec.reversalOf.None?
      && ((leg.spec.refType == "employee_settlement" && (leg.spec.refId == Document(a.settlement) || leg.spec.refId == Document(a.bonusSettlement)))
          || (leg.spec.refType == "expense" && leg.spec.refId == Document(a.advance)))
  }

  lemma TakeDated(db: Db, front: Db, a: WageArgs, leg: Leg)
    requires OnlyWages(db, front, a) && WageLeg(leg, a)
    ensures OnlyWages(db, Take(front, a, leg).0, a)
  {
    hide Record, AccrualLines, BonusPosts;
    match leg
    case Posting(s) =>
      if Record(front, s).1.Posted? {
        var _ := Written.PostedExactly(front, s);
        hide WageLeg;
        Appended(db, front, Record(front, s).0, a);
      } else {
        var _ := RecordCases(front, s);
      }
    case Accrual(amount) =>
      if BonusPosts(front) { Appended(db, front, Accrue(front, a, amount), a); }
    case Closed =>
  }

  lemma Appended(db: Db, front: Db, d: Db, a: WageArgs)
    requires OnlyWages(db, front, a) && |d.entries| == |front.entries| + 1 && WageEntry(d.entries[|front.entries|], a)
    requires forall i :: 0 <= i < |front.entries| ==> d.entries[i] == front.entries[i]
    ensures OnlyWages(db, d, a)
  {
    hide WageEntry;
    assert d.entries[..|db.entries|] == front.entries[..|db.entries|];
  }

  lemma {:induction false} InTurnDated(db: Db, a: WageArgs, legs: seq<Leg>)
    requires forall k :: 0 <= k < |legs| ==> WageLeg(legs[k], a)
    ensures OnlyWages(db, InTurn(db, a, legs).0, a)
  {
    hide Take, WageLeg, WageEntry;
    if |legs| > 0 {
      var n := |legs| - 1;
      InTurnDated(db, a, legs[..n]);
      TakeDated(db, InTurn(db, a, legs[..n]).0, a, legs[n]);
    }
  }

  lemma WagesDated(db: Db, o: Setup, a: WageArgs)
    ensures OnlyWages(db, PayWage(db, o, a).0, a)
  {
    var owed := Owed(db, a.employee);
    hide InTurn, Owed, WageEntry, Approvals.Spawned, Record;
    if Refusal(owed, o, a).None? {
      InTurnDated(db, a, Legs(owed, o, a));
    }
  }

  /** What a settlement and an advance write: the amount out of the cashbox, against the employee
      on 213 and on 1123. */
  lemma LegWrites(db: Db, a: WageArgs, settles: bool, id: string, amount: nat, account: AccountId, other: CashboxId, asOf: int)
    returns (cash: AccountId, against: AccountId)
    requires amount > 0 && a.cashbox != "" && Record(db, if settles then SettleSpec(a, id, amount) else AdvanceSpec(a, amount)).1.Posted?
    ensures Written.BooksTo(db, a.cashbox, cash) && Written.FirstWithCode(db.accounts, if settles then "213" else "1123", against)
    ensures var d := Record(db, if settles then SettleSpec(a, id, amount) else AdvanceSpec(a, amount)).0;
      && RecipeBooks.Shifts(db, d, against, cash, amount, a.today, account, asOf)
      && if settles then
           RecipeBooks.BooksOneLeg(db, d, "employee_settlement", "other", Document(id), a.today, a.now, against, Some(a.employee), cash, a.cashbox, Out, amount,
                                   "employee_settlement")
         else
           RecipeBooks.BooksOneLeg(db, d, "expense", "expense", Document(a.advance), a.today, a.now, against, Some(a.employee), cash, a.cashbox, Out, amount,
                                   "expense")
  {
    hide Record, MapToEntityType, RecipeBooks.Shifts, RecipeBooks.BooksOneLeg, Written.BooksTo, Written.FirstWithCode, CashboxAccount, CashNet, AccountByCode;
    var counter := OfEmployee(if settles then "213" else "1123", a.employee);
    if settles {
      SettlementsAreOther();
      cash, against := RecipeBooks.OneLegBooks(db, SettleSpec(a, id, amount), "employee_settlement", "other", Document(id), a.today, a.now, counter,
                                               a.cashbox, Out, amount, "employee_settlement", account, other, asOf);
    } else {
      ExpensesAreExpenses();
      cash, against := RecipeBooks.OneLegBooks(db, AdvanceSpec(a, amount), "expense", "expense", Document(a.advance), a.today, a.now, counter,
                                               a.cashbox, Out, amount, "expense", account, other, asOf);
    }
    Written.BooksToIff(db, a.cashbox, cash);
    RecipeBooks.CodeAccount(db, counter.code, against);
  }

  lemma SettlementsAreOther()
    ensures MapToEntityType("employee_settlement") == "other"
  {
    hide MapToEntityType;
    EntityTable("employee_settlement");
  }

  // ----- the service as it runs -----

  class WageService {
    const engine: FinancialEngine

    constructor (engine: FinancialEngine)
      ensures this.engine == engine
    {
      this.engine := engine;
    }

    /** One posting in a transaction of its own. */
    method PostLeg(ghost start: Db, ghost done: seq<Leg>, a: WageArgs, s: Spec) returns (ok: bool)
      requires InTurn(start, a, done) == (engine.Snapshot(), |done|)
      modifies engine
      ensures InTurn(start, a, done + [Posting(s)]) == (engine.Snapshot(), if ok then |done| + 1 else |done|)
    {
      ghost var before := engine.Snapshot();
      assert (done + [Posting(s)])[..|done|] == done;
      var o := engine.RecordTransaction(s, false);
      TransactOne(before, s);
      ok := !o.Rejected?;
    }

    /** `recordSettlement`: its checks, then its posting. */
    method RecordSettlement(ghost start: Db, ghost done: seq<Leg>, o: Setup, a: WageArgs, id: string, amount: nat) returns (ok: bool)
      requires InTurn(start, a, done) == (engine.Snapshot(), |done|)
      modifies engine
      ensures InTurn(start, a, done + [Settlement(o, a, id, amount)]) == (engine.Snapshot(), if ok then |done| + 1 else |done|)
    {
      hide Record, SettleSpec, InTurn;
      if !SettleOpen(o, a) {
        ClosedStops(start, done, a);
        return false;
      }
      ok := PostLeg(start, done, a, SettleSpec(a, id, amount));
    }

    method AddBonus(ghost start: Db, ghost done: seq<Leg>, a: WageArgs, amount: nat)
      requires InTurn(start, a, done) == (engine.Snapshot(), |done|)
      modifies engine`entries
      ensures InTurn(start, a, done + [Accrual(amount)]) == (engine.Snapshot(), |done| + 1)
    {
      assert (done + [Accrual(amount)])[..|done|] == done;
      ghost var before := engine.Snapshot();
      if BonusPosts(engine.Snapshot()) {
        engine.entries := engine.entries + [Entry("employee_txn", Document(a.bonus), a.today, AccrualLines(engine.Snapshot(), a, amount), None, false)];
      }
      assert engine.Snapshot() == Accrue(before, a, amount);
    }

    /** The excess as an advance, or as a bonus that is accrued and then settled. */
    method PayExcess(ghost start: Db, ghost done: seq<Leg>, o: Setup, a: WageArgs, excess: nat) returns (taken: nat, ok: bool)
      requires InTurn(start, a, done) == (engine.Snapshot(), |done|)
      requires excess > 0 && a.handling.Some? && a.cashbox != "" && a.employee != ""
      modifies engine
      ensures InTurn(start, a, done + ExcessLegs(o, a, excess)) == (engine.Snapshot(), |done| + taken)
      ensures ok <==> taken == |ExcessLegs(o, a, excess)|
    {
      hide Record, Settlement, AdvanceSpec, InTurn;
      taken, ok := 0, true;
      assert done + [] == done;
      match a.handling.value {
        case AsAdvance =>
          if !AdvanceOpen(o, a) {
            ClosedStops(start, done, a);
            ok := false;
          } else if |Approvals.Spawned(a.advance, excess, o.rules)| == 0 {
            AdvanceIsAnExpense(a, excess);
            ok := PostLeg(start, done, a, ExpenseRequest(AdvanceArgs(a, excess)).spec);
            taken := if ok then 1 else 0;
          }
        case AsBonus =>
          ghost var settlement := Settlement(o, a, a.bonusSettlement, excess);
          AddBonus(start, done, a, excess);
          assert done + [Accrual(excess), settlement] == (done + [Accrual(excess)]) + [settlement];
          ok := RecordSettlement(start, done + [Accrual(excess)], o, a, a.bonusSettlement, excess);
          taken := if ok then 2 else 1;
      }
    }

    /** The payable part. */
    method PayPart(o: Setup, a: WageArgs, part: nat) returns (taken: nat, ok: bool)
      modifies engine
      ensures InTurn(old(engine.Snapshot()), a, SettleLegs(o, a, part)) == (engine.Snapshot(), taken)
      ensures ok <==> taken == |SettleLegs(o, a, part)|
    {
      hide Record, Settlement, Take;
      ghost var start := engine.Snapshot();
      taken, ok := 0, true;
      assert InTurn(start, a, []) == (start, 0);
      if part > 0 {
        ok := RecordSettlement(start, [], o, a, a.settlement, part);
        assert [] + [Settlement(o, a, a.settlement, part)] == SettleLegs(o, a, part);
        taken := if ok then 1 else 0;
      }
    }

    /** The settlement of the payable part, then the excess. */
    method PayLegs(o: Setup, a: WageArgs, part: nat, excess: nat) returns (taken: nat, ok: bool)
      requires a.cashbox != "" && a.employee != "" && (excess > 0 ==> a.handling.Some?)
      modifies engine
      ensures InTurn(old(engine.Snapshot()), a, SettleLegs(o, a, part) + ExcessLegs(o, a, excess)) == (engine.Snapshot(), taken)
      ensures ok <==> taken == |SettleLegs(o, a, part)| + |ExcessLegs(o, a, excess)|
    {
      hide *;
      ghost var start, first := engine.Snapshot(), SettleLegs(o, a, part);
      taken, ok := PayPart(o, a, part);
      if !ok {
        FirstFails(start, a, first, ExcessLegs(o, a, excess));
        return;
      }
      if excess > 0 {
        var more;
        more, ok := PayExcess(start, first, o, a, excess);
        taken := taken + more;
      } else {
        NoExcessNoLegs(o, a);
        assert first + [] == first;
      }
    }

    /** `payWage`. */
    method Pay(o: Setup, a: WageArgs) returns (outcome: WageOutcome)
      modifies engine
      ensures (engine.Snapshot(), outcome) == PayWage(old(engine.Snapshot()), o, a)
    {
      if a.amount <= 0 {
        return BadAmount;
      }
      if a.cashbox == "" {
        return NoCashbox;
      }
      if !o.employeeActive || a.employee == "" {
        return NoEmployee;
      }
      var payable := Owed(engine.Snapshot(), a.employee);
      var part, excess := PayablePart(payable, a.amount), ExcessOf(payable, a.amount);
      if excess > 0 && a.handling.None? {
        return NeedsHandling;
      }
      if a.handling.Some? && excess == 0 {
        return NoExcess;
      }
      hide InTurn, Owed, SettleLegs, ExcessLegs;
      var taken, ok := PayLegs(o, a, part, excess);
      return if ok then Paid else Stopped(taken);
    }
  }

  lemma FirstFails(db: Db, a: WageArgs, first: seq<Leg>, rest: seq<Leg>)
    requires InTurn(db, a, first).1 < |first|
    ensures InTurn(db, a, first + rest) == InTurn(db, a, first)
  {
    assert (first + rest)[..|first|] == first;
    StopsHere(db, a, first + rest, |first|);
  }

  lemma ClosedStops(db: Db, done: seq<Leg>, a: WageArgs)
    requires InTurn(db, a, done).1 == |done|
    ensures InTurn(db, a, done + [Closed]) == InTurn(db, a, done)
  {
    assert (done + [Closed])[..|done|] == done;
  }

  lemma NoExcessNoLegs(o: Setup, a: WageArgs)
    ensures ExcessLegs(o, a, 0) == []
  {
  }

  lemma TransactOne(db: Db, s: Spec)
    ensures Transact(db, [RecordCall(s)]) == if Record(db, s).1.Rejected? then db else Record(db, s).0
  {
    AttemptOne(db, s);
    assert Calls([s]) == [RecordCall(s)];
  }

  /** Once a leg has failed, the rest are not tried. */
  lemma {:induction false} StopsHere(db: Db, a: WageArgs, legs: seq<Leg>, n: nat)
    requires n <= |legs| && InTurn(db, a, legs[..n]).1 < n
    ensures InTurn(db, a, legs) == InTurn(db, a, legs[..n])
    decreases |legs| - n
  {
    if n == |legs| {
      assert legs[..n] == legs;
    } else {
      assert legs[..n + 1][..n] == legs[..n];
      StopsHere(db, a, legs, n + 1);
    }
  }
}
