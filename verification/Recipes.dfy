/**
 The recipes that build specs for the engine, and exactly when the engine posts them.
 */
module Recipes {
  import opened Sums
  import opened Ledger
  import opened Alignment
  import opened Engine
  import opened Runs

  // ----- acceptance in general -----

  /** Accounts and cashbox kinds, which is all that account resolution reads. */
  predicate SameChart(db: Db, d: Db) {
    && d.accounts == db.accounts && d.boxes.Keys == db.boxes.Keys
    && forall b :: b in db.boxes ==> d.boxes[b].kind == db.boxes[b].kind
  }

  lemma ResolveFrame(db: Db, d: Db, l: GlLine)
    requires SameChart(db, d)
    ensures Resolve(d, l) == Resolve(db, l)
  {
  }

  lemma {:induction false} ResolveAllFrame(db: Db, d: Db, lines: seq<GlLine>)
    requires SameChart(db, d)
    ensures ResolveAll(d, lines) == ResolveAll(db, lines)
  {
    if |lines| > 0 {
      ResolveAllFrame(db, d, lines[..|lines| - 1]);
      ResolveFrame(db, d, lines[|lines| - 1]);
    }
  }

  function AskedCredit(): GlLine -> int { (l: GlLine) => l.credit }

  lemma {:induction false} AskedCreditIsResolved(db: Db, lines: seq<GlLine>)
    requires ResolveAll(db, lines).Some?
    ensures Sum(Credit(), ResolveAll(db, lines).value) == Sum(AskedCredit(), lines)
  {
    if |lines| > 0 {
      var n := |lines| - 1;
      AskedCreditIsResolved(db, lines[..n]);
      SumSnoc(Credit(), ResolveAll(db, lines[..n]).value, Resolve(db, lines[n]).value);
    }
  }

  /** What a caller can check before asking for a guarded posting. */
  ghost predicate WouldPost(db: Db, s: Spec) {
    && ValidateSpec(s).None? && !db.locked
    && (forall i :: 0 <= i < |db.entries| ==> !Claims(db.entries[i], s.refType, s.refId))
    && (forall i :: 0 <= i < |s.movements| ==> s.movements[i].cashbox in db.boxes)
    && Abs(Sum(AskedDebit(), s.lines) - Sum(AskedCredit(), s.lines)) <= 1
    && Sum(AskedDebit(), s.lines) >= 1
    && var lines := ResolveAll(db, s.lines);
       lines.Some? && Agree(db.accounts, lines.value, s.movements) && KeysExist(db, s.reversalOf, Kept(lines.value))
  }

  /** A guarded call posts exactly when every one of its checks holds beforehand. */
  lemma PostsIff(db: Db, s: Spec)
    requires !s.accountingOnly
    ensures Record(db, s).1.Posted? <==> WouldPost(db, s)
  {
    hide MapToEntityType, ValidateSpec, HasAccount, Agree;
    var paid := PaySpec(db, s).0;
    PayAllFrame(db, s.movements, MapToEntityType(s.refType), s.refId, s.now);
    ResolveAllFrame(db, paid, s.lines);
    if ResolveAll(db, s.lines).Some? {
      var lines := ResolveAll(db, s.lines).value;
      AskedIsResolved(db, s.lines);
      AskedCreditIsResolved(db, s.lines);
      GuardDecidesAgreement(db.accounts, lines, s.movements);
      assert KeysExist(paid, s.reversalOf, Kept(lines)) <==> KeysExist(db, s.reversalOf, Kept(lines));
    }
  }

  // ----- recipes with one cash leg -----

  datatype Counterpart = ByCode(code: string) | ById(account: AccountId) | OfEmployee(code: string, employee: string)

  function CounterLine(c: Counterpart, debit: Cents, credit: Cents): GlLine {
    match c
    case ByCode(code) => GlLine(Some(code), None, None, debit, credit, None, None)
    case ById(id) => GlLine(None, Some(id), None, debit, credit, None, None)
    case OfEmployee(code, employee) => GlLine(Some(code), None, None, debit, credit, None, Some(employee))
  }

  function CashLine(box: CashboxId, debit: Cents, credit: Cents): GlLine {
    GlLine(None, None, Some(box), debit, credit, Some(box), None)
  }

  function CounterAccount(db: Db, c: Counterpart): Option<AccountId> {
    match c
    case ByCode(code) => AccountByCode(db.accounts, code)
    case ById(id) => Some(id)
    case OfEmployee(code, _) => AccountByCode(db.accounts, code)
  }

  function EmployeeOf(c: Counterpart): Option<string> { if c.OfEmployee? then Some(c.employee) else None }

  /** Debit first; the cash line is the debit of an inflow and the credit of an outflow. */
  function OneCashLeg(refType: string, refId: RefId, date: int, description: string, now: int,
                      counter: Counterpart, box: CashboxId, direction: Direction, amount: Cents, category: string): Spec {
    Spec(refType, refId, date, description,
         if direction.In? then [CashLine(box, amount, 0), CounterLine(counter, 0, amount)]
         else [CounterLine(counter, amount, 0), CashLine(box, 0, amount)],
         [Movement(box, direction, amount, category)], None, false, now)
  }

  function NoCash(refType: string, refId: RefId, date: int, description: string, now: int,
                  debit: Counterpart, credit: Counterpart, amount: Cents): Spec {
    Spec(refType, refId, date, description,
         [CounterLine(debit, amount, 0), CounterLine(credit, 0, amount)], [], None, false, now)
  }

  function TransferSpec(refId: RefId, date: int, description: string, now: int,
                        source: CashboxId, target: CashboxId, amount: Cents): Spec {
    Spec("cashbox_transfer", refId, date, description,
         [CashLine(target, amount, 0), CashLine(source, 0, amount)],
         [Movement(source, Out, amount, "transfer"), Movement(target, In, amount, "transfer")], None, false, now)
  }

  /** The document has no live entry and postings are not locked. */
  ghost predicate Open(db: Db, refType: string, refId: RefId) {
    !db.locked && forall i :: 0 <= i < |db.entries| ==> !Claims(db.entries[i], refType, refId)
  }

  predicate WellNamed(c: Counterpart) { if c.ById? then c.account != "" else c.code != "" }

  /** The cashbox exists and its account is one the guard watches. */
  predicate LiquidBox(db: Db, box: CashboxId) {
    && box in db.boxes && box != ""
    && CashboxAccount(db, box).Some?
    && IsLiquid(CodeOf(db.accounts, CashboxAccount(db, box).value))
  }

  /** The counterpart names an existing account the guard does not watch, and an employee
      where the account is a personal one. */
  ghost predicate PlainCounterpart(db: Db, c: Counterpart) {
    && CounterAccount(db, c).Some? && HasAccount(db.accounts, CounterAccount(db, c).value)
    && !IsLiquid(CodeOf(db.accounts, CounterAccount(db, c).value))
    && (IsPersonal(CodeOf(db.accounts, CounterAccount(db, c).value)) ==> c.OfEmployee?)
  }

  lemma {:induction false} AccountByCodeExists(accounts: seq<Account>, code: string)
    ensures AccountByCode(accounts, code).Some? ==> HasAccount(accounts, AccountByCode(accounts, code).value)
  {
    if |accounts| > 0 {
      AccountByCodeExists(accounts[1..], code);
      assert forall i :: 0 <= i < |accounts| - 1 ==> accounts[1..][i] == accounts[i + 1];
      assert accounts[0].id == accounts[0].id;
      if AccountByCode(accounts[1..], code).Some? {
        var i :| 0 <= i < |accounts| - 1 && accounts[1..][i].id == AccountByCode(accounts[1..], code).value;
        assert accounts[i + 1].id == AccountByCode(accounts[1..], code).value;
      }
    }
  }

  lemma {:induction false} LinkedAccountExists(accounts: seq<Account>, box: CashboxId)
    ensures LinkedAccount(accounts, box).Some? ==> HasAccount(accounts, LinkedAccount(accounts, box).value)
  {
    if |accounts| > 0 {
      LinkedAccountExists(accounts[1..], box);
      if LinkedAccount(accounts[1..], box).Some? {
        var i :| 0 <= i < |accounts| - 1 && accounts[1..][i].id == LinkedAccount(accounts[1..], box).value;
        assert accounts[i + 1].id == LinkedAccount(accounts[1..], box).value;
      }
      assert accounts[0].id == accounts[0].id;
    }
  }

  lemma CashboxAccountExists(db: Db, box: CashboxId)
    ensures CashboxAccount(db, box).Some? ==> HasAccount(db.accounts, CashboxAccount(db, box).value)
  {
    LinkedAccountExists(db.accounts, box);
    AccountByCodeExists(db.accounts, KindToCode(if box in db.boxes then db.boxes[box].kind else "cash"));
  }

  // Two-line specs, spelled out.

  lemma TwoLinesResolve(db: Db, a: GlLine, b: GlLine)
    ensures ResolveAll(db, [a, b]).Some? <==> Resolve(db, a).Some? && Resolve(db, b).Some?
    ensures ResolveAll(db, [a, b]).Some? ==> ResolveAll(db, [a, b]).value == [Resolve(db, a).value, Resolve(db, b).value]
  {
    var lines := [a, b];
    assert lines[0] == a && lines[1] == b;
    if ResolveAll(db, lines).Some? {
      assert Resolve(db, lines[0]).Some? && Resolve(db, lines[1]).Some?;
    }
  }

  lemma TwoLinesValid(a: GlLine, b: GlLine)
    ensures FirstLineError([a, b]).None? <==> LineError(a).None? && LineError(b).None?
  {
    var lines := [a, b];
    assert lines[0] == a && lines[1] == b;
  }

  /** Acceptance of a guarded spec of two nonzero lines of the same amount. */
  lemma TwoLinePostsIff(db: Db, s: Spec, a: GlLine, b: GlLine)
    requires s.lines == [a, b] && !s.accountingOnly && s.reversalOf.None?
    requires s.refType != "" && s.refId != Document("") && s.description != ""
    requires LineError(a).None? && LineError(b).None? && FirstMovementError(s.movements).None?
    requires a.debit == b.credit > 0 && a.credit == b.debit == 0
    ensures Record(db, s).1.Posted? <==>
      && Open(db, s.refType, s.refId)
      && (forall i :: 0 <= i < |s.movements| ==> s.movements[i].cashbox in db.boxes)
      && Resolve(db, a).Some? && Resolve(db, b).Some?
      && var lines := [Resolve(db, a).value, Resolve(db, b).value];
         Agree(db.accounts, lines, s.movements) && KeysExist(db, None, lines)
  {
    TwoLineSpec(s, a, b);
    hide Record, HasAccount, Agree, Resolve, ValidateSpec, Sum, LineError;
    PostsIff(db, s);
    TwoLinesResolve(db, a, b);
    if Resolve(db, a).Some? && Resolve(db, b).Some? {
      KeptTwo(db, a, b);
    }
  }

  lemma TwoLineSpec(s: Spec, a: GlLine, b: GlLine)
    requires s.lines == [a, b] && s.refType != "" && s.refId != Document("") && s.description != ""
    requires LineError(a).None? && LineError(b).None? && FirstMovementError(s.movements).None?
    requires a.debit == b.credit > 0 && a.credit == b.debit == 0
    ensures ValidateSpec(s).None? && Sum(AskedDebit(), s.lines) == Sum(AskedCredit(), s.lines) == a.debit
  {
    TwoLinesValid(a, b);
    SumTwo(AskedDebit(), a, b);
    SumTwo(AskedCredit(), a, b);
  }

  lemma KeptTwo(db: Db, a: GlLine, b: GlLine)
    requires Resolve(db, a).Some? && Resolve(db, b).Some? && a.debit > 0 && b.credit > 0
    ensures var lines := [Resolve(db, a).value, Resolve(db, b).value]; Kept(lines) == lines
  {
    hide ResolveAccount;
    KeepTwo(IsNonzero(), Resolve(db, a).value, Resolve(db, b).value);
  }

  lemma NoAgreementWithout(accounts: seq<Account>, lines: seq<Line>, moves: seq<Movement>)
    requires |LiquidLines(accounts, lines)| != |moves|
    ensures !Agree(accounts, lines, moves)
  {
    assert |multiset(Needs(LiquidLines(accounts, lines)))| != |multiset(Offers(moves))|;
  }

  lemma OneCashLegAgrees(accounts: seq<Account>, cash: Line, counter: Line, m: Movement, cashFirst: bool)
    requires cash.cashbox == Some(m.cashbox) && m.cashbox != "" && counter.cashbox == None
    requires NeedOf(cash) == OfferOf(m)
    ensures Agree(accounts, if cashFirst then [cash, counter] else [counter, cash], [m])
       <==> IsLiquid(CodeOf(accounts, cash.account)) && !IsLiquid(CodeOf(accounts, counter.account))
  {
    var lines := if cashFirst then [cash, counter] else [counter, cash];
    KeepTwo(OnLiquid(accounts), cash, counter);
    KeepTwo(OnLiquid(accounts), counter, cash);
    var liquid := LiquidLines(accounts, lines);
    if IsLiquid(CodeOf(accounts, counter.account)) {
      assert liquid[0] == counter || liquid[|liquid| - 1] == counter;
      assert !IsTagged(counter);
    } else if IsLiquid(CodeOf(accounts, cash.account)) {
      assert liquid == [cash] && Needs(liquid) == [NeedOf(cash)] && Offers([m]) == [OfferOf(m)];
    } else {
      NoAgreementWithout(accounts, lines, [m]);
    }
  }

  lemma KeysOfTwo(db: Db, a: Line, b: Line)
    ensures KeysExist(db, None, [a, b]) <==> LineKeys(db.accounts, db.boxes.Keys, a) && LineKeys(db.accounts, db.boxes.Keys, b)
  {
    assert [a, b][0] == a && [a, b][1] == b;
  }

  /** The cash line of a watched cashbox passes the checks of the database. */
  lemma CashLineKeys(db: Db, l: Line)
    requires HasAccount(db.accounts, l.account) && IsLiquid(CodeOf(db.accounts, l.account)) && l.cashbox.Some?
    ensures LineKeys(db.accounts, db.boxes.Keys, l) <==> l.cashbox.value in db.boxes
  {
    if IsPersonal(CodeOf(db.accounts, l.account)) {
      PersonalIsPlain(CodeOf(db.accounts, l.account));
    }
  }

  lemma CounterResolves(db: Db, c: Counterpart, debit: Cents, credit: Cents)
    requires WellNamed(c)
    ensures var account := CounterAccount(db, c);
      Resolve(db, CounterLine(c, debit, credit)) == if account.None? then None else Some(Line(account.value, debit, credit, None, EmployeeOf(c)))
  {
  }

  lemma CashResolves(db: Db, box: CashboxId, debit: Cents, credit: Cents)
    requires box != ""
    ensures var account := CashboxAccount(db, box);
      Resolve(db, CashLine(box, debit, credit)) == if account.None? then None else Some(Line(account.value, debit, credit, Some(box), None))
  {
  }

  /** A posting with one cash leg is accepted exactly when the cashbox resolves to a
      watched account and its counterpart to an existing unwatched one. */
  lemma OneCashLegPostsIff(db: Db, refType: string, refId: RefId, date: int, description: string, now: int,
                           counter: Counterpart, box: CashboxId, direction: Direction, amount: Cents, category: string)
    requires amount > 0 && refType != "" && refId != Document("") && description != ""
    requires WellNamed(counter) && box != ""
    ensures var s := OneCashLeg(refType, refId, date, description, now, counter, box, direction, amount, category);
      Record(db, s).1.Posted? <==> Open(db, refType, refId) && LiquidBox(db, box) && PlainCounterpart(db, counter)
  {
    hide Record, CashboxAccount, AccountByCode, CodeOf, HasAccount, Agree, Open, Resolve, CounterAccount;
    var s := OneCashLeg(refType, refId, date, description, now, counter, box, direction, amount, category);
    var m := Movement(box, direction, amount, category);
    assert s.movements == [m] && FirstMovementError([m]).None?;
    CounterResolves(db, counter, amount, 0);
    CounterResolves(db, counter, 0, amount);
    CashResolves(db, box, amount, 0);
    CashResolves(db, box, 0, amount);
    TwoLinePostsIff(db, s, s.lines[0], s.lines[1]);
    CashboxAccountExists(db, box);
    var ac, ao := CashboxAccount(db, box), CounterAccount(db, counter);
    if ac.Some? && ao.Some? {
      var cash := Line(ac.value, if direction.In? then amount else 0, if direction.In? then 0 else amount, Some(box), None);
      var other := Line(ao.value, cash.credit, cash.debit, None, EmployeeOf(counter));
      OneCashLegAgrees(db.accounts, cash, other, m, direction.In?);
      KeysOfTwo(db, cash, other);
      KeysOfTwo(db, other, cash);
      if IsLiquid(CodeOf(db.accounts, cash.account)) {
        CashLineKeys(db, cash);
      }
    }
  }

  // ----- the recipes -----

  datatype Request = Refused | Nothing | Ask(spec: Spec)

  predicate PostsRequest(db: Db, r: Request) { r.Ask? && Record(db, r.spec).1.Posted? }

  function Described(given: Option<string>, fallback: string): string {
    if given.Some? then given.value else fallback
  }

  datatype ExpenseArgs = ExpenseArgs(
    id: string, amount: Cents, category: Option<AccountId>, cashbox: Option<CashboxId>, method_: string,
    isAdvance: bool, employee: Option<string>, date: int, description: Option<string>, now: int)

  function ExpenseDebit(a: ExpenseArgs): Counterpart {
    if a.isAdvance && Present(a.employee) then OfEmployee(GL_EMPLOYEE_RECEIVABLE, a.employee.value)
    else if Present(a.category) then ById(a.category.value)
    else ByCode("529")
  }

  /** `recordExpense`. */
  function ExpenseRequest(a: ExpenseArgs): Request {
    if a.amount <= 0 then Refused
    else if a.method_ == "cash" && !Present(a.cashbox) then Refused
    else
      var text := Described(a.description, "expense");
      if a.method_ == "cash"
      then Ask(OneCashLeg("expense", Document(a.id), a.date, text, a.now, ExpenseDebit(a), a.cashbox.value, Out, a.amount, "expense"))
      else Ask(NoCash("expense", Document(a.id), a.date, text, a.now, ExpenseDebit(a), ByCode("211"), a.amount))
  }

  datatype Treatment = ChargeEmployee | CompanyLoss | ToRevenue | ToSuspense

  datatype VarianceArgs = VarianceArgs(
    shift: string, cashbox: CashboxId, variance: Cents, treatment: Option<Treatment>,
    employee: Option<string>, date: int, now: int)

  function VarianceCounterpart(t: Treatment, employee: Option<string>): Counterpart {
    match t
    case ChargeEmployee => if employee.Some? then OfEmployee(GL_EMPLOYEE_RECEIVABLE, employee.value) else ByCode(GL_EMPLOYEE_RECEIVABLE)
    case CompanyLoss => ByCode("531")
    case ToRevenue => ByCode("421")
    case ToSuspense => ByCode("215")
  }

  /** `recordShiftVariance`: a surplus is revenue or suspense, a shortage a loss or a charge. */
  function VarianceRequest(a: VarianceArgs): Request {
    if a.variance == 0 then Nothing
    else
      var surplus := a.variance > 0;
      var t := if a.treatment.Some? then a.treatment.value else if surplus then ToRevenue else CompanyLoss;
      if surplus != (t.ToRevenue? || t.ToSuspense?) then Refused
      else if t.ChargeEmployee? && !Present(a.employee) then Refused
      else Ask(OneCashLeg("shift_variance", Document(a.shift), a.date, "shift variance", a.now, VarianceCounterpart(t, a.employee),
                          a.cashbox, if surplus then In else Out, Abs(a.variance), "shift_variance"))
  }

  /** `recordCashboxTransfer`. */
  function TransferRequest(id: RefId, source: CashboxId, target: CashboxId, amount: Cents, date: int,
                           notes: Option<string>, now: int): Request {
    if amount <= 0 || source == target then Refused
    else Ask(TransferSpec(id, date, Described(notes, "cashbox transfer"), now, source, target, amount))
  }

  /** `recordManualAdjustment`: deposits credit capital (31), withdrawals debit drawings (32). */
  function ManualRequest(id: string, box: CashboxId, direction: Direction, amount: Cents, date: int,
                         notes: Option<string>, now: int): Request {
    if amount <= 0 then Refused
    else Ask(OneCashLeg("manual_adjustment", Document(id), date, Described(notes, "manual adjustment"), now,
                        ByCode(if direction.In? then "31" else "32"), box, direction, amount,
                        if direction.In? then "manual_deposit" else "manual_withdraw"))
  }

  /** Paying in cash posts exactly for a positive amount, a cashbox the guard watches and a
      debit account it does not; a cash expense without a cashbox never posts. */
  lemma CashExpensePostsIff(db: Db, a: ExpenseArgs)
    requires a.id != "" && a.method_ == "cash" && a.description != Some("")
    ensures PostsRequest(db, ExpenseRequest(a)) <==>
      && a.amount > 0 && a.cashbox.Some? && Open(db, "expense", Document(a.id))
      && LiquidBox(db, a.cashbox.value) && PlainCounterpart(db, ExpenseDebit(a))
  {
    if a.amount > 0 && Present(a.cashbox) {
      OneCashLegPostsIff(db, "expense", Document(a.id), a.date, Described(a.description, "expense"), a.now,
                         ExpenseDebit(a), a.cashbox.value, Out, a.amount, "expense");
    }
  }

  lemma NoCashPostsIff(db: Db, s: Spec, debit: Counterpart, credit: Counterpart, amount: Cents)
    requires s == NoCash(s.refType, s.refId, s.date, s.description, s.now, debit, credit, amount)
    requires amount > 0 && s.refType != "" && s.refId != Document("") && s.description != ""
    requires WellNamed(debit) && WellNamed(credit)
    ensures Record(db, s).1.Posted? <==>
      Open(db, s.refType, s.refId) && PlainCounterpart(db, debit) && PlainCounterpart(db, credit)
  {
    hide Record, AccountByCode, CodeOf, HasAccount, Open, Resolve, CounterAccount;
    CounterResolves(db, debit, amount, 0);
    CounterResolves(db, credit, 0, amount);
    TwoLinePostsIff(db, s, s.lines[0], s.lines[1]);
    var ad, ac := CounterAccount(db, debit), CounterAccount(db, credit);
    if ad.Some? && ac.Some? {
      var d, c := Line(ad.value, amount, 0, None, EmployeeOf(debit)), Line(ac.value, 0, amount, None, EmployeeOf(credit));
      KeepTwo(OnLiquid(db.accounts), d, c);
      var liquid := LiquidLines(db.accounts, [d, c]);
      if |liquid| > 0 {
        assert !IsTagged(liquid[0]);
      } else {
        assert Needs(liquid) == [] && Offers(s.movements) == [];
      }
      KeysOfTwo(db, d, c);
    }
  }

  /** A credit expense needs both its accounts to exist outside the liquid codes. */
  lemma CreditExpensePostsIff(db: Db, a: ExpenseArgs)
    requires a.id != "" && a.method_ != "cash" && a.description != Some("")
    ensures PostsRequest(db, ExpenseRequest(a)) <==>
      && a.amount > 0 && Open(db, "expense", Document(a.id))
      && PlainCounterpart(db, ExpenseDebit(a)) && PlainCounterpart(db, ByCode("211"))
  {
    if a.amount > 0 {
      NoCashPostsIff(db, ExpenseRequest(a).spec, ExpenseDebit(a), ByCode("211"), a.amount);
    }
  }

  /** Which treatment fits the sign of the variance. */
  predicate TreatmentFits(a: VarianceArgs) {
    && a.variance != 0
    && (a.treatment.Some? ==>
          if a.variance > 0 then a.treatment.value.ToRevenue? || a.treatment.value.ToSuspense?
          else a.treatment.value.CompanyLoss? || (a.treatment.value.ChargeEmployee? && Present(a.employee)))
  }

  function VarianceTreatment(a: VarianceArgs): Treatment {
    if a.treatment.Some? then a.treatment.value else if a.variance > 0 then ToRevenue else CompanyLoss
  }

  lemma VariancePostsIff(db: Db, a: VarianceArgs)
    requires a.shift != "" && a.cashbox != ""
    ensures PostsRequest(db, VarianceRequest(a)) <==>
      && TreatmentFits(a) && Open(db, "shift_variance", Document(a.shift))
      && LiquidBox(db, a.cashbox) && PlainCounterpart(db, VarianceCounterpart(VarianceTreatment(a), a.employee))
  {
    if TreatmentFits(a) {
      OneCashLegPostsIff(db, "shift_variance", Document(a.shift), a.date, "shift variance", a.now,
                         VarianceCounterpart(VarianceTreatment(a), a.employee), a.cashbox,
                         if a.variance > 0 then In else Out, Abs(a.variance), "shift_variance");
    }
  }

  lemma ManualPostsIff(db: Db, id: string, box: CashboxId, direction: Direction, amount: Cents, date: int,
                       notes: Option<string>, now: int)
    requires id != "" && box != "" && notes != Some("")
    ensures PostsRequest(db, ManualRequest(id, box, direction, amount, date, notes, now)) <==>
      && amount > 0 && Open(db, "manual_adjustment", Document(id)) && LiquidBox(db, box)
      && PlainCounterpart(db, ByCode(if direction.In? then "31" else "32"))
  {
    if amount > 0 {
      OneCashLegPostsIff(db, "manual_adjustment", Document(id), date, Described(notes, "manual adjustment"), now,
                         ByCode(if direction.In? then "31" else "32"), box, direction, amount,
                         if direction.In? then "manual_deposit" else "manual_withdraw");
    }
  }

  lemma SwappedBags(a: Pair, b: Pair)
    ensures multiset([a, b]) == multiset([b, a])
  {
  }

  lemma TransferLines(accounts: seq<Account>, t: Line, s: Line)
    requires IsLiquid(CodeOf(accounts, t.account)) && IsLiquid(CodeOf(accounts, s.account))
    ensures LiquidLines(accounts, [t, s]) == [t, s] && Needs([t, s]) == [NeedOf(t), NeedOf(s)]
  {
    KeepTwo(OnLiquid(accounts), t, s);
  }

  lemma TransferMissesLine(accounts: seq<Account>, t: Line, s: Line)
    requires !IsLiquid(CodeOf(accounts, t.account)) || !IsLiquid(CodeOf(accounts, s.account))
    ensures |LiquidLines(accounts, [t, s])| < 2
  {
    KeepTwo(OnLiquid(accounts), t, s);
  }

  lemma TransferAgrees(accounts: seq<Account>, t: Line, s: Line, out: Movement, into: Movement)
    requires t.cashbox == Some(into.cashbox) && s.cashbox == Some(out.cashbox) && into.cashbox != "" && out.cashbox != ""
    requires NeedOf(t) == OfferOf(into) && NeedOf(s) == OfferOf(out)
    ensures Agree(accounts, [t, s], [out, into]) <==> IsLiquid(CodeOf(accounts, t.account)) && IsLiquid(CodeOf(accounts, s.account))
  {
    if !IsLiquid(CodeOf(accounts, t.account)) || !IsLiquid(CodeOf(accounts, s.account)) {
      TransferMissesLine(accounts, t, s);
      NoAgreementWithout(accounts, [t, s], [out, into]);
    } else {
      TransferLines(accounts, t, s);
      SwappedBags(OfferOf(into), OfferOf(out));
      assert Offers([out, into]) == [OfferOf(out), OfferOf(into)];
    }
  }

  /** A transfer posts exactly when both cashboxes are distinct and watched by the guard. */
  lemma TransferPostsIff(db: Db, id: RefId, source: CashboxId, target: CashboxId, amount: Cents, date: int,
                         notes: Option<string>, now: int)
    requires id != Document("") && source != "" && target != "" && notes != Some("")
    ensures PostsRequest(db, TransferRequest(id, source, target, amount, date, notes, now)) <==>
      && amount > 0 && source != target && Open(db, "cashbox_transfer", id)
      && LiquidBox(db, source) && LiquidBox(db, target)
  {
    hide Record, CashboxAccount, AccountByCode, CodeOf, HasAccount, Agree, Open, Resolve;
    if amount > 0 && source != target {
      var s := TransferRequest(id, source, target, amount, date, notes, now).spec;
      var out, into := Movement(source, Out, amount, "transfer"), Movement(target, In, amount, "transfer");
      CashResolves(db, target, amount, 0);
      CashResolves(db, source, 0, amount);
      CashboxAccountExists(db, source);
      CashboxAccountExists(db, target);
      assert s.movements == [out, into] && FirstMovementError([out, into]).None? by {
        assert [out, into][0] == out && [out, into][1] == into;
      }
      TwoLinePostsIff(db, s, s.lines[0], s.lines[1]);
      var at, as_ := CashboxAccount(db, target), CashboxAccount(db, source);
      if at.Some? && as_.Some? {
        var t, c := Line(at.value, amount, 0, Some(target), None), Line(as_.value, 0, amount, Some(source), None);
        TransferAgrees(db.accounts, t, c, out, into);
        KeysOfTwo(db, t, c);
        if IsLiquid(CodeOf(db.accounts, t.account)) && IsLiquid(CodeOf(db.accounts, c.account)) {
          CashLineKeys(db, t);
          CashLineKeys(db, c);
        }
      }
    }
  }

  // ----- opening balance -----

  datatype OpeningArgs = OpeningArgs(
    cash: Cents, dues: Cents, stock: Cents, assets: Cents, suppliers: Cents,
    capital: Option<Cents>, cashbox: Option<CashboxId>, reference: RefId, date: int, now: int)

  /** What capital absorbs: the figure given, or assets less supplier dues. */
  function Plug(a: OpeningArgs): Cents {
    if a.capital.Some? then a.capital.value else a.cash + a.dues + a.stock + a.assets - a.suppliers
  }

  function Part(wanted: bool, l: GlLine): seq<GlLine> { if wanted then [l] else [] }

  function OpeningCash(a: OpeningArgs): seq<GlLine> {
    if a.cash > 0 && a.cashbox.Some? then [CashLine(a.cashbox.value, a.cash, 0)] else []
  }

  function OpeningRest(a: OpeningArgs): seq<GlLine> {
    Part(a.dues > 0, CounterLine(ByCode("1121"), a.dues, 0))
    + Part(a.stock > 0, CounterLine(ByCode("1131"), a.stock, 0))
    + Part(a.assets > 0, CounterLine(ByCode("121"), a.assets, 0))
    + Part(a.suppliers > 0, CounterLine(ByCode("211"), 0, a.suppliers))
    + Part(Plug(a) != 0, CounterLine(ByCode("31"), 0, Plug(a)))
  }

  /** `recordOpeningBalance`. */
  function OpeningRequest(a: OpeningArgs): Request {
    if a.cash > 0 && !Present(a.cashbox) then Refused
    else Ask(Spec("opening_balance", a.reference, a.date, "opening entry", OpeningCash(a) + OpeningRest(a),
                  if a.cash > 0 then [Movement(a.cashbox.value, In, a.cash, "opening_balance")] else [],
                  None, false, a.now))
  }

  function Positive(x: Cents): Cents { if x > 0 then x else 0 }

  function OpeningDebits(a: OpeningArgs): Cents {
    Positive(a.cash) + Positive(a.dues) + Positive(a.stock) + Positive(a.assets)
  }

  /** The accounts the figures of an opening name. */
  predicate OpeningUses(a: OpeningArgs, code: string) {
    || (code == "1121" && a.dues > 0) || (code == "1131" && a.stock > 0) || (code == "121" && a.assets > 0)
    || (code == "211" && a.suppliers > 0) || (code == "31" && Plug(a) != 0)
  }

  /** The accounts the opening names exist, and the cashbox is watched by the guard. */
  ghost predicate OpeningReady(db: Db, a: OpeningArgs) {
    && Open(db, "opening_balance", a.reference) && a.reference != Document("")
    && (forall code :: OpeningUses(a, code) ==> PlainCounterpart(db, ByCode(code)))
    && (a.cash > 0 && Present(a.cashbox) ==> LiquidBox(db, a.cashbox.value))
  }

  ghost predicate PlainLine(db: Db, g: GlLine) {
    && Resolve(db, g).Some? && Resolve(db, g).value.cashbox == None
    && HasAccount(db.accounts, Resolve(db, g).value.account)
    && !IsLiquid(CodeOf(db.accounts, Resolve(db, g).value.account))
    && !IsPersonal(CodeOf(db.accounts, Resolve(db, g).value.account))
  }

  lemma ResolveSnoc(db: Db, lines: seq<GlLine>, g: GlLine)
    requires ResolveAll(db, lines).Some? && Resolve(db, g).Some?
    ensures ResolveAll(db, lines + [g]) == Some(ResolveAll(db, lines).value + [Resolve(db, g).value])
  {
    assert (lines + [g])[..|lines|] == lines;
  }

  lemma PlainSnoc(db: Db, lines: seq<GlLine>, g: GlLine)
    requires ResolveAll(db, lines).Some? && PlainLine(db, g)
    ensures ResolveAll(db, lines + [g]).Some?
    ensures LiquidLines(db.accounts, ResolveAll(db, lines + [g]).value) == LiquidLines(db.accounts, ResolveAll(db, lines).value)
  {
    ResolveSnoc(db, lines, g);
    KeepSnoc(OnLiquid(db.accounts), ResolveAll(db, lines).value, Resolve(db, g).value);
    hide ResolveAll, Resolve;
  }

  lemma {:induction false} PlainTail(db: Db, front: seq<GlLine>, rest: seq<GlLine>)
    requires ResolveAll(db, front).Some?
    requires forall i :: 0 <= i < |rest| ==> PlainLine(db, rest[i])
    ensures ResolveAll(db, front + rest).Some?
    ensures LiquidLines(db.accounts, ResolveAll(db, front + rest).value) == LiquidLines(db.accounts, ResolveAll(db, front).value)
  {
    hide ResolveAll, PlainLine, LiquidLines;
    if |rest| == 0 {
      assert front + rest == front;
    } else {
      var n := |rest| - 1;
      PlainTail(db, front, rest[..n]);
      assert front + rest == (front + rest[..n]) + [rest[n]];
      PlainSnoc(db, front + rest[..n], rest[n]);
    }
  }

  lemma PartSum(f: GlLine -> int, wanted: bool, l: GlLine)
    ensures Sum(f, Part(wanted, l)) == if wanted then f(l) else 0
  {
    SumSnoc(f, [], l);
    assert [] + [l] == [l];
  }

  lemma OpeningSums(a: OpeningArgs)
    requires a.cash > 0 ==> a.cashbox.Some?
    ensures Sum(AskedDebit(), OpeningCash(a) + OpeningRest(a)) == OpeningDebits(a)
    ensures Sum(AskedCredit(), OpeningCash(a) + OpeningRest(a)) == Positive(a.suppliers) + Plug(a)
  {
    OpeningSum(a, AskedDebit());
    OpeningSum(a, AskedCredit());
  }

  lemma OpeningSum(a: OpeningArgs, f: GlLine -> int)
    ensures Sum(f, OpeningCash(a) + OpeningRest(a))
         == (if a.cash > 0 && a.cashbox.Some? then f(CashLine(a.cashbox.value, a.cash, 0)) else 0)
          + (if a.dues > 0 then f(CounterLine(ByCode("1121"), a.dues, 0)) else 0)
          + (if a.stock > 0 then f(CounterLine(ByCode("1131"), a.stock, 0)) else 0)
          + (if a.assets > 0 then f(CounterLine(ByCode("121"), a.assets, 0)) else 0)
          + (if a.suppliers > 0 then f(CounterLine(ByCode("211"), 0, a.suppliers)) else 0)
          + (if Plug(a) != 0 then f(CounterLine(ByCode("31"), 0, Plug(a))) else 0)
  {
    var c1, c2 := CounterLine(ByCode("1121"), a.dues, 0), CounterLine(ByCode("1131"), a.stock, 0);
    var c3, c4 := CounterLine(ByCode("121"), a.assets, 0), CounterLine(ByCode("211"), 0, a.suppliers);
    var c5 := CounterLine(ByCode("31"), 0, Plug(a));
    var p1, p2, p3, p4, p5 := Part(a.dues > 0, c1), Part(a.stock > 0, c2), Part(a.assets > 0, c3),
                              Part(a.suppliers > 0, c4), Part(Plug(a) != 0, c5);
    PartSum(f, a.dues > 0, c1);
    PartSum(f, a.stock > 0, c2);
    PartSum(f, a.assets > 0, c3);
    PartSum(f, a.suppliers > 0, c4);
    PartSum(f, Plug(a) != 0, c5);
    if a.cash > 0 && a.cashbox.Some? {
      PartSum(f, true, CashLine(a.cashbox.value, a.cash, 0));
    }
    SumCat(f, p1, p2);
    SumCat(f, p1 + p2, p3);
    SumCat(f, p1 + p2 + p3, p4);
    SumCat(f, p1 + p2 + p3 + p4, p5);
    SumCat(f, OpeningCash(a), OpeningRest(a));
  }

  lemma OpeningLineOf(a: OpeningArgs, g: GlLine) returns (code: string)
    requires g in OpeningRest(a)
    ensures OpeningUses(a, code) && g == CounterLine(ByCode(code), g.debit, g.credit)
    ensures LineError(g).None? <==> g.credit >= 0
    ensures g.credit < 0 ==> code == "31" && Plug(a) < 0
  {
    code :=
      if a.dues > 0 && g == CounterLine(ByCode("1121"), a.dues, 0) then "1121"
      else if a.stock > 0 && g == CounterLine(ByCode("1131"), a.stock, 0) then "1131"
      else if a.assets > 0 && g == CounterLine(ByCode("121"), a.assets, 0) then "121"
      else if a.suppliers > 0 && g == CounterLine(ByCode("211"), 0, a.suppliers) then "211"
      else "31";
  }

  lemma OpeningPlain(db: Db, a: OpeningArgs)
    requires OpeningReady(db, a)
    ensures forall i :: 0 <= i < |OpeningRest(a)| ==> PlainLine(db, OpeningRest(a)[i])
  {
    hide OpeningRest, CodeOf, HasAccount, IsLiquid, IsPersonal;
    forall i | 0 <= i < |OpeningRest(a)| ensures PlainLine(db, OpeningRest(a)[i]) {
      var g := OpeningRest(a)[i];
      var code := OpeningLineOf(a, g);
      assert PlainCounterpart(db, ByCode(code));
      CounterResolves(db, ByCode(code), g.debit, g.credit);
    }
  }

  /** Lines are valid one by one unless capital came out negative. */
  lemma OpeningLinesValid(a: OpeningArgs)
    requires a.cash > 0 ==> Present(a.cashbox)
    ensures var lines := OpeningCash(a) + OpeningRest(a);
      (forall i :: 0 <= i < |lines| ==> LineError(lines[i]).None?) <==> Plug(a) >= 0
  {
    var cash, rest := OpeningCash(a), OpeningRest(a);
    var lines := cash + rest;
    if Plug(a) >= 0 {
      forall i | 0 <= i < |lines| ensures LineError(lines[i]).None? {
        if i >= |cash| {
          hide LineError, OpeningRest;
          var _ := OpeningLineOf(a, rest[i - |cash|]);
        }
      }
    } else {
      var c5 := CounterLine(ByCode("31"), 0, Plug(a));
      assert rest[|rest| - 1] == c5 && lines[|lines| - 1] == c5;
      assert LineError(lines[|lines| - 1]).Some?;
    }
  }

  lemma OpeningValid(a: OpeningArgs)
    requires a.cash > 0 ==> Present(a.cashbox)
    requires a.reference != Document("")
    ensures ValidateSpec(OpeningRequest(a).spec).None? <==> Plug(a) >= 0 && |OpeningCash(a) + OpeningRest(a)| >= 2
  {
    OpeningLinesValid(a);
    hide LineError, OpeningCash, OpeningRest, Plug;
  }

  /** The cash line of a spec, if it has one, and the movement it needs. */
  ghost predicate CashFront(db: Db, front: seq<GlLine>, moves: seq<Movement>) {
    || (front == [] && moves == [])
    || (|front| == 1 && |moves| == 1 && moves[0].direction.In? && LiquidBox(db, moves[0].cashbox)
        && front[0] == CashLine(moves[0].cashbox, moves[0].amount, 0))
  }

  lemma CashLineOf(db: Db, g: GlLine, m: Movement) returns (l: Line)
    requires LiquidBox(db, m.cashbox) && m.direction.In? && g == CashLine(m.cashbox, m.amount, 0)
    ensures Resolve(db, g) == Some(l) && OnLiquid(db.accounts)(l) && IsTagged(l) && NeedOf(l) == OfferOf(m)
    ensures LineKeys(db.accounts, db.boxes.Keys, l)
  {
    hide HasAccount, CashboxAccount, CodeOf;
    CashResolves(db, m.cashbox, m.amount, 0);
    CashboxAccountExists(db, m.cashbox);
    l := Line(CashboxAccount(db, m.cashbox).value, m.amount, 0, Some(m.cashbox), None);
    CashLineKeys(db, l);
  }

  lemma CashFrontResolves(db: Db, front: seq<GlLine>, moves: seq<Movement>) returns (cash: seq<Line>)
    requires CashFront(db, front, moves)
    ensures ResolveAll(db, front) == Some(cash) && LiquidLines(db.accounts, cash) == cash
    ensures (forall i :: 0 <= i < |cash| ==> IsTagged(cash[i])) && Needs(cash) == Offers(moves)
    ensures forall i :: 0 <= i < |cash| ==> LineKeys(db.accounts, db.boxes.Keys, cash[i])
  {
    cash := [];
    hide HasAccount, CashboxAccount, CodeOf, Resolve, LineKeys;
    if |front| == 1 {
      var l := CashLineOf(db, front[0], moves[0]);
      ResolveSnoc(db, [], front[0]);
      KeepSnoc(OnLiquid(db.accounts), [], l);
      assert [] + [front[0]] == front && [] + [l] == [l];
      cash := [l];
    }
  }

  lemma CashFrontAgrees(db: Db, front: seq<GlLine>, rest: seq<GlLine>, moves: seq<Movement>)
    requires CashFront(db, front, moves)
    requires forall i :: 0 <= i < |rest| ==> PlainLine(db, rest[i])
    ensures var lines := ResolveAll(db, front + rest);
      lines.Some? && Agree(db.accounts, lines.value, moves) && KeysExist(db, None, Kept(lines.value))
  {
    var cash := CashFrontResolves(db, front, moves);
    PlainTail(db, front, rest);
    var lines := ResolveAll(db, front + rest).value;
    forall i | 0 <= i < |lines| ensures LineKeys(db.accounts, db.boxes.Keys, lines[i]) {
      if i < |front| {
        assert Resolve(db, (front + rest)[i]) == Resolve(db, front[i]) == Some(cash[i]);
      } else {
        assert PlainLine(db, rest[i - |front|]);
      }
    }
    forall i | 0 <= i < |Kept(lines)| ensures LineKeys(db.accounts, db.boxes.Keys, Kept(lines)[i]) {
      assert Kept(lines)[i] in Kept(lines);
    }
  }

  lemma AlignedPostsIff(db: Db, s: Spec, lines: seq<Line>)
    requires ResolveAll(db, s.lines) == Some(lines)
    requires Agree(db.accounts, lines, s.movements) && KeysExist(db, s.reversalOf, Kept(lines))
    requires forall i :: 0 <= i < |s.movements| ==> s.movements[i].cashbox in db.boxes
    requires !s.accountingOnly && Open(db, s.refType, s.refId)
    ensures Record(db, s).1.Posted? <==>
      && ValidateSpec(s).None? && Sum(AskedDebit(), s.lines) >= 1
      && Abs(Sum(AskedDebit(), s.lines) - Sum(AskedCredit(), s.lines)) <= 1
  {
    hide Record, ValidateSpec, Agree, KeysExist, ResolveAll, Sum;
    PostsIff(db, s);
    assert WouldPost(db, s) <==>
      && ValidateSpec(s).None? && Sum(AskedDebit(), s.lines) >= 1
      && Abs(Sum(AskedDebit(), s.lines) - Sum(AskedCredit(), s.lines)) <= 1;
  }

  lemma PostsIffAgree(db: Db, s: Spec, lines: seq<Line>)
    requires !s.accountingOnly && Open(db, s.refType, s.refId) && ValidateSpec(s).None?
    requires forall i :: 0 <= i < |s.movements| ==> s.movements[i].cashbox in db.boxes
    requires Sum(AskedDebit(), s.lines) >= 1 && Abs(Sum(AskedDebit(), s.lines) - Sum(AskedCredit(), s.lines)) <= 1
    requires ResolveAll(db, s.lines) == Some(lines)
    ensures Record(db, s).1.Posted? <==> Agree(db.accounts, lines, s.movements) && KeysExist(db, s.reversalOf, Kept(lines))
  {
    hide Record, ValidateSpec, Agree, KeysExist, ResolveAll, Sum;
    PostsIff(db, s);
    assert WouldPost(db, s) <==> Agree(db.accounts, lines, s.movements) && KeysExist(db, s.reversalOf, Kept(lines));
  }

  lemma CashFrontPostsIff(db: Db, s: Spec, front: seq<GlLine>, rest: seq<GlLine>)
    requires s.lines == front + rest && CashFront(db, front, s.movements)
    requires forall i :: 0 <= i < |rest| ==> PlainLine(db, rest[i])
    requires !s.accountingOnly && s.reversalOf.None? && Open(db, s.refType, s.refId)
    ensures Record(db, s).1.Posted? <==>
      && ValidateSpec(s).None? && Sum(AskedDebit(), s.lines) >= 1
      && Abs(Sum(AskedDebit(), s.lines) - Sum(AskedCredit(), s.lines)) <= 1
  {
    CashFrontAgrees(db, front, rest, s.movements);
    AlignedPostsIff(db, s, ResolveAll(db, s.lines).value);
  }

  lemma OpeningPostsWhen(db: Db, a: OpeningArgs)
    requires OpeningReady(db, a) && (a.cash > 0 ==> Present(a.cashbox))
    ensures Record(db, OpeningRequest(a).spec).1.Posted? <==>
      && Plug(a) >= 0 && OpeningDebits(a) >= 1 && |OpeningCash(a) + OpeningRest(a)| >= 2
      && Abs(OpeningDebits(a) - (Positive(a.suppliers) + Plug(a))) <= 1
  {
    hide Record, ValidateSpec, Sum, Open, PlainLine, LiquidBox, PlainCounterpart, Plug, OpeningRest;
    OpeningSums(a);
    OpeningValid(a);
    OpeningPlain(db, a);
    CashFrontPostsIff(db, OpeningRequest(a).spec, OpeningCash(a), OpeningRest(a));
  }

  /** With its accounts in place the opening recipe posts exactly when the plug is not
      negative, some debit is positive, at least two lines remain and the two sides agree
      to the cent of tolerance. */
  lemma OpeningPostsIff(db: Db, a: OpeningArgs)
    requires OpeningReady(db, a)
    ensures PostsRequest(db, OpeningRequest(a)) <==>
      && (a.cash > 0 ==> Present(a.cashbox))
      && Plug(a) >= 0 && OpeningDebits(a) >= 1 && |OpeningCash(a) + OpeningRest(a)| >= 2
      && Abs(OpeningDebits(a) - (Positive(a.suppliers) + Plug(a))) <= 1
  {
    hide Record, Open, Plug, OpeningRest;
    if a.cash > 0 ==> Present(a.cashbox) {
      OpeningPostsWhen(db, a);
    }
  }
}
