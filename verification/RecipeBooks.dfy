/**
 The books of each recipe: which entry, lines and cash rows an accepted request writes, and
 what it does to every account, every cashbox and every dated figure.
 */
module RecipeBooks {
  import opened Sums
  import opened Ledger
  import opened Alignment
  import opened Engine
  import opened Runs
  import opened Recipes
  import opened Reversal
  import opened Postings
  import BalanceSheet
  import Corrections

  // ----- one plain posting -----

  /** One live entry and the rows of its movements are added, and nothing else changes. */
  ghost predicate Adds(db: Db, d: Db, refType: string, entity: string, refId: RefId, date: int, now: int, lines: seq<Line>, moves: seq<Movement>) {
    && d.accounts == db.accounts && d.locked == db.locked
    && d.entries == db.entries + [Entry(refType, refId, date, lines, None, false)]
    && AddsRows(db, d, moves, entity, refId, now) && MovesBalances(db, d, moves)
  }

  function On(here: bool, amount: Cents): Cents { if here then amount else 0 }

  /** The amount goes from one account to another, in the live figures and from the date on. */
  ghost predicate Shifts(db: Db, d: Db, debit: AccountId, credit: AccountId, amount: Cents, date: int, account: AccountId, asOf: int) {
    && AccountNet(d, account) == AccountNet(db, account) + On(account == debit, amount) - On(account == credit, amount)
    && BalanceSheet.NetAsOf(d, account, asOf) == BalanceSheet.NetAsOf(db, account, asOf)
       + On(date <= asOf && account == debit, amount) - On(date <= asOf && account == credit, amount)
  }

  lemma {:induction false} KeepAll<T>(p: T -> bool, s: seq<T>)
    requires forall x :: x in s ==> p(x)
    ensures Keep(p, s) == s
  {
    if |s| > 0 {
      var n := |s| - 1;
      assert s == s[..n] + [s[n]] && s[n] in s;
      KeepAll(p, s[..n]);
    }
  }

  lemma PostedAdds(db: Db, s: Spec, lines: seq<Line>)
    requires Record(db, s).1.Posted? && s.reversalOf.None? && ResolveAll(db, s.lines) == Some(lines)
    requires forall l :: l in lines ==> l.debit != 0 || l.credit != 0
    ensures Adds(db, Record(db, s).0, s.refType, MapToEntityType(s.refType), s.refId, s.date, s.now, lines, s.movements)
  {
    hide Record, MapToEntityType, Resolve, AddsRows, MovesBalances, OnlyVoids, Keep;
    var resolved := PostedExactly(db, s);
    assert resolved == lines;
    KeepAll((l: Line) => l.debit != 0 || l.credit != 0, lines);
    NothingVoided(db.entries, Record(db, s).0.entries);
  }

  lemma NothingVoided(older: seq<Entry>, newer: seq<Entry>)
    requires OnlyVoids(older, newer, None) && |newer| == |older| + 1
    ensures newer == older + [newer[|older|]]
  {
  }

  /** A posting of two lines that debits one account and credits another. */
  lemma PostedShifts(db: Db, s: Spec, x: Line, y: Line, account: AccountId, asOf: int)
    requires Record(db, s).1.Posted? && s.reversalOf.None? && |s.lines| == 2
    requires Resolve(db, s.lines[0]) == Some(x) && Resolve(db, s.lines[1]) == Some(y)
    requires x.debit == y.credit > 0 && x.credit == y.debit == 0
    ensures Adds(db, Record(db, s).0, s.refType, MapToEntityType(s.refType), s.refId, s.date, s.now, [x, y], s.movements)
    ensures Shifts(db, Record(db, s).0, x.account, y.account, x.debit, s.date, account, asOf)
  {
    hide Record, MapToEntityType, Resolve, Adds, ResolveAll, AccountNet, BalanceSheet.NetAsOf, Sum;
    TwoLinesResolve(db, s.lines[0], s.lines[1]);
    assert s.lines == [s.lines[0], s.lines[1]];
    PostedAdds(db, s, [x, y]);
    var _ := PostedAccountNet(db, s, account);
    var _ := PostedAsOf(db, s, account, asOf);
    SumTwo(NetOn(account), x, y);
  }

  lemma MovesCash(db: Db, s: Spec, box: CashboxId)
    requires Record(db, s).1.Posted?
    ensures CashNet(Record(db, s).0, box, Everything()) == CashNet(db, box, Everything()) + Sum(MoveOn(box), s.movements)
  {
    hide Record, CashNet, MapToEntityType;
    Corrections.PostedCashIn(db, s, box, Everything());
  }

  // ----- the two shapes of a request -----

  /** The books after a request. */
  function After(db: Db, r: Request): Db { if r.Ask? then Record(db, r.spec).0 else db }

  /** What a posting with one cash leg writes, given its cash account and its counterpart. */
  ghost predicate BooksOneLeg(db: Db, d: Db, refType: string, entity: string, refId: RefId, date: int, now: int, counter: AccountId, employee: Option<string>,
                              cash: AccountId, box: CashboxId, direction: Direction, amount: Cents, category: string) {
    var into, out := Line(cash, amount, 0, Some(box), None), Line(cash, 0, amount, Some(box), None);
    Adds(db, d, refType, entity, refId, date, now,
         if direction.In? then [into, Line(counter, 0, amount, None, employee)] else [Line(counter, amount, 0, None, employee), out],
         [Movement(box, direction, amount, category)])
  }

  /** The cashbox and no other gains or loses the amount. */
  ghost predicate OnlyBoxMoves(db: Db, d: Db, source: CashboxId, amount: Cents, box: CashboxId) {
    CashNet(d, box, Everything()) == CashNet(db, box, Everything()) + On(box == source, amount)
  }

  lemma OneLegBooks(db: Db, s: Spec, refType: string, entity: string, refId: RefId, date: int, now: int, counter: Counterpart, box: CashboxId,
                    direction: Direction, amount: Cents, category: string, account: AccountId, other: CashboxId, asOf: int)
    returns (cash: AccountId, against: AccountId)
    requires s == OneCashLeg(refType, refId, date, s.description, now, counter, box, direction, amount, category) && MapToEntityType(refType) == entity
    requires Record(db, s).1.Posted? && WellNamed(counter) && box != "" && amount > 0
    ensures CashboxAccount(db, box) == Some(cash) && CounterAccount(db, counter) == Some(against)
    ensures var d := Record(db, s).0;
      && BooksOneLeg(db, d, refType, entity, refId, date, now, against, EmployeeOf(counter), cash, box, direction, amount, category)
      && Shifts(db, d, if direction.In? then cash else against, if direction.In? then against else cash, amount, date, account, asOf)
      && OnlyBoxMoves(db, d, box, if direction.In? then amount else -amount, other)
  {
    hide Record, MapToEntityType, Adds, Shifts, CashNet, CashboxAccount, CounterAccount, Resolve;
    CounterResolves(db, counter, amount, 0);
    CounterResolves(db, counter, 0, amount);
    CashResolves(db, box, amount, 0);
    CashResolves(db, box, 0, amount);
    var lines := PostedExactly(db, s);
    cash, against := CashboxAccount(db, box).value, CounterAccount(db, counter).value;
    PostedShifts(db, s, lines[0], lines[1], account, asOf);
    MovesCash(db, s, other);
    Corrections.OneMove(other, s.movements[0]);
  }

  // ----- the recipes -----

  lemma CodeAccount(db: Db, code: string, id: AccountId)
    requires AccountByCode(db.accounts, code) == Some(id)
    ensures FirstWithCode(db.accounts, code, id)
  {
    FirstWithCodeIff(db.accounts, code, id);
  }

  /** An accepted expense debits the employee's advances (1123) for an advance, else the category's
      account, else 529; it credits the account of the cashbox it is paid from, or 211. */
  lemma ExpenseBooks(db: Db, a: ExpenseArgs, account: AccountId, box: CashboxId, asOf: int) returns (debit: AccountId, credit: AccountId)
    requires PostsRequest(db, ExpenseRequest(a))
    ensures if a.isAdvance && Given(a.employee) then FirstWithCode(db.accounts, "1123", debit)
            else if Given(a.category) then a.category == Some(debit) else FirstWithCode(db.accounts, "529", debit)
    ensures if a.method_ == "cash" then a.cashbox.Some? && BooksTo(db, a.cashbox.value, credit) else FirstWithCode(db.accounts, "211", credit)
    ensures var d := After(db, ExpenseRequest(a));
      var employee := if a.isAdvance && Given(a.employee) then a.employee else None;
      && a.amount > 0 && Shifts(db, d, debit, credit, a.amount, a.date, account, asOf)
      && if a.method_ == "cash" then
           && BooksOneLeg(db, d, "expense", "expense", Document(a.id), a.date, a.now, debit, employee, credit, a.cashbox.value, Out, a.amount, "expense")
           && OnlyBoxMoves(db, d, a.cashbox.value, -a.amount, box)
         else
           && Adds(db, d, "expense", "expense", Document(a.id), a.date, a.now,
                   [Line(debit, a.amount, 0, None, employee), Line(credit, 0, a.amount, None, None)], [])
           && CashNet(d, box, Everything()) == CashNet(db, box, Everything())
  {
    hide Record, MapToEntityType, Adds, Shifts, CashNet, BooksOneLeg, OnlyBoxMoves, AccountByCode, CashboxAccount, FirstWithCode, BooksTo, ExpenseRequest,
      ExpenseDebit, OneCashLeg, NoCash, WellNamed;
    var s := ExpenseRequest(a).spec;
    var counter := ExpenseShape(a);
    ExpensesAreExpenses();
    if a.method_ == "cash" {
      credit, debit := OneLegBooks(db, s, "expense", "expense", Document(a.id), a.date, a.now, counter, a.cashbox.value, Out, a.amount, "expense",
                                   account, box, asOf);
      BooksToIff(db, a.cashbox.value, credit);
    } else {
      debit, credit := CreditBooks(db, s, Document(a.id), a.date, a.now, counter, a.amount, account, box, asOf);
    }
    if !counter.ById? {
      CodeAccount(db, counter.code, debit);
    }
  }

  lemma ExpenseShape(a: ExpenseArgs) returns (counter: Counterpart)
    requires ExpenseRequest(a).Ask?
    ensures var s, cash := ExpenseRequest(a).spec, a.method_ == "cash";
      && a.amount > 0 && (cash ==> a.cashbox.Some? && a.cashbox.value != "")
      && if cash then s == OneCashLeg("expense", Document(a.id), a.date, s.description, a.now, counter, a.cashbox.value, Out, a.amount, "expense")
         else s == NoCash("expense", Document(a.id), a.date, s.description, a.now, counter, ByCode("211"), a.amount)
    ensures WellNamed(counter)
    ensures if a.isAdvance && Given(a.employee) then counter == OfEmployee("1123", a.employee.value)
            else if Given(a.category) then counter == ById(a.category.value) else counter == ByCode("529")
  {
    counter := ExpenseDebit(a);
  }

  lemma CreditBooks(db: Db, s: Spec, refId: RefId, date: int, now: int, counter: Counterpart, amount: Cents, account: AccountId, box: CashboxId, asOf: int) returns (debit: AccountId, credit: AccountId)
    requires s == NoCash("expense", refId, date, s.description, now, counter, ByCode("211"), amount)
    requires Record(db, s).1.Posted? && WellNamed(counter) && amount > 0
    ensures CounterAccount(db, counter) == Some(debit) && FirstWithCode(db.accounts, "211", credit)
    ensures var d := Record(db, s).0;
      && Adds(db, d, "expense", "expense", refId, date, now,
              [Line(debit, amount, 0, None, EmployeeOf(counter)), Line(credit, 0, amount, None, None)], [])
      && Shifts(db, d, debit, credit, amount, date, account, asOf)
      && CashNet(d, box, Everything()) == CashNet(db, box, Everything())
  {
    hide Record, MapToEntityType, Adds, Shifts, Resolve, AccountByCode, CashNet;
    CounterResolves(db, counter, amount, 0);
    CounterResolves(db, ByCode("211"), 0, amount);
    ExpensesAreExpenses();
    var lines := PostedExactly(db, s);
    debit, credit := CounterAccount(db, counter).value, AccountByCode(db.accounts, "211").value;
    CodeAccount(db, "211", credit);
    MovesCash(db, s, box);
    PostedShifts(db, s, lines[0], lines[1], account, asOf);
  }

  /** The code a variance goes against. */
  ghost function VarianceCode(a: VarianceArgs): string {
    if a.variance > 0 then (if a.treatment == Some(ToSuspense) then "215" else "421")
    else if a.treatment == Some(ChargeEmployee) then "1123" else "531"
  }

  lemma VarianceShape(a: VarianceArgs) returns (counter: Counterpart)
    requires VarianceRequest(a).Ask?
    ensures VarianceRequest(a).spec == OneCashLeg("shift_variance", Document(a.shift), a.date, "shift variance", a.now, counter, a.cashbox,
                                                  if a.variance > 0 then In else Out, Abs(a.variance), "shift_variance")
    ensures !counter.ById? && WellNamed(counter) && counter.code == VarianceCode(a) && a.variance != 0
    ensures EmployeeOf(counter) == if a.variance < 0 && a.treatment == Some(ChargeEmployee) then a.employee else None
    ensures a.treatment.None? || (a.variance > 0 <==> a.treatment.value in {ToRevenue, ToSuspense})
  {
    counter := VarianceCounterpart(VarianceTreatment(a), a.employee);
  }

  /** An accepted variance: a surplus goes into the cashbox and is credited to shift surplus (421)
      or suspense (215); a shortage comes out of it and is debited to shift deficit (531) or,
      with his name on the line, to what the employee owes (1123). */
  lemma VarianceBooks(db: Db, a: VarianceArgs, account: AccountId, box: CashboxId, asOf: int) returns (cash: AccountId, against: AccountId)
    requires PostsRequest(db, VarianceRequest(a)) && a.cashbox != ""
    ensures BooksTo(db, a.cashbox, cash) && FirstWithCode(db.accounts, VarianceCode(a), against)
    ensures a.treatment.None? || (a.variance > 0 <==> a.treatment.value in {ToRevenue, ToSuspense})
    ensures var d := After(db, VarianceRequest(a));
      && BooksOneLeg(db, d, "shift_variance", "shift", Document(a.shift), a.date, a.now, against,
                     if a.variance < 0 && a.treatment == Some(ChargeEmployee) then a.employee else None,
                     cash, a.cashbox, if a.variance > 0 then In else Out, Abs(a.variance), "shift_variance")
      && AccountNet(d, account) == AccountNet(db, account) + On(account == cash, a.variance) - On(account == against, a.variance)
      && Shifts(db, d, if a.variance > 0 then cash else against, if a.variance > 0 then against else cash, Abs(a.variance), a.date, account, asOf)
      && OnlyBoxMoves(db, d, a.cashbox, a.variance, box)
  {
    hide Record, MapToEntityType, Adds, CashNet, BooksOneLeg, AccountByCode, CashboxAccount, FirstWithCode, BooksTo, AccountNet, BalanceSheet.NetAsOf,
      VarianceCode, VarianceRequest, WellNamed;
    var s := VarianceRequest(a).spec;
    var counter := VarianceShape(a);
    RecipeEntities();
    var direction := if a.variance > 0 then In else Out;
    cash, against := OneLegBooks(db, s, "shift_variance", "shift", Document(a.shift), a.date, a.now, counter, a.cashbox, direction, Abs(a.variance),
                                 "shift_variance", account, box, asOf);
    BooksToIff(db, a.cashbox, cash);
    CodeAccount(db, counter.code, against);
  }

  /** An accepted transfer: the amount leaves the source and enters the target, in cash and on
      the two accounts, and every other cashbox and account stays. */
  lemma TransferBooks(db: Db, id: RefId, source: CashboxId, target: CashboxId, amount: Cents, date: int, notes: Option<string>, now: int,
                      account: AccountId, box: CashboxId, asOf: int) returns (from: AccountId, to: AccountId)
    requires PostsRequest(db, TransferRequest(id, source, target, amount, date, notes, now)) && source != "" && target != ""
    ensures BooksTo(db, source, from) && BooksTo(db, target, to) && amount > 0 && source != target
    ensures var d := After(db, TransferRequest(id, source, target, amount, date, notes, now));
      && Adds(db, d, "cashbox_transfer", "cashbox", id, date, now,
              [Line(to, amount, 0, Some(target), None), Line(from, 0, amount, Some(source), None)],
              [Movement(source, Out, amount, "transfer"), Movement(target, In, amount, "transfer")])
      && Shifts(db, d, to, from, amount, date, account, asOf)
      && CashNet(d, box, Everything()) == CashNet(db, box, Everything()) + On(box == target, amount) - On(box == source, amount)
  {
    hide Record, MapToEntityType, Adds, Shifts, CashNet, Resolve, CashboxAccount, BooksTo;
    var s := TransferRequest(id, source, target, amount, date, notes, now).spec;
    RecipeEntities();
    CashResolves(db, target, amount, 0);
    CashResolves(db, source, 0, amount);
    var lines := PostedExactly(db, s);
    from, to := CashboxAccount(db, source).value, CashboxAccount(db, target).value;
    BooksToIff(db, source, from);
    BooksToIff(db, target, to);
    PostedShifts(db, s, lines[0], lines[1], account, asOf);
    MovesCash(db, s, box);
    SumTwo(MoveOn(box), s.movements[0], s.movements[1]);
  }

  /** An accepted manual adjustment: a deposit enters the cashbox against capital (31), a
      withdrawal leaves it against drawings (32). */
  lemma ManualBooks(db: Db, id: string, box: CashboxId, direction: Direction, amount: Cents, date: int, notes: Option<string>, now: int,
                    account: AccountId, other: CashboxId, asOf: int) returns (cash: AccountId, against: AccountId)
    requires PostsRequest(db, ManualRequest(id, box, direction, amount, date, notes, now)) && box != ""
    ensures BooksTo(db, box, cash) && FirstWithCode(db.accounts, if direction.In? then "31" else "32", against) && amount > 0
    ensures var d := After(db, ManualRequest(id, box, direction, amount, date, notes, now));
      && BooksOneLeg(db, d, "manual_adjustment", "cashbox", Document(id), date, now, against, None, cash, box, direction, amount,
                     if direction.In? then "manual_deposit" else "manual_withdraw")
      && Shifts(db, d, if direction.In? then cash else against, if direction.In? then against else cash, amount, date, account, asOf)
      && OnlyBoxMoves(db, d, box, if direction.In? then amount else -amount, other)
  {
    hide Record, MapToEntityType, Adds, Shifts, CashNet, BooksOneLeg, OnlyBoxMoves, AccountByCode, CashboxAccount, FirstWithCode, BooksTo, ManualRequest,
      OneCashLeg;
    var s := ManualRequest(id, box, direction, amount, date, notes, now).spec;
    ManualShape(id, box, direction, amount, date, notes, now);
    RecipeEntities();
    var code, category := if direction.In? then "31" else "32", if direction.In? then "manual_deposit" else "manual_withdraw";
    cash, against := OneLegBooks(db, s, "manual_adjustment", "cashbox", Document(id), date, now, ByCode(code), box, direction, amount, category,
                                 account, other, asOf);
    BooksToIff(db, box, cash);
    CodeAccount(db, code, against);
  }

  lemma ManualShape(id: string, box: CashboxId, direction: Direction, amount: Cents, date: int, notes: Option<string>, now: int)
    requires ManualRequest(id, box, direction, amount, date, notes, now).Ask?
    ensures var s := ManualRequest(id, box, direction, amount, date, notes, now).spec;
      && amount > 0
      && s == OneCashLeg("manual_adjustment", Document(id), date, s.description, now, ByCode(if direction.In? then "31" else "32"), box, direction, amount,
                         if direction.In? then "manual_deposit" else "manual_withdraw")
  {
  }

  // ----- the opening entry -----

  ghost predicate LineGoesTo(db: Db, g: GlLine, account: AccountId) { Resolve(db, g).Some? && Resolve(db, g).value.account == account }

  ghost function AskedOn(db: Db, account: AccountId): GlLine -> int {
    (g: GlLine) => if LineGoesTo(db, g, account) then g.debit - g.credit else 0
  }

  lemma {:induction false} AskedOnIsResolved(db: Db, lines: seq<GlLine>, account: AccountId)
    requires ResolveAll(db, lines).Some?
    ensures Sum(NetOn(account), ResolveAll(db, lines).value) == Sum(AskedOn(db, account), lines)
  {
    if |lines| > 0 {
      var n := |lines| - 1;
      AskedOnIsResolved(db, lines[..n], account);
      SumSnoc(NetOn(account), ResolveAll(db, lines[..n]).value, Resolve(db, lines[n]).value);
    }
  }

  /** What the opening adds to an account: cash on that of the cashbox, dues on 1121, stock on
      1131, fixed assets on 121, what is owed to suppliers off 211, and the capital off 31, which
      is the figure given or else the difference. */
  ghost function OpeningOn(db: Db, a: OpeningArgs, account: AccountId): Cents {
    On(a.cash > 0 && a.cashbox.Some? && BooksTo(db, a.cashbox.value, account), a.cash)
    + On(a.dues > 0 && FirstWithCode(db.accounts, "1121", account), a.dues)
    + On(a.stock > 0 && FirstWithCode(db.accounts, "1131", account), a.stock)
    + On(a.assets > 0 && FirstWithCode(db.accounts, "121", account), a.assets)
    - On(a.suppliers > 0 && FirstWithCode(db.accounts, "211", account), a.suppliers)
    - On(FirstWithCode(db.accounts, "31", account),
         if a.capital.Some? then a.capital.value else a.cash + a.dues + a.stock + a.assets - a.suppliers)
  }

  lemma CounterGoes(db: Db, code: string, debit: Cents, credit: Cents, account: AccountId)
    requires code != ""
    ensures AskedOn(db, account)(CounterLine(ByCode(code), debit, credit)) == On(FirstWithCode(db.accounts, code, account), debit - credit)
  {
    CounterResolves(db, ByCode(code), debit, credit);
    FirstWithCodeIff(db.accounts, code, account);
  }

  lemma CashGoes(db: Db, box: CashboxId, debit: Cents, account: AccountId)
    requires box != ""
    ensures AskedOn(db, account)(CashLine(box, debit, 0)) == On(BooksTo(db, box, account), debit)
  {
    CashResolves(db, box, debit, 0);
    BooksToIff(db, box, account);
  }

  lemma OpeningGoes(db: Db, a: OpeningArgs, account: AccountId)
    requires a.cash > 0 ==> Present(a.cashbox)
    ensures Sum(AskedOn(db, account), OpeningCash(a) + OpeningRest(a)) == OpeningOn(db, a, account)
  {
    hide BooksTo, FirstWithCode, OpeningCash, OpeningRest, AskedOn;
    OpeningSum(a, AskedOn(db, account));
    if a.cash > 0 { CashGoes(db, a.cashbox.value, a.cash, account); }
    CounterGoes(db, "1121", a.dues, 0, account);
    CounterGoes(db, "1131", a.stock, 0, account);
    CounterGoes(db, "121", a.assets, 0, account);
    CounterGoes(db, "211", 0, a.suppliers, account);
    CounterGoes(db, "31", 0, Plug(a), account);
  }

  /** An accepted opening: one entry of its date and one row of its cash, with the figures on
      their accounts. */
  lemma OpeningBooks(db: Db, a: OpeningArgs, account: AccountId, box: CashboxId, asOf: int) returns (lines: seq<Line>)
    requires PostsRequest(db, OpeningRequest(a))
    ensures a.cash > 0 ==> Given(a.cashbox)
    ensures var d := After(db, OpeningRequest(a));
      && Adds(db, d, "opening_balance", "cashbox", a.reference, a.date, a.now, lines,
              if a.cash > 0 then [Movement(a.cashbox.value, In, a.cash, "opening_balance")] else [])
      && (forall l :: l in lines ==> l.employee.None? && (l.cashbox.Some? ==> a.cash > 0 && l.cashbox == a.cashbox && l.debit == a.cash))
      && AccountNet(d, account) == AccountNet(db, account) + OpeningOn(db, a, account)
      && BalanceSheet.NetAsOf(d, account, asOf) == BalanceSheet.NetAsOf(db, account, asOf) + On(a.date <= asOf, OpeningOn(db, a, account))
      && CashNet(d, box, Everything()) == CashNet(db, box, Everything()) + On(a.cash > 0 && a.cashbox == Some(box), a.cash)
  {
    hide Record, MapToEntityType, Adds, CashNet, OpeningOn, AccountNet, BalanceSheet.NetAsOf, Resolve, OpeningCash, OpeningRest, AskedOn, AddsRows,
      MovesBalances, Sum, OpeningRequest, Keep, OnlyVoids;
    var s := OpeningRequest(a).spec;
    OpeningShape(a);
    OpeningCashMoves(a, box);
    RecipeEntities();
    lines := PostedExactly(db, s);
    assert ResolveAll(db, s.lines).value == lines;
    OpeningFigures(db, a, lines, account, asOf);
    OpeningLines(db, a, lines);
    PostedAdds(db, s, lines);
    MovesCash(db, s, box);
  }

  lemma OpeningShape(a: OpeningArgs)
    requires OpeningRequest(a).Ask?
    ensures var s := OpeningRequest(a).spec;
      && s.refType == "opening_balance" && s.refId == a.reference && s.date == a.date && s.now == a.now && s.reversalOf.None?
      && s.movements == (if a.cash > 0 then [Movement(a.cashbox.value, In, a.cash, "opening_balance")] else [])
    ensures a.cash > 0 ==> Given(a.cashbox)
  {
    hide OpeningCash, OpeningRest;
  }

  lemma OpeningCashMoves(a: OpeningArgs, box: CashboxId)
    requires OpeningRequest(a).Ask?
    ensures Sum(MoveOn(box), OpeningRequest(a).spec.movements) == On(a.cash > 0 && a.cashbox == Some(box), a.cash)
  {
    if a.cash > 0 { Corrections.OneMove(box, OpeningRequest(a).spec.movements[0]); }
  }

  lemma OpeningFigures(db: Db, a: OpeningArgs, lines: seq<Line>, account: AccountId, asOf: int)
    requires PostsRequest(db, OpeningRequest(a))
    requires ResolveAll(db, OpeningRequest(a).spec.lines) == Some(lines)
    ensures var d := After(db, OpeningRequest(a));
      && AccountNet(d, account) == AccountNet(db, account) + OpeningOn(db, a, account)
      && BalanceSheet.NetAsOf(d, account, asOf) == BalanceSheet.NetAsOf(db, account, asOf) + On(a.date <= asOf, OpeningOn(db, a, account))
  {
    var s := OpeningRequest(a).spec;
    hide Record, OpeningOn, AccountNet, BalanceSheet.NetAsOf, Resolve, OpeningCash, OpeningRest, AskedOn, Sum;
    var _ := PostedAccountNet(db, s, account);
    var _ := PostedAsOf(db, s, account, asOf);
    AskedOnIsResolved(db, s.lines, account);
    OpeningGoes(db, a, account);
  }

  lemma OpeningLines(db: Db, a: OpeningArgs, lines: seq<Line>)
    requires OpeningRequest(a).Ask? && |lines| == |OpeningRequest(a).spec.lines|
    requires forall i :: 0 <= i < |lines| ==> Resolve(db, OpeningRequest(a).spec.lines[i]) == Some(lines[i])
    ensures forall l :: l in lines ==>
      && (l.debit != 0 || l.credit != 0) && l.employee.None?
      && (l.cashbox.Some? ==> a.cash > 0 && l.cashbox == a.cashbox && l.debit == a.cash)
  {
    var asked := OpeningRequest(a).spec.lines;
    forall i | 0 <= i < |lines|
      ensures (lines[i].debit != 0 || lines[i].credit != 0) && lines[i].employee.None?
        && (lines[i].cashbox.Some? ==> a.cash > 0 && lines[i].cashbox == a.cashbox && lines[i].debit == a.cash)
    {
      hide ResolveAccount, OpeningRest;
      if i >= |OpeningCash(a)| {
        var code := OpeningLineOf(a, OpeningRest(a)[i - |OpeningCash(a)|]);
        OpeningNonzero(a, asked[i]);
      }
    }
  }

  lemma OpeningNonzero(a: OpeningArgs, g: GlLine)
    requires g in OpeningRest(a)
    ensures g.debit != 0 || g.credit != 0
  {
  }
}
