/**
 The tables behind the posting engine and the figures the reports read from them.

 Amounts are whole cents. A row of `entries` or `cash` is identified by its position,
 which stands for its database key; both tables are append-only. Every entry here is
 posted, since the draft state never survives the transaction that creates it.
 */
module Ledger {
  import opened Sums

  datatype Option<+T> = None | Some(value: T)

  type Cents = int
  type AccountId = string
  type CashboxId = string

  /** The business document an entry or a cash row belongs to. `Derived` is a version-5
      UUID, taken to be injective in the request and the component it is computed from. */
  datatype RefId =
    | Document(id: string)
    | Journal(entry: nat)
    | Derived(request: nat, component: string)

  datatype Direction = In | Out

  datatype AccountType = Asset | Liability | Equity | Revenue | Expense

  datatype Account = Account(
    id: AccountId, code: string, kind: AccountType, normalDebit: bool,
    parent: Option<AccountId>, level: nat, isLeaf: bool, isSystem: bool,
    isActive: bool, cashbox: Option<CashboxId>)

  datatype Line = Line(
    account: AccountId, debit: Cents, credit: Cents, cashbox: Option<CashboxId>, employee: Option<string>)

  datatype Entry = Entry(
    refType: string, refId: RefId, date: int, lines: seq<Line>,
    reversalOf: Option<nat>, isVoid: bool)

  datatype CashTxn = CashTxn(
    cashbox: CashboxId, direction: Direction, amount: Cents, category: string,
    entity: string, refId: RefId, balanceAfter: Cents, createdAt: int, isVoid: bool)

  datatype Cashbox = Cashbox(kind: string, balance: Cents)

  datatype Db = Db(
    accounts: seq<Account>, boxes: map<CashboxId, Cashbox>,
    cash: seq<CashTxn>, entries: seq<Entry>, locked: bool)

  // ----- account codes -----

  const GL_CASH := "1111"
  const GL_BANK := "1113"
  const GL_WALLET := "1114"
  const GL_CHECKS := "1115"
  const LIQUID_GL_CODES := [GL_CASH, GL_BANK, GL_WALLET, GL_CHECKS]

  predicate IsLiquid(code: string) { code in LIQUID_GL_CODES }

  const GL_EMPLOYEE_PAYABLE := "213"
  const GL_EMPLOYEE_RECEIVABLE := "1123"

  /** The codes whose lines must name an employee. */
  predicate IsPersonal(code: string) { code == GL_EMPLOYEE_PAYABLE || code == GL_EMPLOYEE_RECEIVABLE }

  lemma PersonalIsPlain(code: string)
    requires IsPersonal(code)
    ensures !IsLiquid(code)
  {
    assert forall c :: c in LIQUID_GL_CODES ==> |c| == 4 && c[2] == '1';
  }

  /** The code of an account, or the empty string for an unknown one. */
  function CodeOf(accounts: seq<Account>, id: AccountId): string {
    if |accounts| == 0 then ""
    else if accounts[0].id == id then accounts[0].code
    else CodeOf(accounts[1..], id)
  }

  predicate HasAccount(accounts: seq<Account>, id: AccountId) {
    exists i :: 0 <= i < |accounts| && accounts[i].id == id
  }

  /** The first active account carrying the code. */
  function AccountByCode(accounts: seq<Account>, code: string): Option<AccountId> {
    if |accounts| == 0 then None
    else if accounts[0].code == code && accounts[0].isActive then Some(accounts[0].id)
    else AccountByCode(accounts[1..], code)
  }

  /** The first active account linked to the cashbox. */
  function LinkedAccount(accounts: seq<Account>, box: CashboxId): Option<AccountId> {
    if |accounts| == 0 then None
    else if accounts[0].cashbox == Some(box) && accounts[0].isActive then Some(accounts[0].id)
    else LinkedAccount(accounts[1..], box)
  }

  function KindToCode(kind: string): string {
    match kind
    case "cash" => GL_CASH
    case "bank" => GL_BANK
    case "ewallet" => GL_WALLET
    case "check" => GL_CHECKS
    case _ => GL_CASH
  }

  /** Explicit link first, then the cashbox kind; an unknown cashbox counts as cash. */
  function CashboxAccount(db: Db, box: CashboxId): Option<AccountId> {
    var linked := LinkedAccount(db.accounts, box);
    if linked.Some? then linked
    else AccountByCode(db.accounts, KindToCode(if box in db.boxes then db.boxes[box].kind else "cash"))
  }

  // ----- figures -----

  function Signed(direction: Direction, amount: Cents): Cents {
    if direction.In? then amount else -amount
  }

  /** Which document references a figure is restricted to. */
  type Scope = (string, RefId) -> bool

  function Everything(): Scope { (_, _) => true }

  function CashIn(box: CashboxId, scope: Scope): CashTxn -> int {
    (t: CashTxn) =>
      if !t.isVoid && t.cashbox == box && scope(t.entity, t.refId)
      then Signed(t.direction, t.amount) else 0
  }

  /** What the live cash rows in scope say the cashbox holds. */
  function CashNet(db: Db, box: CashboxId, scope: Scope): Cents {
    Sum(CashIn(box, scope), db.cash)
  }

  /** A line's effect on a cashbox, on whatever account it stands. */
  function TaggedOn(box: CashboxId): Line -> int {
    (l: Line) => if l.cashbox == Some(box) then l.debit - l.credit else 0
  }

  /** A line's effect on a cashbox, counting liquid accounts only. */
  function LegOn(accounts: seq<Account>, box: CashboxId): Line -> int {
    (l: Line) =>
      if l.cashbox == Some(box) && IsLiquid(CodeOf(accounts, l.account))
      then l.debit - l.credit else 0
  }

  function EntryLeg(accounts: seq<Account>, box: CashboxId, e: Entry): Cents {
    Sum(LegOn(accounts, box), e.lines)
  }

  datatype Liveness = Live | Voided | Any

  predicate Counts(which: Liveness, e: Entry) {
    which.Any? || which.Voided? == e.isVoid
  }

  function LegsOf(accounts: seq<Account>, box: CashboxId, which: Liveness, scope: Scope): Entry -> int {
    (e: Entry) =>
      if Counts(which, e) && scope(MapToEntityType(e.refType), e.refId)
      then EntryLeg(accounts, box, e) else 0
  }

  lemma LiveLeg(accounts: seq<Account>, box: CashboxId, e: Entry)
    ensures LegsOf(accounts, box, Live, Everything())(e) == if e.isVoid then 0 else EntryLeg(accounts, box, e)
  {
    assert Counts(Live, e) == !e.isVoid;
  }

  /** What the journal says the cashbox holds, over live, voided or all entries. */
  function LegNet(db: Db, box: CashboxId, which: Liveness, scope: Scope): Cents {
    Sum(LegsOf(db.accounts, box, which, scope), db.entries)
  }

  /** Cash rows against live journal entries. */
  function Drift(db: Db, box: CashboxId): Cents {
    CashNet(db, box, Everything()) - LegNet(db, box, Live, Everything())
  }

  lemma LegsSplit(db: Db, box: CashboxId, scope: Scope)
    ensures LegNet(db, box, Any, scope) == LegNet(db, box, Live, scope) + LegNet(db, box, Voided, scope)
  {
    var any, live, voided := LegsOf(db.accounts, box, Any, scope), LegsOf(db.accounts, box, Live, scope),
                             LegsOf(db.accounts, box, Voided, scope);
    forall i | 0 <= i < |db.entries| ensures any(db.entries[i]) == live(db.entries[i]) + voided(db.entries[i]) {
      assert Counts(Any, db.entries[i]);
      assert Counts(Live, db.entries[i]) != Counts(Voided, db.entries[i]);
    }
    SumAdd(any, live, voided, db.entries);
  }

  function Debit(): Line -> int { (l: Line) => l.debit }

  function Credit(): Line -> int { (l: Line) => l.credit }

  function NetOn(account: AccountId): Line -> int {
    (l: Line) => if l.account == account then l.debit - l.credit else 0
  }

  function NetOfEntry(account: AccountId): Entry -> int {
    (e: Entry) => if e.isVoid then 0 else Sum(NetOn(account), e.lines)
  }

  /** Debits less credits of the live entries on one account. */
  function AccountNet(db: Db, account: AccountId): Cents {
    Sum(NetOfEntry(account), db.entries)
  }

  function EntryGap(e: Entry): Cents { Sum(Debit(), e.lines) - Sum(Credit(), e.lines) }

  function LiveGap(): Entry -> int { (e: Entry) => if e.isVoid then 0 else EntryGap(e) }

  function LiveCount(): Entry -> int { (e: Entry) => if e.isVoid then 0 else 1 }

  /** Total debits less total credits over the live entries. */
  function TrialBalance(db: Db): Cents { Sum(LiveGap(), db.entries) }

  // ----- reference taxonomy -----

  const ENTITY_TYPES: seq<string> := [
    "user", "product", "variant", "warehouse", "stock",
    "invoice", "invoice_item", "customer", "supplier",
    "purchase", "reservation", "return", "exchange",
    "coupon", "discount", "expense", "shift", "cashbox",
    "setting", "role", "other"
  ]

  const ALIASES: seq<(string, string)> := [
    ("customer_payment", "customer"),
    ("supplier_payment", "supplier"),
    ("shift_variance", "shift"),
    ("cashbox_transfer", "cashbox"),
    ("opening_balance", "cashbox"),
    ("cashbox_opening", "cashbox"),
    ("manual_adjustment", "cashbox"),
    ("inventory_adjustment", "stock"),
    ("depreciation", "other"),
    ("year_close", "other"),
    ("reversal", "other"),
    ("fx_revaluation", "cashbox"),
    ("purchase_return", "purchase"),
    ("expense_edit_correction", "expense"),
    ("invoice_positive_delta", "invoice"),
    ("invoice_monetary_delta", "invoice"),
    ("invoice_negative_unpaid_delta", "invoice")
  ]

  function AliasFrom(i: nat, refType: string): string
    requires i <= |ALIASES|
    decreases |ALIASES| - i
  {
    if i == |ALIASES| then refType
    else if ALIASES[i].0 == refType then ALIASES[i].1
    else AliasFrom(i + 1, refType)
  }

  /** The tag a cash row gets from the reference type of the call that made it. */
  function MapToEntityType(refType: string): string {
    var mapped := AliasFrom(0, refType);
    if mapped in ENTITY_TYPES then mapped else "other"
  }

  /** The seventeen aliases, and any other type as it is. */
  ghost function AliasOf(refType: string): string {
    match refType
    case "customer_payment" => "customer"
    case "supplier_payment" => "supplier"
    case "shift_variance" => "shift"
    case "cashbox_transfer" => "cashbox"
    case "opening_balance" => "cashbox"
    case "cashbox_opening" => "cashbox"
    case "manual_adjustment" => "cashbox"
    case "inventory_adjustment" => "stock"
    case "depreciation" => "other"
    case "year_close" => "other"
    case "reversal" => "other"
    case "fx_revaluation" => "cashbox"
    case "purchase_return" => "purchase"
    case "expense_edit_correction" => "expense"
    case "invoice_positive_delta" => "invoice"
    case "invoice_monetary_delta" => "invoice"
    case "invoice_negative_unpaid_delta" => "invoice"
    case _ => refType
  }

  /** The tag of every reference type: its alias if that is a type of the taxonomy, else "other". */
  ghost function EntityOf(refType: string): string {
    if AliasOf(refType) in ["user", "product", "variant", "warehouse", "stock", "invoice", "invoice_item", "customer", "supplier", "purchase",
                            "reservation", "return", "exchange", "coupon", "discount", "expense", "shift", "cashbox", "setting", "role", "other"]
    then AliasOf(refType) else "other"
  }

  lemma AliasStep(i: nat, refType: string, alias: string, target: string)
    requires i < |ALIASES| && ALIASES[i] == (alias, target)
    ensures AliasFrom(i, refType) == if refType == alias then target else AliasFrom(i + 1, refType)
  {
  }

  // The aliases in three stretches, one step at a time.

  lemma AliasesFrom0(refType: string)
    ensures AliasFrom(0, refType) ==
      if refType == "customer_payment" then "customer"
      else if refType == "supplier_payment" then "supplier"
      else if refType == "shift_variance" then "shift"
      else if refType == "cashbox_transfer" then "cashbox"
      else if refType == "opening_balance" then "cashbox"
      else if refType == "cashbox_opening" then "cashbox"
      else AliasFrom(6, refType)
  {
    hide AliasFrom;
    AliasStep(0, refType, "customer_payment", "customer");
    AliasStep(1, refType, "supplier_payment", "supplier");
    AliasStep(2, refType, "shift_variance", "shift");
    AliasStep(3, refType, "cashbox_transfer", "cashbox");
    AliasStep(4, refType, "opening_balance", "cashbox");
    AliasStep(5, refType, "cashbox_opening", "cashbox");
  }

  lemma AliasesFrom6(refType: string)
    ensures AliasFrom(6, refType) ==
      if refType == "manual_adjustment" then "cashbox"
      else if refType == "inventory_adjustment" then "stock"
      else if refType == "depreciation" then "other"
      else if refType == "year_close" then "other"
      else if refType == "reversal" then "other"
      else if refType == "fx_revaluation" then "cashbox"
      else AliasFrom(12, refType)
  {
    hide AliasFrom;
    AliasStep(6, refType, "manual_adjustment", "cashbox");
    AliasStep(7, refType, "inventory_adjustment", "stock");
    AliasStep(8, refType, "depreciation", "other");
    AliasStep(9, refType, "year_close", "other");
    AliasStep(10, refType, "reversal", "other");
    AliasStep(11, refType, "fx_revaluation", "cashbox");
  }

  lemma AliasesFrom12(refType: string)
    ensures AliasFrom(12, refType) ==
      if refType == "purchase_return" then "purchase"
      else if refType == "expense_edit_correction" then "expense"
      else if refType == "invoice_positive_delta" then "invoice"
      else if refType == "invoice_monetary_delta" then "invoice"
      else if refType == "invoice_negative_unpaid_delta" then "invoice"
      else refType
  {
    hide AliasFrom;
    AliasStep(12, refType, "purchase_return", "purchase");
    AliasStep(13, refType, "expense_edit_correction", "expense");
    AliasStep(14, refType, "invoice_positive_delta", "invoice");
    AliasStep(15, refType, "invoice_monetary_delta", "invoice");
    AliasStep(16, refType, "invoice_negative_unpaid_delta", "invoice");
    NoMoreAliases(refType);
  }

  lemma NoMoreAliases(refType: string)
    ensures AliasFrom(17, refType) == refType
  {
  }

  lemma AliasTable(refType: string)
    ensures AliasFrom(0, refType) == AliasOf(refType)
  {
    hide AliasFrom;
    AliasesFrom0(refType);
    AliasesFrom6(refType);
    AliasesFrom12(refType);
  }

  /** The map the engine applies is that table. */
  lemma EntityTable(refType: string)
    ensures MapToEntityType(refType) == EntityOf(refType)
  {
    AliasTable(refType);
    hide AliasFrom, AliasOf;
  }

  /** The tags of the recipes that move cash. */
  lemma RecipeEntities()
    ensures MapToEntityType("shift_variance") == "shift" && MapToEntityType("cashbox_transfer") == "cashbox"
    ensures MapToEntityType("manual_adjustment") == "cashbox" && MapToEntityType("opening_balance") == "cashbox"
    ensures MapToEntityType("cashbox_opening") == "cashbox"
  {
    hide MapToEntityType;
    EntityTable("shift_variance");
    EntityTable("cashbox_transfer");
    EntityTable("manual_adjustment");
    EntityTable("opening_balance");
    EntityTable("cashbox_opening");
  }

  lemma EntityTypesClosed(refType: string)
    ensures MapToEntityType(refType) in ENTITY_TYPES
  {
    assert ENTITY_TYPES[20] == "other";
  }

  lemma {:induction false} AliasSkips(i: nat, j: nat, refType: string)
    requires i <= j <= |ALIASES|
    requires forall k :: i <= k < j ==> ALIASES[k].0 != refType
    ensures AliasFrom(i, refType) == AliasFrom(j, refType)
    decreases j - i
  {
    if i < j {
      AliasSkips(i + 1, j, refType);
    }
  }

  /** A type of the taxonomy that is not an alias tags its own cash rows. */
  lemma OwnEntity(refType: string)
    requires refType in ENTITY_TYPES
    requires forall k :: 0 <= k < |ALIASES| ==> ALIASES[k].0 != refType
    ensures MapToEntityType(refType) == refType
  {
    AliasSkips(0, |ALIASES|, refType);
  }

  /** Reversal rows are tagged "other", whatever document they reverse. */
  lemma ReversalsAreOther()
    ensures MapToEntityType("reversal") == "other"
  {
    assert ALIASES[10] == ("reversal", "other");
    forall k | 0 <= k < 10 ensures |ALIASES[k].0| != |"reversal"| {}
    AliasSkips(0, 10, "reversal");
    assert ENTITY_TYPES[20] == "other";
  }

  lemma ExpensesAreExpenses()
    ensures MapToEntityType("expense") == "expense"
  {
    forall k | 0 <= k < |ALIASES| ensures |ALIASES[k].0| != |"expense"| {}
    assert ENTITY_TYPES[15] == "expense";
    OwnEntity("expense");
  }

  lemma {:induction false} AliasIsTargetOrSelf(i: nat, refType: string)
    requires i <= |ALIASES|
    ensures AliasFrom(i, refType) == refType || exists k :: i <= k < |ALIASES| && AliasFrom(i, refType) == ALIASES[k].1
    decreases |ALIASES| - i
  {
    if i < |ALIASES| && ALIASES[i].0 != refType {
      AliasIsTargetOrSelf(i + 1, refType);
    }
  }

  /** Nothing but returns is tagged "return". */
  lemma OnlyReturnsAreReturns(refType: string)
    requires MapToEntityType(refType) == "return"
    ensures refType == "return"
  {
    AliasIsTargetOrSelf(0, refType);
    NoAliasOfReturn();
    hide AliasFrom;
  }

  /** Told apart from every target by its length or its first letter. */
  lemma NoAliasOfReturn()
    ensures forall k :: 0 <= k < |ALIASES| ==> ALIASES[k].1 != "return"
  {
    forall k | 0 <= k < |ALIASES| ensures |ALIASES[k].1| != |"return"| {}
  }

  lemma NoReversalEntity()
    ensures "reversal" !in ENTITY_TYPES
  {
    forall k | 0 <= k < |ENTITY_TYPES| && |ENTITY_TYPES[k]| == |"reversal"| ensures ENTITY_TYPES[k][0] != "reversal"[0] {}
  }

  lemma ReturnsAreReturns()
    ensures MapToEntityType("return") == "return"
  {
    forall k | 0 <= k < |ALIASES| ensures |ALIASES[k].0| != |"return"| {}
    assert ENTITY_TYPES[11] == "return";
    OwnEntity("return");
  }
}
