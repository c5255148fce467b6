/**
 The chart of accounts: a forest kept by creating, updating and removing accounts. The
 engine's account table is the state; the class performs each operation on it.
 */
module Chart {
  import opened Sums
  import opened Ledger
  import opened Engine
  import opened Runs
  import Recipes

  datatype NewAccount = NewAccount(
    id: AccountId, code: string, name: string, kind: AccountType, normalDebit: Option<bool>,
    parent: Option<AccountId>, cashbox: Option<CashboxId>)

  /** The fields of an update that are not labels. */
  datatype Change = Change(isActive: Option<bool>, cashbox: Option<Option<CashboxId>>)

  datatype ChartError =
    | CodeRequired | NameRequired | ParentNotFound | KindMismatch | DuplicateKey | UnknownCashbox
    | NotFound | SystemAccount | HasLines | HasChildren

  function DefaultNormalDebit(kind: AccountType): bool { kind.Asset? || kind.Expense? }

  function Find(accounts: seq<Account>, id: AccountId): (r: Option<nat>)
    ensures r.Some? ==> r.value < |accounts| && accounts[r.value].id == id
    ensures r.None? ==> forall i :: 0 <= i < |accounts| ==> accounts[i].id != id
  {
    if |accounts| == 0 then None
    else
      var n := |accounts| - 1;
      if accounts[n].id == id then Some(n) else Find(accounts[..n], id)
  }

  // ----- the operations -----

  predicate CashboxKnown(db: Db, cashbox: Option<CashboxId>) { cashbox.Some? ==> cashbox.value in db.boxes }

  predicate Unused(accounts: seq<Account>, id: AccountId, code: string) {
    forall i :: 0 <= i < |accounts| ==> accounts[i].id != id && accounts[i].code != code
  }

  function CreateError(db: Db, a: NewAccount): Option<ChartError> {
    if a.code == "" then Some(CodeRequired)
    else if a.name == "" then Some(NameRequired)
    else if a.parent.Some? && Find(db.accounts, a.parent.value).None? then Some(ParentNotFound)
    else if a.parent.Some? && db.accounts[Find(db.accounts, a.parent.value).value].kind != a.kind then Some(KindMismatch)
    else if !Unused(db.accounts, a.id, a.code) then Some(DuplicateKey)
    else if !CashboxKnown(db, a.cashbox) then Some(UnknownCashbox)
    else None
  }

  function LevelUnder(accounts: seq<Account>, parent: Option<AccountId>): nat {
    if parent.Some? && Find(accounts, parent.value).Some? then accounts[Find(accounts, parent.value).value].level + 1 else 1
  }

  /** The trigger on insert: a parent is no longer a leaf. */
  function MarkParent(accounts: seq<Account>, parent: Option<AccountId>): seq<Account> {
    seq(|accounts|, i requires 0 <= i < |accounts| =>
      if parent == Some(accounts[i].id) then accounts[i].(isLeaf := false) else accounts[i])
  }

  function Created(accounts: seq<Account>, a: NewAccount): Account {
    Account(a.id, a.code, a.kind, if a.normalDebit.Some? then a.normalDebit.value else DefaultNormalDebit(a.kind),
            a.parent, LevelUnder(accounts, a.parent), true, false, true, a.cashbox)
  }

  /** `create`; code and name are already trimmed. */
  function Create(db: Db, a: NewAccount): Db {
    if CreateError(db, a).Some? then db
    else db.(accounts := MarkParent(db.accounts, a.parent) + [Created(db.accounts, a)])
  }

  function UpdateError(db: Db, id: AccountId, c: Change): Option<ChartError> {
    var at := Find(db.accounts, id);
    if at.None? then Some(NotFound)
    else if db.accounts[at.value].isSystem && c.isActive == Some(false) then Some(SystemAccount)
    else if c.cashbox.Some? && !CashboxKnown(db, c.cashbox.value) then Some(UnknownCashbox)
    else None
  }

  function Changed(a: Account, c: Change): Account {
    a.(isActive := if c.isActive.Some? && !a.isSystem then c.isActive.value else a.isActive,
       cashbox := if c.cashbox.Some? then c.cashbox.value else a.cashbox)
  }

  function Update(db: Db, id: AccountId, c: Change): Db {
    if UpdateError(db, id, c).Some? then db
    else
      var at := Find(db.accounts, id).value;
      db.(accounts := db.accounts[at := Changed(db.accounts[at], c)])
  }

  predicate OnAccount(lines: seq<Line>, id: AccountId) { exists l :: 0 <= l < |lines| && lines[l].account == id }

  predicate Carries(entries: seq<Entry>, id: AccountId) {
    exists e :: 0 <= e < |entries| && OnAccount(entries[e].lines, id)
  }

  predicate IsParent(accounts: seq<Account>, id: AccountId) {
    exists i :: 0 <= i < |accounts| && accounts[i].parent == Some(id)
  }

  function RemoveError(db: Db, id: AccountId): Option<ChartError> {
    var at := Find(db.accounts, id);
    if at.None? then Some(NotFound)
    else if db.accounts[at.value].isSystem then Some(SystemAccount)
    else if Carries(db.entries, id) then Some(HasLines)
    else if IsParent(db.accounts, id) then Some(HasChildren)
    else None
  }

  function Remove(db: Db, id: AccountId): Db {
    if RemoveError(db, id).Some? then db
    else
      var at := Find(db.accounts, id).value;
      db.(accounts := db.accounts[..at] + db.accounts[at + 1..])
  }

  datatype ChartOp = DoCreate(account: NewAccount) | DoUpdate(id: AccountId, change: Change) | DoRemove(id: AccountId) | DoPost(calls: seq<Call>)

  function Do(db: Db, op: ChartOp): Db {
    match op
    case DoCreate(a) => Create(db, a)
    case DoUpdate(id, c) => Update(db, id, c)
    case DoRemove(id) => Remove(db, id)
    case DoPost(calls) => Transact(db, calls)
  }

  function DoAll(db: Db, ops: seq<ChartOp>): Db {
    if |ops| == 0 then db else Do(DoAll(db, ops[..|ops| - 1]), ops[|ops| - 1])
  }

  // ----- the forest -----

  ghost predicate UniqueIds(accounts: seq<Account>) {
    forall i, j :: 0 <= i < j < |accounts| ==> accounts[i].id != accounts[j].id
  }

  /** A root is at level 1; anything else has a parent one level up, of its kind, not a leaf. */
  ghost predicate WellPlaced(accounts: seq<Account>, i: nat)
    requires i < |accounts|
  {
    if accounts[i].parent.None? then accounts[i].level == 1
    else exists j :: 0 <= j < |accounts| && IsParentOf(accounts, j, i)
  }

  predicate IsParentOf(accounts: seq<Account>, j: nat, i: nat)
    requires i < |accounts| && j < |accounts|
  {
    && accounts[i].parent == Some(accounts[j].id) && !accounts[j].isLeaf
    && accounts[j].kind == accounts[i].kind && accounts[i].level == accounts[j].level + 1
  }

  ghost predicate Forest(accounts: seq<Account>) {
    UniqueIds(accounts) && forall i :: 0 <= i < |accounts| ==> WellPlaced(accounts, i)
  }

  lemma CreateKeepsForest(db: Db, a: NewAccount)
    requires Forest(db.accounts)
    ensures Forest(Create(db, a).accounts)
  {
    if CreateError(db, a).None? {
      var old_, new_ := db.accounts, Create(db, a).accounts;
      forall i | 0 <= i < |new_| ensures WellPlaced(new_, i) {
        if i < |old_| && old_[i].parent.Some? {
          assert WellPlaced(old_, i);
          var j :| 0 <= j < |old_| && IsParentOf(old_, j, i);
          assert IsParentOf(new_, j, i);
        } else if i == |old_| && a.parent.Some? {
          var j := Find(old_, a.parent.value).value;
          assert IsParentOf(new_, j, i);
        } else if i < |old_| {
          assert WellPlaced(old_, i);
        }
      }
    }
  }

  lemma UpdateKeepsForest(db: Db, id: AccountId, c: Change)
    requires Forest(db.accounts)
    ensures Forest(Update(db, id, c).accounts)
  {
    if UpdateError(db, id, c).None? {
      var old_, new_ := db.accounts, Update(db, id, c).accounts;
      forall i | 0 <= i < |new_| ensures WellPlaced(new_, i) {
        assert WellPlaced(old_, i);
        if old_[i].parent.Some? {
          var j :| 0 <= j < |old_| && IsParentOf(old_, j, i);
          assert IsParentOf(new_, j, i);
        }
      }
    }
  }

  lemma RemoveKeepsForest(db: Db, id: AccountId)
    requires Forest(db.accounts)
    ensures Forest(Remove(db, id).accounts)
  {
    if RemoveError(db, id).None? {
      var old_, new_, at := db.accounts, Remove(db, id).accounts, Find(db.accounts, id).value;
      forall i | 0 <= i < |new_| ensures WellPlaced(new_, i) {
        var was := if i < at then i else i + 1;
        assert WellPlaced(old_, was) && new_[i] == old_[was];
        if old_[was].parent.Some? {
          var j :| 0 <= j < |old_| && IsParentOf(old_, j, was);
          assert j != at;
          assert IsParentOf(new_, if j < at then j else j - 1, i);
        }
      }
    }
  }

  /** Every run of the chart operations, with postings in between, keeps the forest. */
  lemma {:induction false} ForestKept(db: Db, ops: seq<ChartOp>)
    requires Forest(db.accounts)
    ensures Forest(DoAll(db, ops).accounts)
  {
    if |ops| > 0 {
      var before := DoAll(db, ops[..|ops| - 1]);
      ForestKept(db, ops[..|ops| - 1]);
      match ops[|ops| - 1]
      case DoCreate(a) => CreateKeepsForest(before, a);
      case DoUpdate(id, c) => UpdateKeepsForest(before, id, c);
      case DoRemove(id) => RemoveKeepsForest(before, id);
      case DoPost(calls) => AttemptExtends(before, calls);
    }
  }

  // ----- the journal never loses its accounts -----

  /** An account with lines survives, and keeps its code. */
  ghost predicate Survives(db: Db, d: Db, id: AccountId) {
    HasAccount(db.accounts, id) ==> HasAccount(d.accounts, id) && CodeOf(d.accounts, id) == CodeOf(db.accounts, id)
  }

  lemma {:induction false} CodeIs(accounts: seq<Account>, i: nat)
    requires UniqueIds(accounts) && i < |accounts|
    ensures CodeOf(accounts, accounts[i].id) == accounts[i].code
  {
    if i > 0 {
      CodeIs(accounts[1..], i - 1);
    }
  }

  lemma CodeMoves(db: Db, d: Db, i: nat, j: nat)
    requires UniqueIds(db.accounts) && UniqueIds(d.accounts) && i < |db.accounts| && j < |d.accounts|
    requires db.accounts[i].id == d.accounts[j].id && db.accounts[i].code == d.accounts[j].code
    ensures HasAccount(d.accounts, db.accounts[i].id) && CodeOf(d.accounts, db.accounts[i].id) == CodeOf(db.accounts, db.accounts[i].id)
  {
    CodeIs(db.accounts, i);
    CodeIs(d.accounts, j);
  }

  lemma SurvivesCreate(db: Db, a: NewAccount, id: AccountId)
    requires Forest(db.accounts)
    ensures Survives(db, Create(db, a), id)
  {
    CreateKeepsForest(db, a);
    if CreateError(db, a).None? && HasAccount(db.accounts, id) {
      var i :| 0 <= i < |db.accounts| && db.accounts[i].id == id;
      hide CodeOf, HasAccount, CreateError, WellPlaced;
      CodeMoves(db, Create(db, a), i, i);
    }
  }

  lemma SurvivesUpdate(db: Db, x: AccountId, c: Change, id: AccountId)
    requires Forest(db.accounts)
    ensures Survives(db, Update(db, x, c), id)
  {
    UpdateKeepsForest(db, x, c);
    if UpdateError(db, x, c).None? && HasAccount(db.accounts, id) {
      var i :| 0 <= i < |db.accounts| && db.accounts[i].id == id;
      hide CodeOf, HasAccount, WellPlaced;
      CodeMoves(db, Update(db, x, c), i, i);
    }
  }

  lemma SurvivesRemove(db: Db, x: AccountId, id: AccountId)
    requires Forest(db.accounts) && Carries(db.entries, id)
    ensures Survives(db, Remove(db, x), id)
  {
    RemoveKeepsForest(db, x);
    if RemoveError(db, x).None? && HasAccount(db.accounts, id) {
      var i :| 0 <= i < |db.accounts| && db.accounts[i].id == id;
      hide CodeOf, HasAccount, WellPlaced;
      var at := Find(db.accounts, x).value;
      CodeMoves(db, Remove(db, x), i, if i < at then i else i - 1);
    }
  }

  lemma AccountsSurvive(db: Db, op: ChartOp, id: AccountId)
    requires Forest(db.accounts) && Carries(db.entries, id) && !op.DoPost?
    ensures Survives(db, Do(db, op), id)
  {
    hide Survives, Create, Update, Remove, Forest;
    match op
    case DoCreate(a) => SurvivesCreate(db, a, id);
    case DoUpdate(x, c) => SurvivesUpdate(db, x, c, id);
    case DoRemove(x) => SurvivesRemove(db, x, id);
  }

  ghost predicate LinesPlaced(db: Db) {
    forall e, l :: 0 <= e < |db.entries| && 0 <= l < |db.entries[e].lines| ==> HasAccount(db.accounts, db.entries[e].lines[l].account)
  }

  /** A chart operation never orphans a line and never changes the code a line counts under. */
  lemma LinesKeepTheirCodes(db: Db, op: ChartOp, e: nat, l: nat)
    requires Forest(db.accounts) && LinesPlaced(db) && !op.DoPost? && e < |db.entries| && l < |db.entries[e].lines|
    ensures Do(db, op).entries == db.entries && Do(db, op).cash == db.cash
    ensures HasAccount(Do(db, op).accounts, db.entries[e].lines[l].account)
    ensures CodeOf(Do(db, op).accounts, db.entries[e].lines[l].account) == CodeOf(db.accounts, db.entries[e].lines[l].account)
  {
    assert OnAccount(db.entries[e].lines, db.entries[e].lines[l].account);
    AccountsSurvive(db, op, db.entries[e].lines[l].account);
  }

  /** So no chart operation moves any cashbox's drift. */
  lemma ChartKeepsDrift(db: Db, op: ChartOp, box: CashboxId)
    requires Forest(db.accounts) && LinesPlaced(db) && !op.DoPost?
    ensures LinesPlaced(Do(db, op)) && Drift(Do(db, op), box) == Drift(db, box)
  {
    hide Forest, LegsOf;
    var d := Do(db, op);
    assert d.entries == db.entries && d.cash == db.cash && d.boxes == db.boxes;
    hide Do;
    forall e, l | 0 <= e < |d.entries| && 0 <= l < |d.entries[e].lines| ensures HasAccount(d.accounts, d.entries[e].lines[l].account) {
      LinesKeepTheirCodes(db, op, e, l);
    }
    forall e | 0 <= e < |db.entries|
      ensures LegsOf(d.accounts, box, Live, Everything())(db.entries[e]) == LegsOf(db.accounts, box, Live, Everything())(db.entries[e])
    {
      SameLegs(db, op, e, box);
    }
    SumSame(LegsOf(d.accounts, box, Live, Everything()), LegsOf(db.accounts, box, Live, Everything()), db.entries);
    assert CashNet(d, box, Everything()) == CashNet(db, box, Everything());
  }

  lemma SameLegs(db: Db, op: ChartOp, e: nat, box: CashboxId)
    requires Forest(db.accounts) && LinesPlaced(db) && !op.DoPost? && e < |db.entries|
    ensures LegsOf(Do(db, op).accounts, box, Live, Everything())(db.entries[e]) == LegsOf(db.accounts, box, Live, Everything())(db.entries[e])
  {
    hide Do, Forest, LegsOf;
    var d := Do(db, op);
    LiveLeg(d.accounts, box, db.entries[e]);
    LiveLeg(db.accounts, box, db.entries[e]);
    forall l | 0 <= l < |db.entries[e].lines|
      ensures LegOn(d.accounts, box)(db.entries[e].lines[l]) == LegOn(db.accounts, box)(db.entries[e].lines[l])
    {
      LinesKeepTheirCodes(db, op, e, l);
    }
    SumSame(LegOn(d.accounts, box), LegOn(db.accounts, box), db.entries[e].lines);
  }

  /** The engine's invariant survives chart operations and postings in any order. */
  lemma {:induction false} ChartRunsKeepInv(db: Db, ops: seq<ChartOp>)
    requires Inv(db) && Forest(db.accounts)
    ensures Inv(DoAll(db, ops))
  {
    if |ops| > 0 {
      var before, op := DoAll(db, ops[..|ops| - 1]), ops[|ops| - 1];
      ChartRunsKeepInv(db, ops[..|ops| - 1]);
      ForestKept(db, ops[..|ops| - 1]);
      if op.DoPost? {
        AttemptKeeps(before, op.calls);
      } else {
        ChartKeepsInv(before, op);
      }
    }
  }

  lemma ChartKeepsInv(db: Db, op: ChartOp)
    requires Inv(db) && Forest(db.accounts) && !op.DoPost?
    ensures Inv(Do(db, op))
  {
    SanePlaced(db);
    var d := Do(db, op);
    assert d.entries == db.entries && d.cash == db.cash && d.boxes == db.boxes;
    hide Forest, Do;
    forall e | 0 <= e < |d.entries| ensures EntrySane(d.accounts, d.boxes.Keys, d.entries[e]) {
      assert EntrySane(db.accounts, db.boxes.Keys, db.entries[e]);
      forall l | 0 <= l < |d.entries[e].lines| ensures LineSane(d.accounts, d.boxes.Keys, d.entries[e].lines[l]) {
        LinesKeepTheirCodes(db, op, e, l);
        assert LineSane(db.accounts, db.boxes.Keys, db.entries[e].lines[l]);
      }
    }
    assert BalancesTrue(d) by {
      forall b | b in d.boxes ensures d.boxes[b].balance == CashNet(d, b, Everything()) {
        assert CashNet(d, b, Everything()) == CashNet(db, b, Everything());
      }
    }
  }

  lemma SanePlaced(db: Db)
    requires EntriesSane(db)
    ensures LinesPlaced(db)
  {
    forall e, l | 0 <= e < |db.entries| && 0 <= l < |db.entries[e].lines| ensures HasAccount(db.accounts, db.entries[e].lines[l].account) {
      assert EntrySane(db.accounts, db.boxes.Keys, db.entries[e]);
    }
  }

  // ----- which account a cashbox books to -----

  lemma {:induction false} LinkedIs(accounts: seq<Account>, box: CashboxId) returns (i: nat)
    requires LinkedAccount(accounts, box).Some?
    ensures i < |accounts| && accounts[i].cashbox == Some(box) && accounts[i].isActive && LinkedAccount(accounts, box) == Some(accounts[i].id)
  {
    if accounts[0].cashbox == Some(box) && accounts[0].isActive {
      i := 0;
    } else {
      i := LinkedIs(accounts[1..], box);
      i := i + 1;
    }
  }

  lemma {:induction false} CodedIs(accounts: seq<Account>, code: string) returns (i: nat)
    requires AccountByCode(accounts, code).Some?
    ensures i < |accounts| && accounts[i].code == code && accounts[i].isActive && AccountByCode(accounts, code) == Some(accounts[i].id)
  {
    if accounts[0].code == code && accounts[0].isActive {
      i := 0;
    } else {
      i := CodedIs(accounts[1..], code);
      i := i + 1;
    }
  }

  /** Every kind of cashbox falls back to a code of its own that the guard watches. */
  lemma KindCodes(kind: string)
    ensures IsLiquid(KindToCode(kind))
    ensures kind !in ["bank", "ewallet", "check"] ==> KindToCode(kind) == "1111"
    ensures KindToCode("cash") == "1111" && KindToCode("bank") == "1113" && KindToCode("ewallet") == "1114" && KindToCode("check") == "1115"
  {
    assert LIQUID_GL_CODES[0] == GL_CASH && LIQUID_GL_CODES[1] == GL_BANK && LIQUID_GL_CODES[2] == GL_WALLET && LIQUID_GL_CODES[3] == GL_CHECKS;
  }

  /** A cashbox can be posted to exactly when its linked account carries a watched code or,
      without a link, when an active account carries the code of its kind: a cashbox linked to
      a sub-account of its own is refused by every guarded recipe. */
  lemma LiquidBoxIff(db: Db, box: CashboxId)
    requires UniqueIds(db.accounts) && box in db.boxes && box != ""
    ensures Recipes.LiquidBox(db, box) <==>
      if exists i :: 0 <= i < |db.accounts| && db.accounts[i].cashbox == Some(box) && db.accounts[i].isActive
      then LinkedAccount(db.accounts, box).Some? && IsLiquid(CodeOf(db.accounts, LinkedAccount(db.accounts, box).value))
      else exists i :: 0 <= i < |db.accounts| && db.accounts[i].code == KindToCode(db.boxes[box].kind) && db.accounts[i].isActive
  {
    KindCodes(db.boxes[box].kind);
    hide KindToCode, IsLiquid;
    NoLink(db.accounts, box);
    NoCode(db.accounts, KindToCode(db.boxes[box].kind));
    if LinkedAccount(db.accounts, box).Some? {
      var i := LinkedIs(db.accounts, box);
    } else if AccountByCode(db.accounts, KindToCode(db.boxes[box].kind)).Some? {
      var i := CodedIs(db.accounts, KindToCode(db.boxes[box].kind));
      CodeIs(db.accounts, i);
    }
  }

  lemma {:induction false} NoLink(accounts: seq<Account>, box: CashboxId)
    ensures LinkedAccount(accounts, box).None? ==> forall i :: 0 <= i < |accounts| ==> !(accounts[i].cashbox == Some(box) && accounts[i].isActive)
  {
    if |accounts| > 0 {
      NoLink(accounts[1..], box);
      assert forall i :: 1 <= i < |accounts| ==> accounts[i] == accounts[1..][i - 1];
    }
  }

  lemma {:induction false} NoCode(accounts: seq<Account>, code: string)
    ensures AccountByCode(accounts, code).None? ==> forall i :: 0 <= i < |accounts| ==> !(accounts[i].code == code && accounts[i].isActive)
  {
    if |accounts| > 0 {
      NoCode(accounts[1..], code);
      assert forall i :: 1 <= i < |accounts| ==> accounts[i] == accounts[1..][i - 1];
    }
  }

  // ----- what each operation takes, and what it leaves -----

  ghost predicate At(accounts: seq<Account>, id: AccountId, i: nat) { i < |accounts| && accounts[i].id == id }

  lemma FindIs(accounts: seq<Account>, id: AccountId, i: nat)
    requires UniqueIds(accounts)
    ensures At(accounts, id, i) <==> Find(accounts, id) == Some(i)
  {
  }

  ghost predicate Known(accounts: seq<Account>, id: AccountId) { exists i: nat :: At(accounts, id, i) }

  lemma KnownIff(accounts: seq<Account>, id: AccountId)
    ensures Known(accounts, id) <==> Find(accounts, id).Some?
  {
    if Find(accounts, id).Some? {
      assert At(accounts, id, Find(accounts, id).value);
    }
  }

  /** Creating takes a code and a name, a parent of the same kind if any, a new id and code, and a
      known cashbox if any; the first of these that fails is the error. It adds a live leaf, one
      level below its parent or at the first, on the side of its kind unless told otherwise, and
      its parent is no longer a leaf. Nothing else changes. */
  lemma CreateIff(db: Db, a: NewAccount)
    requires UniqueIds(db.accounts)
    ensures var named := a.code != "" && a.name != ""; var found := a.parent.None? || Known(db.accounts, a.parent.value);
      var kin := a.parent.None? || exists i: nat :: At(db.accounts, a.parent.value, i) && db.accounts[i].kind == a.kind;
      var new_ := forall i :: 0 <= i < |db.accounts| ==> db.accounts[i].id != a.id && db.accounts[i].code != a.code;
      var boxed := a.cashbox.None? || a.cashbox.value in db.boxes;
      var e := CreateError(db, a);
      && (e == Some(CodeRequired) <==> a.code == "") && (e == Some(NameRequired) <==> a.code != "" && a.name == "")
      && (e == Some(ParentNotFound) <==> named && !found) && (e == Some(KindMismatch) <==> named && found && !kin)
      && (e == Some(DuplicateKey) <==> named && kin && !new_) && (e == Some(UnknownCashbox) <==> named && kin && new_ && !boxed)
      && (e.None? <==> named && kin && new_ && boxed)
    ensures var d, n := Create(db, a), |db.accounts|;
      && d == db.(accounts := d.accounts) && (CreateError(db, a).Some? ==> d == db)
      && (CreateError(db, a).None? ==>
            && |d.accounts| == n + 1
            && (forall i :: 0 <= i < n ==>
                  d.accounts[i] == if a.parent == Some(db.accounts[i].id) then db.accounts[i].(isLeaf := false) else db.accounts[i])
            && d.accounts[n] == Account(a.id, a.code, a.kind,
                                        if a.normalDebit.Some? then a.normalDebit.value else a.kind == Asset || a.kind == Expense,
                                        a.parent, d.accounts[n].level, true, false, true, a.cashbox)
            && (a.parent.None? ==> d.accounts[n].level == 1)
            && forall i: nat :: a.parent.Some? && At(db.accounts, a.parent.value, i) ==> d.accounts[n].level == db.accounts[i].level + 1)
  {
    if a.parent.Some? {
      var p := a.parent.value;
      KnownIff(db.accounts, p);
      forall i: nat ensures At(db.accounts, p, i) <==> Find(db.accounts, p) == Some(i) {
        FindIs(db.accounts, p, i);
      }
      if Find(db.accounts, p).Some? {
        assert At(db.accounts, p, Find(db.accounts, p).value);
      }
    }
    hide At, Known, Find, UniqueIds;
  }

  /** Updating takes a known account, does not turn a system account off, and links to a known
      cashbox if to any. It changes the flag and the link that are given, the flag of no system
      account, and no other account. */
  lemma UpdateIff(db: Db, id: AccountId, c: Change, i: nat)
    requires UniqueIds(db.accounts)
    ensures UpdateError(db, id, c) == Some(NotFound) <==> !Known(db.accounts, id)
    ensures At(db.accounts, id, i) ==> var e := UpdateError(db, id, c);
      && (e == Some(SystemAccount) <==> db.accounts[i].isSystem && c.isActive == Some(false))
      && (e.None? <==> !(db.accounts[i].isSystem && c.isActive == Some(false)) && (c.cashbox.Some? && c.cashbox.value.Some? ==> c.cashbox.value.value in db.boxes))
      && (e.None? ==> Update(db, id, c) == db.(accounts := db.accounts[i := db.accounts[i].(
            isActive := if c.isActive.Some? && !db.accounts[i].isSystem then c.isActive.value else db.accounts[i].isActive,
            cashbox := if c.cashbox.Some? then c.cashbox.value else db.accounts[i].cashbox)]))
    ensures UpdateError(db, id, c).Some? ==> Update(db, id, c) == db
  {
    KnownIff(db.accounts, id);
    FindIs(db.accounts, id, i);
    hide Known, Find, UniqueIds;
  }

  /** Removing takes a known account that is no system account, carries no line of any entry, live
      or void, and has no children, checked in that order. It takes that account out and no other. */
  lemma RemoveIff(db: Db, id: AccountId, i: nat)
    requires UniqueIds(db.accounts)
    ensures RemoveError(db, id) == Some(NotFound) <==> !Known(db.accounts, id)
    ensures At(db.accounts, id, i) ==> var e, a := RemoveError(db, id), db.accounts[i];
      var carries := exists k: nat, l: nat :: k < |db.entries| && l < |db.entries[k].lines| && db.entries[k].lines[l].account == id;
      var parent := exists k :: 0 <= k < |db.accounts| && db.accounts[k].parent == Some(id);
      && (e == Some(SystemAccount) <==> a.isSystem) && (e == Some(HasLines) <==> !a.isSystem && carries)
      && (e == Some(HasChildren) <==> !a.isSystem && !carries && parent) && (e.None? <==> !a.isSystem && !carries && !parent)
      && (e.None? ==> Remove(db, id) == db.(accounts := db.accounts[..i] + db.accounts[i + 1..]))
    ensures RemoveError(db, id).Some? ==> Remove(db, id) == db
  {
    KnownIff(db.accounts, id);
    FindIs(db.accounts, id, i);
    hide Known, Find, UniqueIds;
    if k: nat, l: nat :| k < |db.entries| && l < |db.entries[k].lines| && db.entries[k].lines[l].account == id {
      assert OnAccount(db.entries[k].lines, id);
    }
  }

  // ----- the service as it runs -----

  class ChartOfAccounts {
    const engine: FinancialEngine

    constructor (engine: FinancialEngine)
      ensures this.engine == engine
    {
      this.engine := engine;
    }

    method CreateAccount(a: NewAccount) returns (error: Option<ChartError>)
      modifies engine`accounts
      ensures error == CreateError(old(engine.Snapshot()), a)
      ensures engine.Snapshot() == Create(old(engine.Snapshot()), a)
    {
      if a.code == "" {
        return Some(CodeRequired);
      }
      if a.name == "" {
        return Some(NameRequired);
      }
      var normalDebit := if a.normalDebit.Some? then a.normalDebit.value else DefaultNormalDebit(a.kind);
      var level := 1;
      if a.parent.Some? {
        var at := Find(engine.accounts, a.parent.value);
        if at.None? {
          return Some(ParentNotFound);
        }
        if engine.accounts[at.value].kind != a.kind {
          return Some(KindMismatch);
        }
        level := engine.accounts[at.value].level + 1;
      }
      if !Unused(engine.accounts, a.id, a.code) {
        return Some(DuplicateKey);
      }
      if !CashboxKnown(engine.Snapshot(), a.cashbox) {
        return Some(UnknownCashbox);
      }
      MarkParentNotLeaf(a.parent);
      engine.accounts := engine.accounts + [Account(a.id, a.code, a.kind, normalDebit, a.parent, level, true, false, true, a.cashbox)];
      return None;
    }

    method MarkParentNotLeaf(parent: Option<AccountId>)
      modifies engine`accounts
      ensures engine.accounts == MarkParent(old(engine.accounts), parent)
    {
      for i := 0 to |engine.accounts|
        invariant |engine.accounts| == |old(engine.accounts)|
        invariant engine.accounts[..i] == MarkParent(old(engine.accounts), parent)[..i]
        invariant engine.accounts[i..] == old(engine.accounts)[i..]
      {
        if parent == Some(engine.accounts[i].id) {
          engine.accounts := engine.accounts[i := engine.accounts[i].(isLeaf := false)];
        }
      }
    }

    method UpdateAccount(id: AccountId, c: Change) returns (error: Option<ChartError>)
      modifies engine`accounts
      ensures error == UpdateError(old(engine.Snapshot()), id, c)
      ensures engine.Snapshot() == Update(old(engine.Snapshot()), id, c)
    {
      var at := Find(engine.accounts, id);
      if at.None? {
        return Some(NotFound);
      }
      var existing := engine.accounts[at.value];
      if existing.isSystem && c.isActive == Some(false) {
        return Some(SystemAccount);
      }
      if c.cashbox.Some? && !CashboxKnown(engine.Snapshot(), c.cashbox.value) {
        return Some(UnknownCashbox);
      }
      if c.isActive.Some? && !existing.isSystem {
        existing := existing.(isActive := c.isActive.value);
      }
      if c.cashbox.Some? {
        existing := existing.(cashbox := c.cashbox.value);
      }
      engine.accounts := engine.accounts[at.value := existing];
      return None;
    }

    method RemoveAccount(id: AccountId) returns (error: Option<ChartError>)
      modifies engine`accounts
      ensures error == RemoveError(old(engine.Snapshot()), id)
      ensures engine.Snapshot() == Remove(old(engine.Snapshot()), id)
    {
      var at := Find(engine.accounts, id);
      if at.None? {
        return Some(NotFound);
      }
      if engine.accounts[at.value].isSystem {
        return Some(SystemAccount);
      }
      if Carries(engine.entries, id) {
        return Some(HasLines);
      }
      if IsParent(engine.accounts, id) {
        return Some(HasChildren);
      }
      engine.accounts := engine.accounts[..at.value] + engine.accounts[at.value + 1..];
      return None;
    }
  }
}
