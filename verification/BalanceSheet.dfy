/**
 The balance sheet: leaf amounts in each account's own sense, rolled up the forest by a
 recursive walk that overwrites the table, and the exact condition under which the sheet
 balances.
 */
module BalanceSheet {
  import opened Sums
  import opened Ledger
  import opened Engine
  import opened Runs
  import opened Chart

  // ----- amounts -----

  function NetAsOfEntry(account: AccountId, asOf: int): Entry -> int {
    (e: Entry) => if !e.isVoid && e.date <= asOf then Sum(NetOn(account), e.lines) else 0
  }

  /** Debits less credits of the account up to a date. */
  function NetAsOf(db: Db, account: AccountId, asOf: int): Cents { Sum(NetAsOfEntry(account, asOf), db.entries) }

  function GapAsOfEntry(asOf: int): Entry -> int { (e: Entry) => if !e.isVoid && e.date <= asOf then EntryGap(e) else 0 }

  function TrialBalanceAsOf(db: Db, asOf: int): Cents { Sum(GapAsOfEntry(asOf), db.entries) }

  /** The figure a report shows for an account of its own. */
  function OwnAmount(db: Db, asOf: int, i: nat): Cents
    requires i < |db.accounts|
  {
    var net := NetAsOf(db, db.accounts[i].id, asOf);
    if db.accounts[i].normalDebit then net else -net
  }

  function OwnAmounts(db: Db, asOf: int): (r: seq<int>)
    ensures |r| == |db.accounts|
  {
    seq(|db.accounts|, i requires 0 <= i < |db.accounts| => OwnAmount(db, asOf, i))
  }

  // ----- the roll-up -----

  function MaxLevel(accounts: seq<Account>): (r: nat)
    ensures forall i :: 0 <= i < |accounts| ==> accounts[i].level <= r
  {
    if |accounts| == 0 then 0
    else
      var n := |accounts| - 1;
      if MaxLevel(accounts[..n]) < accounts[n].level then accounts[n].level else MaxLevel(accounts[..n])
  }

  function ChildOf(accounts: seq<Account>, id: AccountId): nat -> bool {
    (k: nat) => k < |accounts| && accounts[k].parent == Some(id)
  }

  /** `byParent[id]`. */
  function Kids(accounts: seq<Account>, id: AccountId): seq<nat> { Keep(ChildOf(accounts, id), Range(0, |accounts|)) }

  /** The total of a subtree: a leaf's own amount, or the total of the children. */
  function RollUp(accounts: seq<Account>, amounts: seq<int>, i: nat): int
    requires Forest(accounts) && |amounts| == |accounts| && i < |accounts|
    decreases MaxLevel(accounts) - accounts[i].level, 1, 0
  {
    if accounts[i].isLeaf then amounts[i]
    else RollUpAll(accounts, amounts, i, Kids(accounts, accounts[i].id))
  }

  function RollUpAll(accounts: seq<Account>, amounts: seq<int>, i: nat, kids: seq<nat>): int
    requires Forest(accounts) && |amounts| == |accounts| && i < |accounts|
    requires forall k :: k in kids ==> ChildOf(accounts, accounts[i].id)(k)
    decreases MaxLevel(accounts) - accounts[i].level, 0, |kids|
  {
    if |kids| == 0 then 0
    else
      var last := kids[|kids| - 1];
      assert last in kids && ChildOf(accounts, accounts[i].id)(last);
      ChildDeeper(accounts, i, last);
      RollUpAll(accounts, amounts, i, kids[..|kids| - 1]) + RollUp(accounts, amounts, last)
  }

  lemma ChildDeeper(accounts: seq<Account>, i: nat, k: nat)
    requires Forest(accounts) && i < |accounts| && k < |accounts| && accounts[k].parent == Some(accounts[i].id)
    ensures IsParentOf(accounts, i, k) && accounts[k].level <= MaxLevel(accounts)
  {
    assert WellPlaced(accounts, k);
    var j :| 0 <= j < |accounts| && IsParentOf(accounts, j, k);
    assert j == i;
  }

  // ----- the roots total the leaves -----

  /** The roll-up of any row, and zero outside the chart. */
  ghost function Total(accounts: seq<Account>, amounts: seq<int>, k: nat): int {
    if Forest(accounts) && |amounts| == |accounts| && k < |accounts| then RollUp(accounts, amounts, k) else 0
  }

  ghost function RollUps(accounts: seq<Account>, amounts: seq<int>): nat -> int {
    (k: nat) => Total(accounts, amounts, k)
  }

  lemma {:induction false} RollUpAllIsSum(accounts: seq<Account>, amounts: seq<int>, i: nat, kids: seq<nat>)
    requires Forest(accounts) && |amounts| == |accounts| && i < |accounts|
    requires forall k :: k in kids ==> ChildOf(accounts, accounts[i].id)(k)
    ensures RollUpAll(accounts, amounts, i, kids) == Sum(RollUps(accounts, amounts), kids)
  {
    if |kids| > 0 {
      assert kids[|kids| - 1] in kids;
      RollUpAllIsSum(accounts, amounts, i, kids[..|kids| - 1]);
    }
  }

  predicate AtLevel(accounts: seq<Account>, kind: AccountType, level: nat, k: nat) {
    k < |accounts| && accounts[k].kind == kind && accounts[k].level == level
  }

  /** Subtree totals of one level of one kind. */
  ghost function LevelTotal(accounts: seq<Account>, amounts: seq<int>, kind: AccountType, level: nat): nat -> int {
    (k: nat) => if AtLevel(accounts, kind, level, k) then Total(accounts, amounts, k) else 0
  }

  /** Amounts of the leaves of one kind at a level or deeper. */
  function LeavesFrom(accounts: seq<Account>, amounts: seq<int>, kind: AccountType, level: nat): nat -> int {
    (k: nat) => if k < |accounts| && k < |amounts| && accounts[k].kind == kind && accounts[k].isLeaf && accounts[k].level >= level
                then amounts[k] else 0
  }

  /** Parent `i` at a level, against its child `k`. */
  ghost function ParentChild(accounts: seq<Account>, amounts: seq<int>, kind: AccountType, level: nat): (nat, nat) -> int {
    (i: nat, k: nat) =>
      if AtLevel(accounts, kind, level, i) && !accounts[i].isLeaf && ChildOf(accounts, accounts[i].id)(k)
      then Total(accounts, amounts, k) else 0
  }

  lemma NonLeafIsItsRow(accounts: seq<Account>, amounts: seq<int>, kind: AccountType, level: nat, i: nat)
    requires Forest(accounts) && |amounts| == |accounts|
    requires AtLevel(accounts, kind, level, i) && !accounts[i].isLeaf
    ensures RollUp(accounts, amounts, i) == RowSums(ParentChild(accounts, amounts, kind, level), Range(0, |accounts|))(i)
  {
    var id, all := accounts[i].id, Range(0, |accounts|);
    RollUpAllIsSum(accounts, amounts, i, Kids(accounts, id));
    var row := Along(ParentChild(accounts, amounts, kind, level), i);
    hide RollUp, RollUpAll, Forest;
    assert forall k :: k in Kids(accounts, id) ==> ChildOf(accounts, id)(k);
    SumSame(RollUps(accounts, amounts), row, Kids(accounts, id));
    SumKeep(row, ChildOf(accounts, id), all);
  }

  function LeafAt(accounts: seq<Account>, amounts: seq<int>, kind: AccountType, level: nat): nat -> int {
    (k: nat) => if AtLevel(accounts, kind, level, k) && accounts[k].isLeaf && k < |amounts| then amounts[k] else 0
  }

  /** A node of the level is a leaf or the total of its row of children. */
  lemma LevelCell(accounts: seq<Account>, amounts: seq<int>, kind: AccountType, level: nat, i: nat)
    requires Forest(accounts) && |amounts| == |accounts| && i < |accounts|
    ensures LevelTotal(accounts, amounts, kind, level)(i)
         == LeafAt(accounts, amounts, kind, level)(i) + RowSums(ParentChild(accounts, amounts, kind, level), Range(0, |accounts|))(i)
  {
    if AtLevel(accounts, kind, level, i) && !accounts[i].isLeaf {
      NonLeafIsItsRow(accounts, amounts, kind, level, i);
    } else {
      SumZero(Along(ParentChild(accounts, amounts, kind, level), i), Range(0, |accounts|));
    }
  }

  /** A node one level down appears in exactly one column entry, its parent's. */
  lemma ChildCell(accounts: seq<Account>, amounts: seq<int>, kind: AccountType, level: nat, k: nat)
    requires Forest(accounts) && |amounts| == |accounts| && k < |accounts| && level >= 1
    ensures ColumnSums(ParentChild(accounts, amounts, kind, level), Range(0, |accounts|))(k)
         == LevelTotal(accounts, amounts, kind, level + 1)(k)
  {
    var column, all := Across(ParentChild(accounts, amounts, kind, level), k), Range(0, |accounts|);
    hide Total;
    if AtLevel(accounts, kind, level + 1, k) {
      assert WellPlaced(accounts, k);
      var j :| 0 <= j < |accounts| && IsParentOf(accounts, j, k);
      forall i: nat | i < |all| && i != j ensures column(all[i]) == 0 {
        assert accounts[i].id != accounts[j].id;
        assert !ChildOf(accounts, accounts[i].id)(k);
      }
      assert AtLevel(accounts, kind, level, j) && ChildOf(accounts, accounts[j].id)(k);
      SumOnly(column, all, j);
    } else {
      forall i: nat | i < |all| ensures column(all[i]) == 0 {
        if ChildOf(accounts, accounts[i].id)(k) {
          ChildDeeper(accounts, i, k);
        }
      }
      SumZero(column, all);
    }
  }

  lemma LevelStep(accounts: seq<Account>, amounts: seq<int>, kind: AccountType, level: nat)
    requires Forest(accounts) && |amounts| == |accounts| && level >= 1
    ensures var all := Range(0, |accounts|);
      Sum(LevelTotal(accounts, amounts, kind, level), all)
      == Sum(LeafAt(accounts, amounts, kind, level), all) + Sum(LevelTotal(accounts, amounts, kind, level + 1), all)
  {
    var all, h := Range(0, |accounts|), ParentChild(accounts, amounts, kind, level);
    hide ParentChild, LevelTotal, LeafAt, Forest;
    forall i: nat | i < |all| ensures LevelTotal(accounts, amounts, kind, level)(all[i]) == LeafAt(accounts, amounts, kind, level)(all[i]) + RowSums(h, all)(all[i]) {
      LevelCell(accounts, amounts, kind, level, i);
    }
    SumAdd(LevelTotal(accounts, amounts, kind, level), LeafAt(accounts, amounts, kind, level), RowSums(h, all), all);
    SumExchange(h, all, all);
    forall k: nat | k < |all| ensures ColumnSums(h, all)(all[k]) == LevelTotal(accounts, amounts, kind, level + 1)(all[k]) {
      ChildCell(accounts, amounts, kind, level, k);
    }
    SumSame(ColumnSums(h, all), LevelTotal(accounts, amounts, kind, level + 1), all);
  }

  /** The subtrees hanging from one level total the leaves from that level down. */
  lemma {:induction false} LevelTotalsLeaves(accounts: seq<Account>, amounts: seq<int>, kind: AccountType, level: nat)
    requires Forest(accounts) && |amounts| == |accounts| && level >= 1
    ensures var all := Range(0, |accounts|);
      Sum(LevelTotal(accounts, amounts, kind, level), all) == Sum(LeavesFrom(accounts, amounts, kind, level), all)
    decreases MaxLevel(accounts) + 1 - level
  {
    var all := Range(0, |accounts|);
    hide Forest;
    if level > MaxLevel(accounts) {
      SumZero(LevelTotal(accounts, amounts, kind, level), all);
      SumZero(LeavesFrom(accounts, amounts, kind, level), all);
    } else {
      LevelStep(accounts, amounts, kind, level);
      LevelTotalsLeaves(accounts, amounts, kind, level + 1);
      SumAdd(LeavesFrom(accounts, amounts, kind, level), LeafAt(accounts, amounts, kind, level), LeavesFrom(accounts, amounts, kind, level + 1), all);
    }
  }

  lemma {:induction false} LevelPositive(accounts: seq<Account>, i: nat)
    requires Forest(accounts) && i < |accounts|
    ensures accounts[i].level >= 1 && (accounts[i].level == 1 <==> accounts[i].parent.None?)
    decreases accounts[i].level
  {
    assert WellPlaced(accounts, i);
    if accounts[i].parent.Some? {
      var j :| 0 <= j < |accounts| && IsParentOf(accounts, j, i);
      LevelPositive(accounts, j);
    }
  }

  /** The total a report shows for a type: its roots. */
  ghost function RootsOf(accounts: seq<Account>, amounts: seq<int>, kind: AccountType): nat -> int {
    (k: nat) => if k < |accounts| && accounts[k].kind == kind && accounts[k].parent.None? then Total(accounts, amounts, k) else 0
  }

  function LeavesOf(accounts: seq<Account>, amounts: seq<int>, kind: AccountType): nat -> int {
    (k: nat) => if k < |accounts| && k < |amounts| && accounts[k].kind == kind && accounts[k].isLeaf then amounts[k] else 0
  }

  /** The roots of a type total exactly its leaves. */
  lemma RootsTotalLeaves(accounts: seq<Account>, amounts: seq<int>, kind: AccountType)
    requires Forest(accounts) && |amounts| == |accounts|
    ensures var all := Range(0, |accounts|);
      Sum(RootsOf(accounts, amounts, kind), all) == Sum(LeavesOf(accounts, amounts, kind), all)
  {
    var all := Range(0, |accounts|);
    LevelTotalsLeaves(accounts, amounts, kind, 1);
    hide Total;
    forall k: nat | k < |all|
      ensures RootsOf(accounts, amounts, kind)(all[k]) == LevelTotal(accounts, amounts, kind, 1)(all[k])
      ensures LeavesOf(accounts, amounts, kind)(all[k]) == LeavesFrom(accounts, amounts, kind, 1)(all[k])
    {
      LevelPositive(accounts, k);
    }
    SumSame(RootsOf(accounts, amounts, kind), LevelTotal(accounts, amounts, kind, 1), all);
    SumSame(LeavesOf(accounts, amounts, kind), LeavesFrom(accounts, amounts, kind, 1), all);
  }

  // ----- nets of all accounts -----

  function LineNet(account: AccountId, l: Line): Cents { if l.account == account then l.debit - l.credit else 0 }

  /** A line against each account. */
  function Cell(accounts: seq<Account>): (nat, Line) -> int {
    (k: nat, l: Line) => if k < |accounts| then LineNet(accounts[k].id, l) else 0
  }

  function EntryNet(account: AccountId, asOf: int, e: Entry): Cents {
    if !e.isVoid && e.date <= asOf then Sum(NetOn(account), e.lines) else 0
  }

  /** An entry against each account. */
  function EntryCell(accounts: seq<Account>, asOf: int): (nat, Entry) -> int {
    (k: nat, e: Entry) => if k < |accounts| then EntryNet(accounts[k].id, asOf, e) else 0
  }

  function Balance(): Line -> int { (l: Line) => l.debit - l.credit }

  /** A line counts on exactly one account. */
  lemma LineCountsOnce(accounts: seq<Account>, l: Line)
    requires UniqueIds(accounts) && HasAccount(accounts, l.account)
    ensures ColumnSums(Cell(accounts), Range(0, |accounts|))(l) == l.debit - l.credit
  {
    var column, all := Across(Cell(accounts), l), Range(0, |accounts|);
    var j: nat :| j < |accounts| && accounts[j].id == l.account;
    forall i: nat | i < |all| && i != j ensures column(all[i]) == 0 {
      assert accounts[i].id != accounts[j].id;
    }
    SumOnly(column, all, j);
  }

  lemma {:induction false} LinesNet(accounts: seq<Account>, lines: seq<Line>)
    requires UniqueIds(accounts) && forall l :: 0 <= l < |lines| ==> HasAccount(accounts, lines[l].account)
    ensures Sum(RowSums(Cell(accounts), lines), Range(0, |accounts|)) == Sum(Debit(), lines) - Sum(Credit(), lines)
  {
    var all := Range(0, |accounts|);
    SumExchange(Cell(accounts), all, lines);
    forall l | 0 <= l < |lines| ensures ColumnSums(Cell(accounts), all)(lines[l]) == Balance()(lines[l]) {
      LineCountsOnce(accounts, lines[l]);
    }
    SumSame(ColumnSums(Cell(accounts), all), Balance(), lines);
    SumAdd(Debit(), Balance(), Credit(), lines);
  }

  lemma EntryColumn(db: Db, asOf: int, e: nat)
    requires UniqueIds(db.accounts) && LinesPlaced(db) && e < |db.entries|
    ensures ColumnSums(EntryCell(db.accounts, asOf), Range(0, |db.accounts|))(db.entries[e]) == GapAsOfEntry(asOf)(db.entries[e])
  {
    var entry, all := db.entries[e], Range(0, |db.accounts|);
    var column := Across(EntryCell(db.accounts, asOf), entry);
    if !entry.isVoid && entry.date <= asOf {
      forall i: nat | i < |all| ensures column(all[i]) == RowSums(Cell(db.accounts), entry.lines)(all[i]) {
        SumSame(NetOn(db.accounts[i].id), Along(Cell(db.accounts), i), entry.lines);
      }
      SumSame(column, RowSums(Cell(db.accounts), entry.lines), all);
      LinesNet(db.accounts, entry.lines);
    } else {
      SumZero(column, all);
    }
  }

  function Nets(db: Db, asOf: int): nat -> int {
    (k: nat) => if k < |db.accounts| then NetAsOf(db, db.accounts[k].id, asOf) else 0
  }

  /** The nets of all accounts total the trial balance. */
  lemma NetsTotalTrialBalance(db: Db, asOf: int)
    requires UniqueIds(db.accounts) && LinesPlaced(db)
    ensures Sum(Nets(db, asOf), Range(0, |db.accounts|)) == TrialBalanceAsOf(db, asOf)
  {
    var all, h := Range(0, |db.accounts|), EntryCell(db.accounts, asOf);
    forall k: nat | k < |all| ensures Nets(db, asOf)(all[k]) == RowSums(h, db.entries)(all[k]) {
      SumSame(NetAsOfEntry(db.accounts[k].id, asOf), Along(h, k), db.entries);
    }
    SumSame(Nets(db, asOf), RowSums(h, db.entries), all);
    SumExchange(h, all, db.entries);
    forall e | 0 <= e < |db.entries| ensures ColumnSums(h, all)(db.entries[e]) == GapAsOfEntry(asOf)(db.entries[e]) {
      EntryColumn(db, asOf, e);
    }
    SumSame(ColumnSums(h, all), GapAsOfEntry(asOf), db.entries);
  }

  // ----- the accounting equation -----

  ghost function TypeTotal(db: Db, asOf: int, kind: AccountType): Cents {
    Sum(RootsOf(db.accounts, OwnAmounts(db, asOf), kind), Range(0, |db.accounts|))
  }

  /** Assets less liabilities, equity and unclosed profit. */
  ghost function SheetGap(db: Db, asOf: int): Cents {
    TypeTotal(db, asOf, Asset)
    - (TypeTotal(db, asOf, Liability) + TypeTotal(db, asOf, Equity) + (TypeTotal(db, asOf, Revenue) - TypeTotal(db, asOf, Expense)))
  }

  /** Nets standing on accounts with children, which the walk overwrites. */
  function ParentNets(db: Db, asOf: int): nat -> int {
    (k: nat) => if k < |db.accounts| && !db.accounts[k].isLeaf then NetAsOf(db, db.accounts[k].id, asOf) else 0
  }

  predicate IsContra(a: Account) { a.normalDebit != DefaultNormalDebit(a.kind) }

  /** Nets of contra leaves, whose sign the totals do not turn. */
  function ContraNets(db: Db, asOf: int): nat -> int {
    (k: nat) => if k < |db.accounts| && db.accounts[k].isLeaf && IsContra(db.accounts[k]) then NetAsOf(db, db.accounts[k].id, asOf) else 0
  }

  /** A leaf's amount with the side of its type. */
  function SheetCell(db: Db, asOf: int): nat -> int {
    (k: nat) => if k < |db.accounts| && db.accounts[k].isLeaf
                then (if DefaultNormalDebit(db.accounts[k].kind) then OwnAmount(db, asOf, k) else -OwnAmount(db, asOf, k)) else 0
  }

  lemma {:induction false} SumFive(a: nat -> int, b: nat -> int, c: nat -> int, d: nat -> int, e: nat -> int, f: nat -> int, s: seq<nat>)
    requires forall i :: 0 <= i < |s| ==> f(s[i]) == a(s[i]) - b(s[i]) - c(s[i]) - d(s[i]) + e(s[i])
    ensures Sum(f, s) == Sum(a, s) - Sum(b, s) - Sum(c, s) - Sum(d, s) + Sum(e, s)
  {
    if |s| > 0 {
      SumFive(a, b, c, d, e, f, s[..|s| - 1]);
    }
  }

  lemma GapIsLeaves(db: Db, asOf: int)
    requires Forest(db.accounts)
    ensures SheetGap(db, asOf) == Sum(SheetCell(db, asOf), Range(0, |db.accounts|))
  {
    var all, own := Range(0, |db.accounts|), OwnAmounts(db, asOf);
    RootsTotalLeaves(db.accounts, own, Asset);
    RootsTotalLeaves(db.accounts, own, Liability);
    RootsTotalLeaves(db.accounts, own, Equity);
    RootsTotalLeaves(db.accounts, own, Revenue);
    RootsTotalLeaves(db.accounts, own, Expense);
    hide RootsOf, Forest, NetAsOf;
    SumFive(LeavesOf(db.accounts, own, Asset), LeavesOf(db.accounts, own, Liability), LeavesOf(db.accounts, own, Equity),
            LeavesOf(db.accounts, own, Revenue), LeavesOf(db.accounts, own, Expense), SheetCell(db, asOf), all);
  }

  lemma {:induction false} SumLessTwice(a: nat -> int, b: nat -> int, c: nat -> int, f: nat -> int, s: seq<nat>)
    requires forall i :: 0 <= i < |s| ==> f(s[i]) == a(s[i]) - b(s[i]) - 2 * c(s[i])
    ensures Sum(f, s) == Sum(a, s) - Sum(b, s) - 2 * Sum(c, s)
  {
    if |s| > 0 {
      SumLessTwice(a, b, c, f, s[..|s| - 1]);
    }
  }

  /** The sheet is out by the trial balance, less what stands on parent accounts, less twice
      what stands on contra leaves. */
  lemma ExactGap(db: Db, asOf: int)
    requires Forest(db.accounts) && LinesPlaced(db)
    ensures var all := Range(0, |db.accounts|);
      SheetGap(db, asOf) == TrialBalanceAsOf(db, asOf) - Sum(ParentNets(db, asOf), all) - 2 * Sum(ContraNets(db, asOf), all)
  {
    var all := Range(0, |db.accounts|);
    GapIsLeaves(db, asOf);
    NetsTotalTrialBalance(db, asOf);
    hide SheetGap, Forest, LinesPlaced, NetAsOf, TrialBalanceAsOf;
    SumLessTwice(Nets(db, asOf), ParentNets(db, asOf), ContraNets(db, asOf), SheetCell(db, asOf), all);
  }

  predicate PlainChart(accounts: seq<Account>) { forall k :: 0 <= k < |accounts| && accounts[k].isLeaf ==> !IsContra(accounts[k]) }

  ghost predicate LeavesOnly(db: Db) {
    forall e, l, k :: 0 <= e < |db.entries| && 0 <= l < |db.entries[e].lines| && 0 <= k < |db.accounts| ==>
      db.entries[e].lines[l].account == db.accounts[k].id ==> db.accounts[k].isLeaf
  }

  function CountAsOf(asOf: int): Entry -> int { (e: Entry) => if !e.isVoid && e.date <= asOf then 1 else 0 }

  lemma NoNetOffLeaves(db: Db, asOf: int, k: nat)
    requires LeavesOnly(db) && k < |db.accounts| && !db.accounts[k].isLeaf
    ensures NetAsOf(db, db.accounts[k].id, asOf) == 0
  {
    var id := db.accounts[k].id;
    forall e | 0 <= e < |db.entries| ensures NetAsOfEntry(id, asOf)(db.entries[e]) == 0 {
      SumZero(NetOn(id), db.entries[e].lines);
    }
    SumZero(NetAsOfEntry(id, asOf), db.entries);
  }

  /** With every line on a leaf and every leaf on its type's side, the gap is the trial
      balance, within a cent per live entry. */
  lemma PlainSheetBalances(db: Db, asOf: int)
    requires Inv(db) && Forest(db.accounts) && PlainChart(db.accounts) && LeavesOnly(db)
    ensures SheetGap(db, asOf) == TrialBalanceAsOf(db, asOf)
    ensures -Sum(CountAsOf(asOf), db.entries) <= SheetGap(db, asOf) <= Sum(CountAsOf(asOf), db.entries)
  {
    var all := Range(0, |db.accounts|);
    SanePlaced(db);
    ExactGap(db, asOf);
    forall k: nat | k < |all| ensures ParentNets(db, asOf)(all[k]) == 0 && ContraNets(db, asOf)(all[k]) == 0 {
      if !db.accounts[k].isLeaf {
        NoNetOffLeaves(db, asOf, k);
      } else {
        assert !IsContra(db.accounts[k]);
      }
    }
    SumZero(ParentNets(db, asOf), all);
    SumZero(ContraNets(db, asOf), all);
    forall e | 0 <= e < |db.entries| ensures -CountAsOf(asOf)(db.entries[e]) <= GapAsOfEntry(asOf)(db.entries[e]) <= CountAsOf(asOf)(db.entries[e]) {
      assert EntrySane(db.accounts, db.boxes.Keys, db.entries[e]);
    }
    SumBounded(GapAsOfEntry(asOf), CountAsOf(asOf), db.entries);
  }

  // ----- a parent that carries lines -----

  lemma SumShift(f: nat -> int, g: nat -> int, n: nat, p: nat, shift: int)
    requires p < n && g(p) == f(p) + shift
    requires forall k: nat :: k < n && k != p ==> g(k) == f(k)
    ensures Sum(g, Range(0, n)) == Sum(f, Range(0, n)) + shift
  {
    var d := (k: nat) => g(k) - f(k);
    SumAdd(g, f, d, Range(0, n));
    SumOnly(d, Range(0, n), p);
  }

  lemma SameEntriesSameNets(db: Db, d: Db, asOf: int)
    requires d.entries == db.entries
    ensures TrialBalanceAsOf(d, asOf) == TrialBalanceAsOf(db, asOf)
    ensures forall id: AccountId :: NetAsOf(d, id, asOf) == NetAsOf(db, id, asOf)
  {
  }

  lemma MarkingKeeps(db: Db, p: nat)
    requires Forest(db.accounts) && LinesPlaced(db) && p < |db.accounts|
    ensures var d := db.(accounts := MarkParent(db.accounts, Some(db.accounts[p].id)));
      && Forest(d.accounts) && LinesPlaced(d)
      && (forall k :: 0 <= k < |d.accounts| ==> d.accounts[k] == if k == p then db.accounts[p].(isLeaf := false) else db.accounts[k])
  {
    var old_, new_ := db.accounts, MarkParent(db.accounts, Some(db.accounts[p].id));
    forall k | 0 <= k < |new_| ensures new_[k] == if k == p then old_[p].(isLeaf := false) else old_[k] {
      assert k != p ==> old_[k].id != old_[p].id;
    }
    forall i | 0 <= i < |new_| ensures WellPlaced(new_, i) {
      assert WellPlaced(old_, i);
      if old_[i].parent.Some? {
        var j :| 0 <= j < |old_| && IsParentOf(old_, j, i);
        assert IsParentOf(new_, j, i);
      }
    }
    forall id | HasAccount(old_, id) ensures HasAccount(new_, id) {
      var i :| 0 <= i < |old_| && old_[i].id == id;
      assert new_[i].id == id;
    }
  }

  /** Losing its leaf flag takes an account's own lines out of the sheet. */
  lemma GapAfterMarking(db: Db, p: nat, asOf: int)
    requires Forest(db.accounts) && LinesPlaced(db) && p < |db.accounts| && db.accounts[p].isLeaf
    ensures var d := db.(accounts := MarkParent(db.accounts, Some(db.accounts[p].id))); var net := NetAsOf(db, db.accounts[p].id, asOf);
      && Forest(d.accounts) && LinesPlaced(d)
      && SheetGap(d, asOf) == SheetGap(db, asOf) - (if IsContra(db.accounts[p]) then -net else net)
  {
    var id := db.accounts[p].id;
    var d := db.(accounts := MarkParent(db.accounts, Some(id)));
    var n, net := |db.accounts|, NetAsOf(db, id, asOf);
    MarkingKeeps(db, p);
    ExactGap(db, asOf);
    ExactGap(d, asOf);
    hide SheetGap, Forest, LinesPlaced, NetAsOf, TrialBalanceAsOf;
    SameEntriesSameNets(db, d, asOf);
    SumShift(ParentNets(db, asOf), ParentNets(d, asOf), n, p, net);
    SumShift(ContraNets(db, asOf), ContraNets(d, asOf), n, p, if IsContra(db.accounts[p]) then -net else 0);
  }

  /** Creating a child and removing it again is not undone: the parent keeps its lines but is
      a leaf no more, and the sheet stays off by them. */
  lemma CreateThenRemoveLosesLines(db: Db, a: NewAccount, p: nat, asOf: int)
    requires Forest(db.accounts) && LinesPlaced(db) && p < |db.accounts| && db.accounts[p].isLeaf
    requires CreateError(db, a).None? && a.parent == Some(db.accounts[p].id)
    ensures var d := Remove(Create(db, a), a.id); var net := NetAsOf(db, db.accounts[p].id, asOf);
      && RemoveError(Create(db, a), a.id).None?
      && Forest(d.accounts)
      && SheetGap(d, asOf) == SheetGap(db, asOf) - (if IsContra(db.accounts[p]) then -net else net)
  {
    GapAfterMarking(db, p, asOf);
    hide SheetGap, NetAsOf;
    var c := Create(db, a);
    NewAccountUnused(db, a);
    assert Find(c.accounts, a.id) == Some(|db.accounts|);
    assert Remove(c, a.id).accounts == MarkParent(db.accounts, a.parent);
  }

  lemma NewAccountUnused(db: Db, a: NewAccount)
    requires Forest(db.accounts) && LinesPlaced(db) && CreateError(db, a).None?
    ensures !Carries(db.entries, a.id) && !IsParent(Create(db, a).accounts, a.id)
  {
    forall e | 0 <= e < |db.entries| ensures !OnAccount(db.entries[e].lines, a.id) {
      forall l | 0 <= l < |db.entries[e].lines| ensures db.entries[e].lines[l].account != a.id {
        assert HasAccount(db.accounts, db.entries[e].lines[l].account);
      }
    }
    var c := Create(db, a).accounts;
    forall i | 0 <= i < |c| ensures c[i].parent != Some(a.id) {
      if i < |db.accounts| {
        assert WellPlaced(db.accounts, i) && c[i].parent == db.accounts[i].parent;
      }
    }
  }

  // ----- the report as it runs -----

  /** `k` is `i` or lies below it. */
  ghost predicate Under(accounts: seq<Account>, k: nat, i: nat)
    requires k < |accounts| && i < |accounts|
    decreases accounts[k].level
  {
    k == i || exists j :: 0 <= j < |accounts| && IsParentOf(accounts, j, k) && Under(accounts, j, i)
  }

  lemma {:induction false} UnderAChild(accounts: seq<Account>, k: nat, i: nat) returns (c: nat)
    requires k < |accounts| && i < |accounts| && k != i && Under(accounts, k, i)
    ensures c < |accounts| && IsParentOf(accounts, i, c) && Under(accounts, k, c)
    decreases accounts[k].level
  {
    var j :| 0 <= j < |accounts| && IsParentOf(accounts, j, k) && Under(accounts, j, i);
    if j == i {
      c := k;
    } else {
      c := UnderAChild(accounts, j, i);
    }
  }

  lemma {:induction false} UnderARoot(accounts: seq<Account>, k: nat) returns (r: nat)
    requires Forest(accounts) && k < |accounts|
    ensures r < |accounts| && accounts[r].parent.None? && Under(accounts, k, r)
    decreases accounts[k].level
  {
    assert WellPlaced(accounts, k);
    if accounts[k].parent.None? {
      r := k;
    } else {
      var j :| 0 <= j < |accounts| && IsParentOf(accounts, j, k);
      r := UnderARoot(accounts, j);
    }
  }

  lemma {:induction false} KeptBy<T>(p: T -> bool, s: seq<T>, x: T)
    requires x in s && p(x)
    ensures x in Keep(p, s)
  {
    var n := |s| - 1;
    if s[n] != x {
      assert x in s[..n];
      KeptBy(p, s[..n], x);
    }
  }

  /** Rows that were already rolled up stay so. */
  ghost predicate Later(accounts: seq<Account>, start: seq<int>, before: seq<int>, after: seq<int>)
    requires Forest(accounts) && |start| == |accounts|
  {
    |before| == |after| == |accounts|
    && forall k :: 0 <= k < |accounts| && before[k] == RollUp(accounts, start, k) ==> after[k] == before[k]
  }

  /** Every row at or below `i` is rolled up. */
  ghost predicate Done(accounts: seq<Account>, start: seq<int>, rows: seq<int>, i: nat)
    requires Forest(accounts) && |start| == |accounts|
  {
    |rows| == |accounts| && i < |accounts|
    && forall k :: 0 <= k < |accounts| && Under(accounts, k, i) ==> rows[k] == RollUp(accounts, start, k)
  }

  lemma LaterAgain(accounts: seq<Account>, start: seq<int>, a: seq<int>, b: seq<int>, c: seq<int>)
    requires Forest(accounts) && |start| == |accounts| && Later(accounts, start, a, b) && Later(accounts, start, b, c)
    ensures Later(accounts, start, a, c)
  {
  }

  lemma StaysDone(accounts: seq<Account>, start: seq<int>, before: seq<int>, after: seq<int>, i: nat)
    requires Forest(accounts) && |start| == |accounts| && Later(accounts, start, before, after) && Done(accounts, start, before, i)
    ensures Done(accounts, start, after, i)
  {
    hide Under;
  }

  lemma LaterSelf(accounts: seq<Account>, start: seq<int>, rows: seq<int>)
    requires Forest(accounts) && |start| == |accounts| == |rows|
    ensures Later(accounts, start, rows, rows)
  {
  }

  lemma LeafDone(accounts: seq<Account>, start: seq<int>, rows: seq<int>, i: nat)
    requires Forest(accounts) && |start| == |accounts| == |rows| && i < |accounts|
    requires accounts[i].isLeaf && rows[i] == start[i]
    ensures Done(accounts, start, rows, i) && RollUp(accounts, start, i) == rows[i]
  {
    forall k | 0 <= k < |accounts| && Under(accounts, k, i) ensures k == i {
      if k != i {
        var c := UnderAChild(accounts, k, i);
        assert false;
      }
    }
  }

  lemma DoneBelow(accounts: seq<Account>, start: seq<int>, rows: seq<int>, i: nat, kids: seq<nat>)
    requires Forest(accounts) && |start| == |accounts| == |rows| && i < |accounts|
    requires kids == Kids(accounts, accounts[i].id) && forall m :: 0 <= m < |kids| ==> Done(accounts, start, rows, kids[m])
    ensures var s := RollUp(accounts, start, i);
      Later(accounts, start, rows, rows[i := s]) && Done(accounts, start, rows[i := s], i)
  {
    var s := RollUp(accounts, start, i);
    forall k | 0 <= k < |accounts| && Under(accounts, k, i) ensures rows[i := s][k] == RollUp(accounts, start, k) {
      if k != i {
        var c := UnderAChild(accounts, k, i);
        KeptBy(ChildOf(accounts, accounts[i].id), Range(0, |accounts|), Range(0, |accounts|)[c]);
        var m :| 0 <= m < |kids| && kids[m] == c;
        assert Done(accounts, start, rows, kids[m]);
      }
    }
  }

  /** The rows of the report once every subtree was walked. */
  function RolledUp(accounts: seq<Account>, amounts: seq<int>): (r: seq<int>)
    requires Forest(accounts) && |amounts| == |accounts|
    ensures |r| == |accounts|
  {
    seq(|accounts|, k requires 0 <= k < |accounts| && Forest(accounts) && |amounts| == |accounts| => RollUp(accounts, amounts, k))
  }

  datatype Sheet = Sheet(
    amounts: seq<int>, assets: Cents, liabilities: Cents, bookEquity: Cents, netProfit: Cents, totalEquity: Cents, balanced: bool)

  class AccountingReports {
    const engine: FinancialEngine

    constructor (engine: FinancialEngine)
      ensures this.engine == engine
    {
      this.engine := engine;
    }

    /** Each row is still its own amount, or already its roll-up; leaves are always their own. */
    ghost predicate Walked(amounts: array<int>, start: seq<int>)
      reads engine, amounts
    {
      && Forest(engine.accounts) && amounts.Length == |engine.accounts| == |start|
      && forall k :: 0 <= k < |start| ==>
           (engine.accounts[k].isLeaf ==> amounts[k] == start[k])
           && (amounts[k] == start[k] || amounts[k] == RollUp(engine.accounts, start, k))
    }

    /** `sumTree`: overwrites every inner row below the node, and returns the node's total. */
    method SumTree(amounts: array<int>, ghost start: seq<int>, i: nat) returns (s: int)
      requires Walked(amounts, start) && i < amounts.Length
      modifies amounts
      ensures Walked(amounts, start) && s == amounts[i] == RollUp(engine.accounts, start, i)
      ensures Later(engine.accounts, start, old(amounts[..]), amounts[..])
      ensures Done(engine.accounts, start, amounts[..], i)
      decreases MaxLevel(engine.accounts) - engine.accounts[i].level
    {
      hide Forest, Under, Later, Done;
      ghost var accounts := engine.accounts;
      LaterSelf(accounts, start, amounts[..]);
      if engine.accounts[i].isLeaf {
        LeafDone(accounts, start, amounts[..], i);
        return amounts[i];
      }
      var kids := Kids(engine.accounts, engine.accounts[i].id);
      s := 0;
      forall m | 0 <= m < |kids| ensures kids[m] < |accounts| {
        assert kids[m] in kids && ChildOf(accounts, accounts[i].id)(kids[m]);
      }
      for n := 0 to |kids|
        invariant Walked(amounts, start) && engine.accounts == accounts
        invariant s == RollUpAll(accounts, start, i, kids[..n])
        invariant Later(accounts, start, old(amounts[..]), amounts[..])
        invariant forall m :: 0 <= m < n ==> Done(accounts, start, amounts[..], kids[m])
      {
        assert kids[n] in kids && ChildOf(accounts, accounts[i].id)(kids[n]);
        ChildDeeper(accounts, i, kids[n]);
        assert kids[..n + 1][..n] == kids[..n];
        ghost var before := amounts[..];
        var t := SumTree(amounts, start, kids[n]);
        s := s + t;
        LaterAgain(accounts, start, old(amounts[..]), before, amounts[..]);
        forall m | 0 <= m < n ensures Done(accounts, start, amounts[..], kids[m]) {
          StaysDone(accounts, start, before, amounts[..], kids[m]);
        }
      }
      assert kids[..|kids|] == kids;
      ghost var before := amounts[..];
      amounts[i] := s;
      assert amounts[..] == before[i := s];
      DoneBelow(accounts, start, before, i, kids);
      LaterAgain(accounts, start, old(amounts[..]), before, amounts[..]);
    }

    /** The total shown for a type: its rows without a parent. */
    method RootTotal(amounts: array<int>, ghost start: seq<int>, kind: AccountType) returns (total: Cents)
      requires Forest(engine.accounts) && |start| == |engine.accounts| && amounts[..] == RolledUp(engine.accounts, start)
      ensures total == Sum(RootsOf(engine.accounts, start, kind), Range(0, |engine.accounts|))
    {
      total := 0;
      ghost var f, all := RootsOf(engine.accounts, start, kind), Range(0, |engine.accounts|);
      for k := 0 to amounts.Length
        invariant total == Sum(f, all[..k])
      {
        assert all[..k + 1][..k] == all[..k];
        assert amounts[..][k] == RollUp(engine.accounts, start, k);
        if engine.accounts[k].kind == kind && engine.accounts[k].parent.None? {
          total := total + amounts[k];
        }
      }
      assert all[..|all|] == all;
    }

    /** `balanceSheet`: every row shows its roll-up, and the sheet calls itself balanced exactly
        when the trial balance is what stands on parents plus twice what stands on contra leaves. */
    method MakeBalanceSheet(asOf: int) returns (sheet: Sheet)
      requires Forest(engine.accounts) && LinesPlaced(engine.Snapshot())
      ensures var db := engine.Snapshot(); var all := Range(0, |db.accounts|);
        && sheet.amounts == RolledUp(db.accounts, OwnAmounts(db, asOf))
        && sheet.assets == TypeTotal(db, asOf, Asset) && sheet.liabilities == TypeTotal(db, asOf, Liability)
        && sheet.bookEquity == TypeTotal(db, asOf, Equity)
        && sheet.netProfit == TypeTotal(db, asOf, Revenue) - TypeTotal(db, asOf, Expense)
        && sheet.totalEquity == sheet.bookEquity + sheet.netProfit
        && (sheet.balanced <==> TrialBalanceAsOf(db, asOf) == Sum(ParentNets(db, asOf), all) + 2 * Sum(ContraNets(db, asOf), all))
    {
      var db := engine.Snapshot();
      var own := OwnAmounts(db, asOf);
      var amounts := new int[|own|](k requires 0 <= k < |own| => own[k]);
      assert amounts[..] == own;
      WalkRoots(amounts, own);
      var revenue := RootTotal(amounts, own, Revenue);
      var expenses := RootTotal(amounts, own, Expense);
      var assets := RootTotal(amounts, own, Asset);
      var liabilities := RootTotal(amounts, own, Liability);
      var equity := RootTotal(amounts, own, Equity);
      var netProfit := revenue - expenses;
      ExactGap(db, asOf);
      sheet := Sheet(amounts[..], assets, liabilities, equity, netProfit, equity + netProfit,
                     Abs(assets - (liabilities + (equity + netProfit))) < 1);
    }

    method WalkRoots(amounts: array<int>, ghost start: seq<int>)
      requires Walked(amounts, start) && amounts[..] == start
      modifies amounts
      ensures amounts[..] == RolledUp(engine.accounts, start)
    {
      ghost var accounts := engine.accounts;
      for i := 0 to amounts.Length
        invariant Walked(amounts, start) && engine.accounts == accounts
        invariant forall r :: 0 <= r < i && accounts[r].parent.None? ==> Done(accounts, start, amounts[..], r)
      {
        if engine.accounts[i].parent.None? {
          ghost var before := amounts[..];
          var _ := SumTree(amounts, start, i);
          forall r | 0 <= r < i && accounts[r].parent.None? ensures Done(accounts, start, amounts[..], r) {
            StaysDone(accounts, start, before, amounts[..], r);
          }
        }
      }
      forall k | 0 <= k < amounts.Length ensures amounts[k] == RollUp(accounts, start, k) {
        var r := UnderARoot(accounts, k);
        assert Done(accounts, start, amounts[..], r) && amounts[..][k] == amounts[k];
      }
    }
  }
}
