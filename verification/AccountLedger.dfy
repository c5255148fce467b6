/**
 The statement of one account: an opening balance, the live lines of a date window in order,
 and a running balance. Statements of adjacent windows chain.
 */
module AccountLedger {
  import opened Sums
  import opened Ledger
  import opened BalanceSheet

  /** A journal line with its entry's date and both positions. */
  datatype Row = Row(date: int, entry: nat, line: nat, debit: Cents, credit: Cents)

  datatype Statement = Statement(opening: Cents, lines: seq<(Row, Cents)>, closing: Cents, totalDebit: Cents, totalCredit: Cents)

  // ----- the rows of an account -----

  function LineRows(e: Entry, at: nat, account: AccountId, n: nat): seq<Row>
    requires n <= |e.lines|
  {
    if n == 0 then []
    else
      var front, l := LineRows(e, at, account, n - 1), e.lines[n - 1];
      if l.account == account then front + [Row(e.date, at, n - 1, l.debit, l.credit)] else front
  }

  /** Live lines on the account, in table order. */
  function Rows(entries: seq<Entry>, account: AccountId): seq<Row> {
    if |entries| == 0 then []
    else
      var n := |entries| - 1;
      Rows(entries[..n], account) + if entries[n].isVoid then [] else LineRows(entries[n], n, account, |entries[n].lines|)
  }

  predicate Precedes(a: Row, b: Row) {
    a.date < b.date || (a.date == b.date && (a.entry < b.entry || (a.entry == b.entry && a.line <= b.line)))
  }

  predicate Ordered(rows: seq<Row>) { forall i, j :: 0 <= i < j < |rows| ==> Precedes(rows[i], rows[j]) }

  function Insert(rows: seq<Row>, r: Row): (s: seq<Row>)
    requires Ordered(rows)
    ensures Ordered(s) && multiset(s) == multiset(rows) + multiset{r}
  {
    if |rows| == 0 || Precedes(rows[|rows| - 1], r) then rows + [r]
    else
      var n := |rows| - 1;
      var front := Insert(rows[..n], r);
      InsertFacts(rows, r, front);
      front + [rows[n]]
  }

  lemma InsertFacts(rows: seq<Row>, r: Row, front: seq<Row>)
    requires |rows| > 0 && Ordered(rows) && Ordered(front) && !Precedes(rows[|rows| - 1], r)
    requires multiset(front) == multiset(rows[..|rows| - 1]) + multiset{r}
    ensures Ordered(front + [rows[|rows| - 1]])
    ensures multiset(front + [rows[|rows| - 1]]) == multiset(rows) + multiset{r}
  {
    var n := |rows| - 1;
    assert rows == rows[..n] + [rows[n]];
    forall i | 0 <= i < |front| ensures Precedes(front[i], rows[n]) {
      assert front[i] in multiset(front);
      assert front[i] == r || front[i] in rows[..n];
    }
  }

  /** The order the statement prints in. */
  function Sorted(rows: seq<Row>): (s: seq<Row>)
    ensures Ordered(s) && multiset(s) == multiset(rows)
  {
    if |rows| == 0 then []
    else
      var n := |rows| - 1;
      assert rows == rows[..n] + [rows[n]];
      Insert(Sorted(rows[..n]), rows[n])
  }

  // ----- the statement -----

  function Signed(normalDebit: bool): Row -> int {
    (r: Row) => if normalDebit then r.debit - r.credit else r.credit - r.debit
  }

  function InWindow(from: Option<int>, to: Option<int>): Row -> bool {
    (r: Row) => (from.Some? ==> r.date >= from.value) && (to.Some? ==> r.date <= to.value)
  }

  function Earlier(from: Option<int>): Row -> bool { (r: Row) => from.Some? && r.date < from.value }

  function Opening(rows: seq<Row>, normalDebit: bool, from: Option<int>): Cents {
    Sum(Signed(normalDebit), Keep(Earlier(from), rows))
  }

  /** Each row with the balance after it. */
  function Running(rows: seq<Row>, normalDebit: bool, opening: Cents): (r: seq<(Row, Cents)>)
    ensures |r| == |rows|
  {
    if |rows| == 0 then []
    else
      var n := |rows| - 1;
      Running(rows[..n], normalDebit, opening) + [(rows[n], opening + Sum(Signed(normalDebit), rows))]
  }

  function RowDebit(): Row -> int { (r: Row) => r.debit }

  function RowCredit(): Row -> int { (r: Row) => r.credit }

  function StatementOf(rows: seq<Row>, normalDebit: bool, from: Option<int>, to: Option<int>): Statement {
    var opening, window := Opening(rows, normalDebit, from), Keep(InWindow(from, to), Sorted(rows));
    Statement(opening, Running(window, normalDebit, opening), opening + Sum(Signed(normalDebit), window),
              Sum(RowDebit(), window), Sum(RowCredit(), window))
  }

  /** One pass over the window, carrying the balance. */
  method Walk(window: seq<Row>, normalDebit: bool, opening: Cents) returns (lines: seq<(Row, Cents)>, bal: Cents, totalDebit: Cents, totalCredit: Cents)
    ensures lines == Running(window, normalDebit, opening) && bal == opening + Sum(Signed(normalDebit), window)
    ensures totalDebit == Sum(RowDebit(), window) && totalCredit == Sum(RowCredit(), window)
  {
    bal, totalDebit, totalCredit, lines := opening, 0, 0, [];
    for i := 0 to |window|
      invariant lines == Running(window[..i], normalDebit, opening)
      invariant bal == opening + Sum(Signed(normalDebit), window[..i])
      invariant totalDebit == Sum(RowDebit(), window[..i]) && totalCredit == Sum(RowCredit(), window[..i])
    {
      assert window[..i + 1][..i] == window[..i];
      var d, c := window[i].debit, window[i].credit;
      bal := bal + if normalDebit then d - c else c - d;
      totalDebit, totalCredit := totalDebit + d, totalCredit + c;
      lines := lines + [(window[i], bal)];
    }
    assert window[..|window|] == window;
  }

  lemma {:induction false} NothingEarlier(rows: seq<Row>)
    ensures Keep(Earlier(None), rows) == []
  {
    if |rows| > 0 {
      NothingEarlier(rows[..|rows| - 1]);
    }
  }

  // ----- chaining -----

  /** Splitting the ordered rows of a window at a date gives its two halves in sequence. */
  lemma {:induction false} WindowSplits(rows: seq<Row>, from: Option<int>, mid: int, to: Option<int>)
    requires Ordered(rows) && (from.Some? ==> from.value <= mid + 1) && (to.Some? ==> mid <= to.value)
    ensures Keep(InWindow(from, to), rows) == Keep(InWindow(from, Some(mid)), rows) + Keep(InWindow(Some(mid + 1), to), rows)
  {
    if |rows| > 0 {
      var n := |rows| - 1;
      WindowSplits(rows[..n], from, mid, to);
      assert forall i :: 0 <= i < n && rows[n].date <= mid ==> Precedes(rows[i], rows[n]) && rows[i].date <= mid;
      hide Ordered, Keep;
      assert rows == rows[..n] + [rows[n]];
      if rows[n].date <= mid {
        NoneAfter(rows[..n], mid, to);
      }
      SplitSnoc(InWindow(from, to), InWindow(from, Some(mid)), InWindow(Some(mid + 1), to), rows[..n], rows[n]);
    }
  }

  lemma SplitSnoc(w: Row -> bool, p: Row -> bool, q: Row -> bool, rows: seq<Row>, r: Row)
    requires Keep(w, rows) == Keep(p, rows) + Keep(q, rows)
    requires (p(r) == w(r) && !q(r) && Keep(q, rows) == []) || (q(r) == w(r) && !p(r))
    ensures Keep(w, rows + [r]) == Keep(p, rows + [r]) + Keep(q, rows + [r])
  {
    KeepSnoc(w, rows, r);
    KeepSnoc(p, rows, r);
    KeepSnoc(q, rows, r);
    hide Keep;
    var a, b, x := Keep(p, rows), Keep(q, rows), if w(r) then [r] else [];
    assert (a + b) + x == a + (b + x);
  }

  lemma {:induction false} NoneAfter(rows: seq<Row>, mid: int, to: Option<int>)
    requires forall i :: 0 <= i < |rows| ==> rows[i].date <= mid
    ensures Keep(InWindow(Some(mid + 1), to), rows) == []
  {
    if |rows| > 0 {
      NoneAfter(rows[..|rows| - 1], mid, to);
    }
  }

  lemma {:induction false} RunningCat(a: seq<Row>, b: seq<Row>, normalDebit: bool, opening: Cents)
    ensures Running(a + b, normalDebit, opening)
         == Running(a, normalDebit, opening) + Running(b, normalDebit, opening + Sum(Signed(normalDebit), a))
  {
    if |b| == 0 {
      assert a + b == a;
    } else {
      var n := |b| - 1;
      assert (a + b)[..|a| + n] == a + b[..n];
      RunningCat(a, b[..n], normalDebit, opening);
      SumCat(Signed(normalDebit), a, b);
    }
  }

  lemma {:induction false} SumOfParts(rows: seq<Row>, f: Row -> int, p: Row -> bool, q: Row -> bool, r: Row -> bool)
    requires forall x :: x in rows ==> r(x) == (p(x) || q(x)) && !(p(x) && q(x))
    ensures Sum(f, Keep(r, rows)) == Sum(f, Keep(p, rows)) + Sum(f, Keep(q, rows))
  {
    if |rows| > 0 {
      var n := |rows| - 1;
      assert rows[n] in rows;
      SumOfParts(rows[..n], f, p, q, r);
      SumCat(f, Keep(r, rows[..n]), if r(rows[n]) then [rows[n]] else []);
      SumCat(f, Keep(p, rows[..n]), if p(rows[n]) then [rows[n]] else []);
      SumCat(f, Keep(q, rows[..n]), if q(rows[n]) then [rows[n]] else []);
    }
  }

  lemma KeepSameBag(p: Row -> bool, s: seq<Row>, t: seq<Row>)
    requires multiset(s) == multiset(t)
    ensures multiset(Keep(p, s)) == multiset(Keep(p, t))
  {
    KeepPermuted(p, s);
    KeepPermuted(p, t);
  }

  /** The balance at the end of a window is the sum of everything up to its last date. */
  lemma ClosingIsPrefix(rows: seq<Row>, normalDebit: bool, from: Option<int>, to: int)
    requires from.Some? ==> from.value <= to + 1
    ensures StatementOf(rows, normalDebit, from, Some(to)).closing == Opening(rows, normalDebit, Some(to + 1))
  {
    KeepSameBag(InWindow(from, Some(to)), Sorted(rows), rows);
    SumPermuted(Signed(normalDebit), Keep(InWindow(from, Some(to)), Sorted(rows)), Keep(InWindow(from, Some(to)), rows));
    SumOfParts(rows, Signed(normalDebit), Earlier(from), InWindow(from, Some(to)), Earlier(Some(to + 1)));
  }

  /** Statements of adjacent windows chain: the first closes where the second opens, and their
      lines with running balances concatenate to those of the joined window. */
  lemma StatementsChain(rows: seq<Row>, normalDebit: bool, from: Option<int>, mid: int, to: Option<int>)
    requires (from.Some? ==> from.value <= mid + 1) && (to.Some? ==> mid <= to.value)
    ensures var first, second, joined := StatementOf(rows, normalDebit, from, Some(mid)), StatementOf(rows, normalDebit, Some(mid + 1), to),
                                         StatementOf(rows, normalDebit, from, to);
      && first.closing == second.opening
      && joined.opening == first.opening && joined.closing == second.closing
      && joined.lines == first.lines + second.lines
      && joined.totalDebit == first.totalDebit + second.totalDebit && joined.totalCredit == first.totalCredit + second.totalCredit
  {
    var a, b := Keep(InWindow(from, Some(mid)), Sorted(rows)), Keep(InWindow(Some(mid + 1), to), Sorted(rows));
    hide Sorted, Keep, Sum, Running, Opening, Ordered;
    ClosingIsPrefix(rows, normalDebit, from, mid);
    WindowSplits(Sorted(rows), from, mid, to);
    RunningCat(a, b, normalDebit, Opening(rows, normalDebit, from));
    SumCat(Signed(normalDebit), a, b);
    SumCat(RowDebit(), a, b);
    SumCat(RowCredit(), a, b);
  }

  // ----- agreement with the balance sheet -----

  /** A figure of rows that is a figure of their lines. */
  ghost predicate SameFigure(account: AccountId, f: Row -> int, g: Line -> int) {
    && (forall at: nat, d: int, i: nat, l: Line :: l.account == account ==> f(Row(d, at, i, l.debit, l.credit)) == g(l))
    && forall l: Line :: l.account != account ==> g(l) == 0
  }

  lemma FigureOf(account: AccountId, f: Row -> int, g: Line -> int, d: int, at: nat, i: nat, l: Line)
    requires SameFigure(account, f, g)
    ensures if l.account == account then f(Row(d, at, i, l.debit, l.credit)) == g(l) else g(l) == 0
  {
  }

  /** Summing a figure of the rows that `p` picks by date is summing it over the lines. */
  lemma {:induction false} LineRowsSum(e: Entry, at: nat, account: AccountId, n: nat, f: Row -> int, g: Line -> int, p: Row -> bool, on: bool)
    requires n <= |e.lines| && SameFigure(account, f, g)
    requires forall r: Row :: r.date == e.date ==> p(r) == on
    ensures Sum(f, Keep(p, LineRows(e, at, account, n))) == if on then Sum(g, e.lines[..n]) else 0
  {
    if n > 0 {
      hide SameFigure, LineRows, Keep, Sum;
      var front, l := LineRows(e, at, account, n - 1), e.lines[n - 1];
      LineRowsSum(e, at, account, n - 1, f, g, p, on);
      LineRowsStep(e, at, account, n);
      assert e.lines[..n] == e.lines[..n - 1] + [l];
      SumSnoc(g, e.lines[..n - 1], l);
      FigureOf(account, f, g, e.date, at, n - 1, l);
      KeptSum(f, p, front, Row(e.date, at, n - 1, l.debit, l.credit));
    }
  }

  lemma LineRowsStep(e: Entry, at: nat, account: AccountId, n: nat)
    requires 0 < n <= |e.lines|
    ensures var front, l := LineRows(e, at, account, n - 1), e.lines[n - 1];
      LineRows(e, at, account, n) == if l.account == account then front + [Row(e.date, at, n - 1, l.debit, l.credit)] else front
  {
  }

  lemma KeptSum(f: Row -> int, p: Row -> bool, rows: seq<Row>, r: Row)
    ensures Sum(f, Keep(p, rows + [r])) == Sum(f, Keep(p, rows)) + if p(r) then f(r) else 0
  {
    KeepSnoc(p, rows, r);
    SumSnoc(f, Keep(p, rows), r);
    assert Keep(p, rows) + [] == Keep(p, rows);
  }

  lemma {:induction false} RowsSum(entries: seq<Entry>, account: AccountId, f: Row -> int, g: Line -> int, p: Row -> bool, on: Entry -> bool, h: Entry -> int)
    requires SameFigure(account, f, g)
    requires forall e: Entry, r: Row :: r.date == e.date ==> p(r) == on(e)
    requires forall e: Entry :: h(e) == if !e.isVoid && on(e) then Sum(g, e.lines) else 0
    ensures Sum(f, Keep(p, Rows(entries, account))) == Sum(h, entries)
  {
    hide SameFigure;
    if |entries| > 0 {
      var n := |entries| - 1;
      var e := entries[n];
      RowsSum(entries[..n], account, f, g, p, on, h);
      var more := if e.isVoid then [] else LineRows(e, n, account, |e.lines|);
      KeepCat(p, Rows(entries[..n], account), more);
      SumCat(f, Keep(p, Rows(entries[..n], account)), Keep(p, more));
      if !e.isVoid {
        LineRowsSum(e, n, account, |e.lines|, f, g, p, on(e));
        assert e.lines[..|e.lines|] == e.lines;
      }
    }
  }

  lemma RowsNet(entries: seq<Entry>, account: AccountId, to: int)
    ensures Sum(Signed(true), Keep(Earlier(Some(to + 1)), Rows(entries, account))) == Sum(NetAsOfEntry(account, to), entries)
  {
    RowsSum(entries, account, Signed(true), NetOn(account), Earlier(Some(to + 1)), (e: Entry) => e.date <= to, NetAsOfEntry(account, to));
  }

  lemma {:induction false} SumNegated(rows: seq<Row>)
    ensures Sum(Signed(false), rows) == -Sum(Signed(true), rows)
  {
    if |rows| > 0 {
      SumNegated(rows[..|rows| - 1]);
    }
  }

  /** A statement from the beginning closes at the account's own amount on the balance sheet. */
  lemma ClosesAtSheetAmount(db: Db, i: nat, to: int)
    requires i < |db.accounts|
    ensures StatementOf(Rows(db.entries, db.accounts[i].id), db.accounts[i].normalDebit, None, Some(to)).closing == OwnAmount(db, to, i)
  {
    var rows := Rows(db.entries, db.accounts[i].id);
    ClosingIsPrefix(rows, db.accounts[i].normalDebit, None, to);
    RowsNet(db.entries, db.accounts[i].id, to);
    SumNegated(Keep(Earlier(Some(to + 1)), rows));
  }

  // ----- the statement against the journal -----

  predicate Within(e: Entry, from: Option<int>, to: Option<int>) {
    !e.isVoid && (from.Some? ==> from.value <= e.date) && (to.Some? ==> e.date <= to.value)
  }

  function DebitOn(account: AccountId): Line -> int { (l: Line) => if l.account == account then l.debit else 0 }

  function CreditOn(account: AccountId): Line -> int { (l: Line) => if l.account == account then l.credit else 0 }

  /** Debits on the account in the live entries of the window, credits, and the net before it. */
  function DebitsIn(account: AccountId, from: Option<int>, to: Option<int>): Entry -> int {
    (e: Entry) => if Within(e, from, to) then Sum(DebitOn(account), e.lines) else 0
  }

  function CreditsIn(account: AccountId, from: Option<int>, to: Option<int>): Entry -> int {
    (e: Entry) => if Within(e, from, to) then Sum(CreditOn(account), e.lines) else 0
  }

  function NetBefore(account: AccountId, from: Option<int>): Entry -> int {
    (e: Entry) => if !e.isVoid && from.Some? && e.date < from.value then Sum(DebitOn(account), e.lines) - Sum(CreditOn(account), e.lines) else 0
  }

  function Sided(normalDebit: bool, debits: Cents, credits: Cents): Cents { if normalDebit then debits - credits else credits - debits }

  lemma {:induction false} SignedSums(rows: seq<Row>, normalDebit: bool)
    ensures Sum(Signed(normalDebit), rows) == Sided(normalDebit, Sum(RowDebit(), rows), Sum(RowCredit(), rows))
  {
    if |rows| > 0 {
      SignedSums(rows[..|rows| - 1], normalDebit);
    }
  }

  lemma SidedLines(account: AccountId, lines: seq<Line>)
    ensures Sum(NetOn(account), lines) == Sum(DebitOn(account), lines) - Sum(CreditOn(account), lines)
  {
    if |lines| > 0 {
      SidedLines(account, lines[..|lines| - 1]);
    }
  }

  lemma WindowTotals(entries: seq<Entry>, account: AccountId, from: Option<int>, to: Option<int>)
    ensures var window := Keep(InWindow(from, to), Sorted(Rows(entries, account)));
      && Sum(RowDebit(), window) == Sum(DebitsIn(account, from, to), entries)
      && Sum(RowCredit(), window) == Sum(CreditsIn(account, from, to), entries)
  {
    var rows, p, on := Rows(entries, account), InWindow(from, to),
                       (e: Entry) => (from.Some? ==> from.value <= e.date) && (to.Some? ==> e.date <= to.value);
    KeepSameBag(p, Sorted(rows), rows);
    SumPermuted(RowDebit(), Keep(p, Sorted(rows)), Keep(p, rows));
    SumPermuted(RowCredit(), Keep(p, Sorted(rows)), Keep(p, rows));
    hide Rows, Sorted, Keep, Sum;
    RowsSum(entries, account, RowDebit(), DebitOn(account), p, on, DebitsIn(account, from, to));
    RowsSum(entries, account, RowCredit(), CreditOn(account), p, on, CreditsIn(account, from, to));
  }

  lemma OpeningTotals(entries: seq<Entry>, account: AccountId, normalDebit: bool, from: Option<int>)
    ensures Opening(Rows(entries, account), normalDebit, from)
         == if normalDebit then Sum(NetBefore(account, from), entries) else -Sum(NetBefore(account, from), entries)
  {
    var rows, p, on := Rows(entries, account), Earlier(from), (e: Entry) => from.Some? && e.date < from.value;
    forall e: Entry ensures NetBefore(account, from)(e) == if !e.isVoid && on(e) then Sum(NetOn(account), e.lines) else 0 {
      SidedLines(account, e.lines);
    }
    hide Rows, Keep, Sum, NetBefore;
    RowsSum(entries, account, Signed(true), NetOn(account), p, on, NetBefore(account, from));
    SumNegated(Keep(p, rows));
  }

  /** The row of a line, as it stands in the journal. */
  ghost predicate IsRow(entries: seq<Entry>, account: AccountId, r: Row) {
    && r.entry < |entries| && !entries[r.entry].isVoid && r.line < |entries[r.entry].lines|
    && var l := entries[r.entry].lines[r.line];
       l.account == account && r == Row(entries[r.entry].date, r.entry, r.line, l.debit, l.credit)
  }

  ghost predicate Shows(entries: seq<Entry>, account: AccountId, from: Option<int>, to: Option<int>, r: Row) {
    IsRow(entries, account, r) && Within(entries[r.entry], from, to)
  }

  predicate Before(a: Row, b: Row) {
    a.date < b.date || (a.date == b.date && (a.entry < b.entry || (a.entry == b.entry && a.line < b.line)))
  }

  ghost predicate Different(rows: seq<Row>) { forall i, j :: 0 <= i < j < |rows| ==> rows[i] != rows[j] }

  lemma DifferentJoin(a: seq<Row>, b: seq<Row>)
    requires Different(a) && Different(b) && forall r :: !(r in a && r in b)
    ensures Different(a + b)
  {
    forall i, j | 0 <= i < j < |a + b| ensures (a + b)[i] != (a + b)[j] {
      if i < |a| <= j {
        assert a[i] in a && b[j - |a|] in b;
      }
    }
  }

  ghost predicate IsLineRow(e: Entry, at: nat, account: AccountId, n: nat, r: Row)
    requires n <= |e.lines|
  {
    r.line < n && e.lines[r.line].account == account && r == Row(e.date, at, r.line, e.lines[r.line].debit, e.lines[r.line].credit)
  }

  lemma {:induction false} LineRowsAre(e: Entry, at: nat, account: AccountId, n: nat)
    requires n <= |e.lines|
    ensures forall r :: r in LineRows(e, at, account, n) <==> IsLineRow(e, at, account, n, r)
    ensures Different(LineRows(e, at, account, n))
  {
    if n > 0 {
      LineRowsAre(e, at, account, n - 1);
      var front := LineRows(e, at, account, n - 1);
      if e.lines[n - 1].account == account {
        DifferentJoin(front, [Row(e.date, at, n - 1, e.lines[n - 1].debit, e.lines[n - 1].credit)]);
      }
    }
  }

  lemma {:induction false} RowsAre(entries: seq<Entry>, account: AccountId)
    ensures forall r :: r in Rows(entries, account) <==> IsRow(entries, account, r)
    ensures Different(Rows(entries, account))
  {
    if |entries| > 0 {
      var n := |entries| - 1;
      var e, front := entries[n], Rows(entries[..n], account);
      RowsAre(entries[..n], account);
      LineRowsAre(e, n, account, |e.lines|);
      var more := if e.isVoid then [] else LineRows(e, n, account, |e.lines|);
      assert Rows(entries, account) == front + more;
      hide Rows, LineRows, Different;
      forall r ensures r in front <==> r.entry < n && IsRow(entries, account, r) {}
      forall r ensures r in more <==> r.entry == n && IsRow(entries, account, r) {}
      hide IsRow, IsLineRow;
      NoneDiffer();
      DifferentJoin(front, more);
    }
  }

  lemma NoneDiffer()
    ensures Different([])
  {
  }

  lemma SortedAre(entries: seq<Entry>, account: AccountId)
    ensures forall r :: r in Sorted(Rows(entries, account)) <==> IsRow(entries, account, r)
    ensures InOrder(Sorted(Rows(entries, account)))
  {
    var rows, sorted := Rows(entries, account), Sorted(Rows(entries, account));
    RowsAre(entries, account);
    assert multiset(sorted) == multiset(rows) && Ordered(sorted);
    hide Rows, IsRow, Sorted, Ordered, Different;
    forall r ensures r in sorted <==> r in rows {
      assert r in multiset(sorted) <==> r in multiset(rows);
    }
    DifferentBag(rows, sorted);
    forall i, j | 0 <= i < j < |sorted| ensures Before(sorted[i], sorted[j]) {
      OrderedAt(sorted, i, j);
      DifferentAt(sorted, i, j);
      assert sorted[i] in sorted && sorted[j] in sorted;
      if !Before(sorted[i], sorted[j]) {
        SameKeySameRow(entries, account, sorted[i], sorted[j]);
      }
    }
  }

  ghost predicate InOrder(rows: seq<Row>) { forall i, j :: 0 <= i < j < |rows| ==> Before(rows[i], rows[j]) }

  lemma OrderedAt(rows: seq<Row>, i: nat, j: nat)
    requires Ordered(rows) && i < j < |rows|
    ensures Precedes(rows[i], rows[j])
  {
  }

  lemma DifferentAt(rows: seq<Row>, i: nat, j: nat)
    requires Different(rows) && i < j < |rows|
    ensures rows[i] != rows[j]
  {
  }

  lemma SameKeySameRow(entries: seq<Entry>, account: AccountId, a: Row, b: Row)
    requires IsRow(entries, account, a) && IsRow(entries, account, b) && a.entry == b.entry && a.line == b.line
    ensures a == b
  {
  }

  lemma {:induction false} BagAtMostOnce(rows: seq<Row>, r: Row)
    requires Different(rows)
    ensures multiset(rows)[r] <= 1
  {
    if |rows| > 0 {
      var n := |rows| - 1;
      assert rows == rows[..n] + [rows[n]];
      BagAtMostOnce(rows[..n], r);
    }
  }

  lemma DifferentBag(rows: seq<Row>, sorted: seq<Row>)
    requires multiset(rows) == multiset(sorted) && Different(rows)
    ensures Different(sorted)
  {
    forall i, j | 0 <= i < j < |sorted| ensures sorted[i] != sorted[j] {
      BagAtMostOnce(rows, sorted[i]);
      assert sorted == sorted[..j] + [sorted[j]] + sorted[j + 1..];
      assert sorted[..j][i] in multiset(sorted[..j]);
    }
  }

  lemma {:induction false} KeepOrdered(p: Row -> bool, rows: seq<Row>)
    requires InOrder(rows)
    ensures InOrder(Keep(p, rows)) && forall r :: r in Keep(p, rows) <==> r in rows && p(r)
  {
    if |rows| > 0 {
      var n := |rows| - 1;
      var front := Keep(p, rows[..n]);
      KeepOrdered(p, rows[..n]);
      assert rows == rows[..n] + [rows[n]];
      forall i | 0 <= i < |front| ensures Before(front[i], rows[n]) {
        assert front[i] in front && front[i] in rows[..n];
      }
    }
  }

  lemma RunningLast(rows: seq<Row>, normalDebit: bool, opening: Cents)
    requires |rows| > 0
    ensures Running(rows, normalDebit, opening)[|rows| - 1] == (rows[|rows| - 1], opening + Sum(Signed(normalDebit), rows))
  {
  }

  /** A row with the balance after it, from the balance before it. */
  ghost predicate StepAt(rows: seq<Row>, normalDebit: bool, opening: Cents, lines: seq<(Row, Cents)>, i: nat)
    requires i < |rows| == |lines|
  {
    && lines[i].0 == rows[i]
    && lines[i].1 == (if i == 0 then opening else lines[i - 1].1) + Sided(normalDebit, rows[i].debit, rows[i].credit)
  }

  ghost predicate Steps(rows: seq<Row>, normalDebit: bool, opening: Cents, lines: seq<(Row, Cents)>) {
    |lines| == |rows| && forall i :: 0 <= i < |rows| ==> StepAt(rows, normalDebit, opening, lines, i)
  }

  lemma {:induction false} RunningSteps(rows: seq<Row>, normalDebit: bool, opening: Cents)
    ensures Steps(rows, normalDebit, opening, Running(rows, normalDebit, opening))
  {
    if |rows| > 0 {
      var n := |rows| - 1;
      var lines, front := Running(rows, normalDebit, opening), Running(rows[..n], normalDebit, opening);
      RunningSteps(rows[..n], normalDebit, opening);
      RunningLast(rows, normalDebit, opening);
      if n > 0 {
        RunningLast(rows[..n], normalDebit, opening);
      }
      forall i | 0 <= i < |rows| ensures StepAt(rows, normalDebit, opening, lines, i) {
        assert i > 0 ==> lines[i - 1] == front[i - 1];
        if i < n {
          assert StepAt(rows[..n], normalDebit, opening, front, i);
          assert lines[i] == front[i] && rows[i] == rows[..n][i];
        } else {
          assert Sum(Signed(normalDebit), rows) == Sum(Signed(normalDebit), rows[..n]) + Signed(normalDebit)(rows[n]);
          assert i == 0 ==> rows[..n] == [];
        }
      }
    }
  }

  /** The figures of a statement against the journal: it opens with the net of the live entries
      before the window, totals their debits and their credits in it, and closes with what those
      add to the opening on the account's own side. */
  ghost predicate Totals(db: Db, account: AccountId, normalDebit: bool, from: Option<int>, to: Option<int>, s: Statement) {
    && s.opening == (if normalDebit then Sum(NetBefore(account, from), db.entries) else -Sum(NetBefore(account, from), db.entries))
    && s.totalDebit == Sum(DebitsIn(account, from, to), db.entries) && s.totalCredit == Sum(CreditsIn(account, from, to), db.entries)
    && s.closing == s.opening + (if normalDebit then s.totalDebit - s.totalCredit else s.totalCredit - s.totalDebit)
  }

  /** Line `i` carries the balance of the line before, or the opening, and its own amount. */
  ghost predicate CarriesOn(s: Statement, normalDebit: bool, i: nat)
    requires i < |s.lines|
  {
    var (r, balance) := s.lines[i];
    balance == (if i == 0 then s.opening else s.lines[i - 1].1) + if normalDebit then r.debit - r.credit else r.credit - r.debit
  }

  ghost predicate LinesInOrder(s: Statement) { forall i, j :: 0 <= i < j < |s.lines| ==> Before(s.lines[i].0, s.lines[j].0) }

  ghost predicate Lists(s: Statement, r: Row) { exists i :: 0 <= i < |s.lines| && s.lines[i].0 == r }

  /** Its lines: each line of the account in the live entries of the window once, by date, entry
      and line, with the balance of the row before and its own amount. */
  ghost predicate Listing(db: Db, account: AccountId, normalDebit: bool, from: Option<int>, to: Option<int>, s: Statement) {
    && (forall r :: Lists(s, r) <==> Shows(db.entries, account, from, to, r))
    && LinesInOrder(s) && forall i :: 0 <= i < |s.lines| ==> CarriesOn(s, normalDebit, i)
  }

  lemma StatementTotals(db: Db, account: AccountId, normalDebit: bool, from: Option<int>, to: Option<int>)
    ensures Totals(db, account, normalDebit, from, to, StatementOf(Rows(db.entries, account), normalDebit, from, to))
  {
    hide Rows, Sorted, Keep, Running, Opening, Sum, NetBefore, DebitsIn, CreditsIn, InWindow;
    OpeningTotals(db.entries, account, normalDebit, from);
    WindowTotals(db.entries, account, from, to);
    SignedSums(Keep(InWindow(from, to), Sorted(Rows(db.entries, account))), normalDebit);
  }

  lemma StatementLists(db: Db, account: AccountId, normalDebit: bool, from: Option<int>, to: Option<int>)
    ensures Listing(db, account, normalDebit, from, to, StatementOf(Rows(db.entries, account), normalDebit, from, to))
  {
    var s, window := StatementOf(Rows(db.entries, account), normalDebit, from, to), Keep(InWindow(from, to), Sorted(Rows(db.entries, account)));
    assert s.lines == Running(window, normalDebit, s.opening);
    hide Rows, Sorted, Keep, Running, Opening, Sum, InOrder, StatementOf, InWindow, Shows, Listing, Ordered;
    WindowIs(db.entries, account, from, to);
    WindowLists(db, account, normalDebit, from, to, window, s);
  }

  lemma WindowLists(db: Db, account: AccountId, normalDebit: bool, from: Option<int>, to: Option<int>, window: seq<Row>, s: Statement)
    requires s.lines == Running(window, normalDebit, s.opening) && InOrder(window)
    requires forall r :: r in window <==> Shows(db.entries, account, from, to, r)
    ensures Listing(db, account, normalDebit, from, to, s)
  {
    hide Running, InOrder, Steps, Shows, Lists, CarriesOn, LinesInOrder;
    RunningSteps(window, normalDebit, s.opening);
    ShownInOrder(window, normalDebit, s);
  }

  lemma WindowIs(entries: seq<Entry>, account: AccountId, from: Option<int>, to: Option<int>)
    ensures var window := Keep(InWindow(from, to), Sorted(Rows(entries, account)));
      && InOrder(window)
      && forall r :: r in window <==> Shows(entries, account, from, to, r)
  {
    var sorted := Sorted(Rows(entries, account));
    hide Rows, Sorted, Keep, InOrder, IsRow, Shows;
    SortedAre(entries, account);
    KeepOrdered(InWindow(from, to), sorted);
    forall r ensures r in Keep(InWindow(from, to), sorted) <==> Shows(entries, account, from, to, r) {
      RowIsDated(entries, account, from, to, r);
    }
  }

  lemma ShownInOrder(window: seq<Row>, normalDebit: bool, s: Statement)
    requires InOrder(window) && Steps(window, normalDebit, s.opening, s.lines)
    ensures forall r :: r in window <==> Lists(s, r)
    ensures LinesInOrder(s) && forall i :: 0 <= i < |s.lines| ==> CarriesOn(s, normalDebit, i)
  {
    hide Before;
    forall i | 0 <= i < |s.lines| ensures s.lines[i].0 == window[i] && CarriesOn(s, normalDebit, i) {
      assert StepAt(window, normalDebit, s.opening, s.lines, i);
    }
    hide StepAt, CarriesOn;
    forall r ensures r in window <==> Lists(s, r) {
      if r in window {
        var i :| 0 <= i < |window| && window[i] == r;
        assert s.lines[i].0 == r;
      }
    }
  }

  lemma RowIsDated(entries: seq<Entry>, account: AccountId, from: Option<int>, to: Option<int>, r: Row)
    ensures Shows(entries, account, from, to, r) <==> IsRow(entries, account, r) && InWindow(from, to)(r)
  {
  }

  /** `accountLedger`. */
  method MakeStatement(db: Db, account: AccountId, normalDebit: bool, from: Option<int>, to: Option<int>) returns (s: Statement)
    ensures s == StatementOf(Rows(db.entries, account), normalDebit, from, to)
    ensures Totals(db, account, normalDebit, from, to, s) && Listing(db, account, normalDebit, from, to, s)
  {
    var rows := Rows(db.entries, account);
    var opening := if from.Some? then Opening(rows, normalDebit, from) else 0;
    NothingEarlier(rows);
    StatementTotals(db, account, normalDebit, from, to);
    StatementLists(db, account, normalDebit, from, to);
    hide Totals, Listing, Rows, Sorted;
    var lines, bal, totalDebit, totalCredit := Walk(Keep(InWindow(from, to), Sorted(rows)), normalDebit, opening);
    return Statement(opening, lines, bal, totalDebit, totalCredit);
  }
}
