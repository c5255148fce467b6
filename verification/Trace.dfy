/**
 The movement trace of one source document: its cash flags and its cash summary, and what
 they say about states the engine produces.
 */
module Trace {
  import opened Sums
  import opened Ledger
  import opened Alignment
  import opened Engine
  import opened Runs
  import opened Recipes
  import opened Reversal
  import opened References

  datatype CashFlag =
    | GlCashNoPairedCt(line: Line)
    | CtNoPairedGl(row: CashTxn)

  datatype CashSummary = CashSummary(matched: Option<bool>, journalCash: Cents, cashboxSigned: Cents)

  // ----- what the trace reads -----

  function IsSource(refType: string, refId: RefId): Entry -> bool {
    (e: Entry) => e.refType == refType && e.refId == refId
  }

  /** The entries of the source, live or void. */
  function JournalOf(entries: seq<Entry>, refType: string, refId: RefId): seq<Entry> {
    Keep(IsSource(refType, refId), entries)
  }

  function Lines(entries: seq<Entry>): seq<Line> {
    if |entries| == 0 then [] else Lines(entries[..|entries| - 1]) + entries[|entries| - 1].lines
  }

  /** Liquid lines that carry a cashbox. */
  function IsCashLine(accounts: seq<Account>): Line -> bool {
    (l: Line) => l.cashbox.Some? && l.cashbox.value != "" && IsLiquid(CodeOf(accounts, l.account))
  }

  function CashLines(accounts: seq<Account>, lines: seq<Line>): seq<Line> { Keep(IsCashLine(accounts), lines) }

  function IsTraced(refType: string, refId: RefId): CashTxn -> bool {
    (t: CashTxn) => t.refId == refId && (t.entity == refType || t.category == refType)
  }

  /** Cash rows found by tag, or by document and category. */
  function TracedRows(cash: seq<CashTxn>, refType: string, refId: RefId): seq<CashTxn> {
    Keep(IsTraced(refType, refId), cash)
  }

  predicate PairsWith(l: Line, t: CashTxn) {
    l.cashbox == Some(t.cashbox) && Signed(t.direction, t.amount) == l.debit - l.credit
  }

  // ----- the flags -----

  ghost predicate InJournal(entries: seq<Entry>, l: Line) { exists e :: e in entries && l in e.lines }

  /** A line of some entry on 1111, 1113, 1114 or 1115 that names a cashbox. */
  ghost predicate CashLineOf(accounts: seq<Account>, entries: seq<Entry>, l: Line) {
    && InJournal(entries, l) && l.cashbox.Some? && l.cashbox.value != ""
    && CodeOf(accounts, l.account) in ["1111", "1113", "1114", "1115"]
  }

  /** A line and a row of one cashbox and one signed amount. */
  ghost predicate Mates(l: Line, t: CashTxn) {
    l.cashbox == Some(t.cashbox) && l.debit - l.credit == if t.direction == In then t.amount else -t.amount
  }

  lemma {:induction false} LinesAre(entries: seq<Entry>, l: Line)
    ensures l in Lines(entries) <==> InJournal(entries, l)
  {
    if |entries| > 0 {
      var n := |entries| - 1;
      LinesAre(entries[..n], l);
      assert entries == entries[..n] + [entries[n]];
      assert entries[n] in entries;
    }
  }

  lemma {:induction false} KeptAre<T>(p: T -> bool, s: seq<T>, x: T)
    ensures x in Keep(p, s) <==> x in s && p(x)
  {
    if |s| > 0 {
      var n := |s| - 1;
      KeptAre(p, s[..n], x);
      assert s == s[..n] + [s[n]];
    }
  }

  lemma CashLinesAre(accounts: seq<Account>, entries: seq<Entry>)
    ensures forall l :: l in CashLines(accounts, Lines(entries)) <==> CashLineOf(accounts, entries, l)
  {
    forall l ensures l in CashLines(accounts, Lines(entries)) <==> CashLineOf(accounts, entries, l) {
      KeptAre(IsCashLine(accounts), Lines(entries), l);
      LinesAre(entries, l);
    }
  }

  /** Steps 3 and 4 of `computeFlags`: nested searches over lines and rows. */
  method ComputeCashFlags(accounts: seq<Account>, entries: seq<Entry>, rows: seq<CashTxn>) returns (flags: seq<CashFlag>)
    ensures forall l :: GlCashNoPairedCt(l) in flags <==> CashLineOf(accounts, entries, l) && forall t :: t in rows ==> !Mates(l, t)
    ensures forall t :: CtNoPairedGl(t) in flags <==> t in rows && entries != [] && forall l :: InJournal(entries, l) ==> !Mates(l, t)
  {
    var lines := Lines(entries);
    var cash := CashLines(accounts, lines);
    hide CashLineOf, Mates, PairsWith, InJournal, Lines, CashLines;
    flags := [];
    for i := 0 to |cash|
      invariant forall l :: GlCashNoPairedCt(l) in flags <==> l in cash[..i] && forall t :: t in rows ==> !Mates(l, t)
      invariant forall t :: CtNoPairedGl(t) !in flags
    {
      var found := false;
      for k := 0 to |rows|
        invariant found <==> exists t :: t in rows[..k] && Mates(cash[i], t)
      {
        assert rows[..k + 1] == rows[..k] + [rows[k]];
        MatesIff(cash[i], rows[k]);
        if PairsWith(cash[i], rows[k]) {
          found := true;
        }
      }
      assert rows[..|rows|] == rows && cash[..i + 1] == cash[..i] + [cash[i]];
      if !found {
        flags := flags + [GlCashNoPairedCt(cash[i])];
      }
    }
    assert cash[..|cash|] == cash;
    ghost var glFlags := flags;
    for i := 0 to |rows|
      invariant forall l :: GlCashNoPairedCt(l) in flags <==> GlCashNoPairedCt(l) in glFlags
      invariant forall t :: CtNoPairedGl(t) in flags <==>
        t in rows[..i] && |entries| > 0 && forall l :: l in lines ==> !Mates(l, t)
    {
      var found := false;
      for k := 0 to |lines|
        invariant found <==> exists l :: l in lines[..k] && Mates(l, rows[i])
      {
        assert lines[..k + 1] == lines[..k] + [lines[k]];
        MatesIff(lines[k], rows[i]);
        if PairsWith(lines[k], rows[i]) {
          found := true;
        }
      }
      assert lines[..|lines|] == lines && rows[..i + 1] == rows[..i] + [rows[i]];
      if !found && |entries| > 0 {
        flags := flags + [CtNoPairedGl(rows[i])];
      }
    }
    assert rows[..|rows|] == rows;
    CashLinesAre(accounts, entries);
    forall l ensures l in lines <==> InJournal(entries, l) {
      LinesAre(entries, l);
    }
  }

  lemma MatesIff(l: Line, t: CashTxn)
    ensures PairsWith(l, t) <==> Mates(l, t)
  {
  }

  function LineNet(): Line -> int { (l: Line) => l.debit - l.credit }

  function RowNet(): CashTxn -> int { (t: CashTxn) => Signed(t.direction, t.amount) }

  /** The cash part of `computeSummary`; only the lines are checked for a partner. */
  function Summarize(accounts: seq<Account>, entries: seq<Entry>, rows: seq<CashTxn>): CashSummary {
    var cash := CashLines(accounts, Lines(entries));
    CashSummary(
      if |cash| == 0 && |rows| == 0 then None
      else Some(forall i :: 0 <= i < |cash| ==> exists k :: 0 <= k < |rows| && PairsWith(cash[i], rows[k])),
      Sum(LineNet(), cash), Sum(RowNet(), rows))
  }

  // ----- the engine's output -----

  lemma {:induction false} TaggedLines(accounts: seq<Account>, lines: seq<Line>)
    requires forall l :: l in LiquidLines(accounts, lines) ==> IsTagged(l)
    ensures CashLines(accounts, lines) == LiquidLines(accounts, lines)
  {
    if |lines| > 0 {
      var n := |lines| - 1;
      assert forall l :: l in LiquidLines(accounts, lines[..n]) ==> l in LiquidLines(accounts, lines);
      TaggedLines(accounts, lines[..n]);
      if OnLiquid(accounts)(lines[n]) {
        assert lines[n] in LiquidLines(accounts, lines);
      }
    }
  }

  /** An entry whose cash carries the source's tag although its type is another. */
  predicate Alien(e: Entry, refType: string, refId: RefId) { TagsAs(e, refType, refId) && e.refType != refType }

  /** The legs of such entries, whose rows the trace finds without finding the entries. */
  function AlienPairs(accounts: seq<Account>, entries: seq<Entry>, refType: string, refId: RefId): seq<Pair> {
    if |entries| == 0 then []
    else
      var n := |entries| - 1;
      AlienPairs(accounts, entries[..n], refType, refId)
      + if Alien(entries[n], refType, refId) then EntryPairs(accounts, entries[n]) else []
  }

  /** A row of another tag that the category alone brings in. */
  function IsStray(refType: string, refId: RefId): CashTxn -> bool {
    (t: CashTxn) => t.refId == refId && t.entity != refType && t.category == refType
  }

  function StrayPairs(cash: seq<CashTxn>, refType: string, refId: RefId): seq<Pair> {
    Image(RowPair, Keep(IsStray(refType, refId), cash))
  }

  /** What the traced rows hold beyond the legs of the source's own entries. */
  function Extra(db: Db, refType: string, refId: RefId): seq<Pair> {
    AlienPairs(db.accounts, db.entries, refType, refId) + StrayPairs(db.cash, refType, refId)
  }

  function SourceNeeds(accounts: seq<Account>, entries: seq<Entry>, refType: string, refId: RefId): seq<Pair> {
    Needs(CashLines(accounts, Lines(JournalOf(entries, refType, refId))))
  }

  lemma NoCashLines(accounts: seq<Account>)
    ensures Needs(CashLines(accounts, [])) == []
  {
  }

  lemma NoSource(accounts: seq<Account>, refType: string, refId: RefId)
    ensures SourceNeeds(accounts, [], refType, refId) == []
  {
    NoCashLines(accounts);
  }

  lemma SourceLines(accounts: seq<Account>, front: seq<Line>, e: Entry)
    requires LegsTagged(accounts, e)
    ensures Needs(CashLines(accounts, front + e.lines)) == Needs(CashLines(accounts, front)) + EntryPairs(accounts, e)
  {
    KeepCat(IsCashLine(accounts), front, e.lines);
    TaggedLines(accounts, e.lines);
  }

  function When(on: bool, accounts: seq<Account>, e: Entry): multiset<Pair> {
    if on then multiset(EntryPairs(accounts, e)) else multiset{}
  }

  /** One more entry adds its legs to the source, if it is the source's own. */
  lemma SourceSnoc(accounts: seq<Account>, entries: seq<Entry>, refType: string, refId: RefId)
    requires |entries| > 0 && LegsTagged(accounts, entries[|entries| - 1])
    ensures var n := |entries| - 1;
      multiset(SourceNeeds(accounts, entries, refType, refId))
      == multiset(SourceNeeds(accounts, entries[..n], refType, refId)) + When(IsSource(refType, refId)(entries[n]), accounts, entries[n])
  {
    hide LiquidLines, CashLines, LegsTagged;
    var n := |entries| - 1;
    var front := JournalOf(entries[..n], refType, refId);
    if IsSource(refType, refId)(entries[n]) {
      assert JournalOf(entries, refType, refId)[..|front|] == front;
      SourceLines(accounts, Lines(front), entries[n]);
    } else {
      assert JournalOf(entries, refType, refId) == front;
    }
  }

  lemma AlienSnoc(accounts: seq<Account>, entries: seq<Entry>, refType: string, refId: RefId)
    requires |entries| > 0
    ensures var n := |entries| - 1;
      multiset(AlienPairs(accounts, entries, refType, refId))
      == multiset(AlienPairs(accounts, entries[..n], refType, refId)) + When(Alien(entries[n], refType, refId), accounts, entries[n])
  {
  }

  /** Under a tag of its own name an entry is the source's or an alien one. */
  lemma OwnOrAlien(accounts: seq<Account>, e: Entry, refType: string, refId: RefId)
    requires MapToEntityType(refType) == refType
    ensures OwnPairs(accounts, e, refType, refId)
         == When(IsSource(refType, refId)(e), accounts, e) + When(Alien(e, refType, refId), accounts, e)
  {
    hide MapToEntityType, EntryPairs;
  }

  lemma BagsAdd(a: multiset<Pair>, b: multiset<Pair>, x: multiset<Pair>, y: multiset<Pair>)
    ensures (a + b) + (x + y) == (a + x) + (b + y)
  {
  }

  /** The legs under a tag are those of the source's own entries and those of the others. */
  lemma {:induction false} LegsUnderTag(accounts: seq<Account>, entries: seq<Entry>, refType: string, refId: RefId)
    requires MapToEntityType(refType) == refType
    requires forall i :: 0 <= i < |entries| ==> LegsTagged(accounts, entries[i])
    ensures multiset(DocPairs(accounts, entries, refType, refId))
         == multiset(SourceNeeds(accounts, entries, refType, refId)) + multiset(AlienPairs(accounts, entries, refType, refId))
  {
    if |entries| > 0 {
      hide *;
      var n := |entries| - 1;
      var e := entries[n];
      LegsUnderTag(accounts, entries[..n], refType, refId);
      SourceSnoc(accounts, entries, refType, refId);
      AlienSnoc(accounts, entries, refType, refId);
      DocPairsSnoc(accounts, entries, refType, refId);
      OwnOrAlien(accounts, e, refType, refId);
      BagsAdd(multiset(SourceNeeds(accounts, entries[..n], refType, refId)), multiset(AlienPairs(accounts, entries[..n], refType, refId)),
              When(IsSource(refType, refId)(e), accounts, e), When(Alien(e, refType, refId), accounts, e));
    } else {
      NoSource(accounts, refType, refId);
    }
  }

  /** The traced rows are the tagged ones and the strays, as long as none is void. */
  lemma {:induction false} TracedSplit(cash: seq<CashTxn>, refType: string, refId: RefId)
    requires forall i :: 0 <= i < |cash| ==> !cash[i].isVoid
    ensures multiset(Image(RowPair, TracedRows(cash, refType, refId)))
         == multiset(Image(RowPair, Keep(TaggedWith(refType, refId), cash))) + multiset(StrayPairs(cash, refType, refId))
  {
    if |cash| > 0 {
      var n := |cash| - 1;
      TracedSplit(cash[..n], refType, refId);
      ImageKeepSnoc(IsTraced(refType, refId), cash);
      ImageKeepSnoc(TaggedWith(refType, refId), cash);
      ImageKeepSnoc(IsStray(refType, refId), cash);
    }
  }

  lemma ImageKeepSnoc(p: CashTxn -> bool, cash: seq<CashTxn>)
    requires |cash| > 0
    ensures var t := cash[|cash| - 1];
      Image(RowPair, Keep(p, cash)) == Image(RowPair, Keep(p, cash[..|cash| - 1])) + if p(t) then [RowPair(t)] else []
  {
  }

  // Rows are never void: the engine writes live ones and voids none.

  ghost predicate RowsLive(cash: seq<CashTxn>) { forall i :: 0 <= i < |cash| ==> !cash[i].isVoid }

  lemma {:induction false} PayAllLive(db: Db, moves: seq<Movement>, entity: string, refId: RefId, now: int)
    requires RowsLive(db.cash)
    ensures RowsLive(PayAll(db, moves, entity, refId, now).0.cash)
  {
    if |moves| > 0 {
      PayAllLive(db, moves[..|moves| - 1], entity, refId, now);
    }
  }

  lemma StepLive(db: Db, c: Call)
    requires RowsLive(db.cash)
    ensures RowsLive(Step(db, c).0.cash)
  {
    match c
    case RecordCall(s) =>
      hide Record, MapToEntityType;
      PayAllLive(db, s.movements, MapToEntityType(s.refType), s.refId, s.now);
      var _ := RecordCases(db, s);
    case CashOnlyCall(_, _, _, _) =>
  }

  lemma {:induction false} AttemptLive(db: Db, calls: seq<Call>)
    requires RowsLive(db.cash)
    ensures RowsLive(Attempt(db, calls).0.cash)
  {
    if |calls| > 0 {
      var n := |calls| - 1;
      AttemptLive(db, calls[..n]);
      StepLive(Attempt(db, calls[..n]).0, calls[n]);
    }
  }

  lemma {:induction false} RunLive(db: Db, work: seq<seq<Call>>)
    requires RowsLive(db.cash)
    ensures RowsLive(Run(db, work).cash)
  {
    if |work| > 0 {
      var n := |work| - 1;
      RunLive(db, work[..n]);
      AttemptLive(Run(db, work[..n]), work[n]);
    }
  }

  lemma {:induction false} SumImage<A>(f: A -> int, g: Pair -> int, h: A -> Pair, s: seq<A>)
    requires forall x :: f(x) == g(h(x))
    ensures Sum(f, s) == Sum(g, Image(h, s))
  {
    if |s| > 0 {
      var n := |s| - 1;
      SumImage(f, g, h, s[..n]);
      assert Image(h, s)[..n] == Image(h, s[..n]);
    }
  }

  function PairNet(): Pair -> int { (p: Pair) => p.signed }

  /** Some line shows this cashbox and signed amount. */
  ghost predicate Shown(lines: seq<Line>, p: Pair) { exists l :: l in lines && NeedOf(l) == p }

  ghost predicate LinesPaired(accounts: seq<Account>, lines: seq<Line>, rows: seq<CashTxn>) {
    forall l :: l in CashLines(accounts, lines) ==> exists t :: t in rows && PairsWith(l, t)
  }

  ghost predicate RowsPaired(lines: seq<Line>, rows: seq<CashTxn>) {
    forall t :: t in rows ==> exists l :: l in lines && PairsWith(l, t)
  }

  /** Rows that are the legs of the lines and some extras: every cash line has a row, every
      row a line exactly when the extras do, and the extras are the difference in cash. */
  lemma ExtrasDecide(accounts: seq<Account>, lines: seq<Line>, rows: seq<CashTxn>, extra: seq<Pair>)
    requires multiset(Image(RowPair, rows)) == multiset(Needs(CashLines(accounts, lines))) + multiset(extra)
    ensures LinesPaired(accounts, lines, rows) && |rows| == |CashLines(accounts, lines)| + |extra|
    ensures RowsPaired(lines, rows) <==> forall p :: p in extra ==> Shown(lines, p)
    ensures Sum(RowNet(), rows) == Sum(LineNet(), CashLines(accounts, lines)) + Sum(PairNet(), extra)
  {
    var cash := CashLines(accounts, lines);
    var needs, pairs := Needs(cash), Image(RowPair, rows);
    assert multiset(needs + extra) == multiset(pairs) && |multiset(pairs)| == |multiset(needs + extra)|;
    forall l | l in cash ensures exists t :: t in rows && PairsWith(l, t) {
      var i :| 0 <= i < |cash| && cash[i] == l;
      assert needs[i] in multiset(needs + extra);
      var k :| 0 <= k < |rows| && pairs[k] == needs[i];
      assert rows[k] in rows && PairsWith(l, rows[k]);
    }
    if RowsPaired(lines, rows) {
      forall p | p in extra ensures Shown(lines, p) {
        assert p in multiset(needs + extra);
        var k :| 0 <= k < |rows| && pairs[k] == p;
        assert rows[k] in rows;
        var l :| l in lines && PairsWith(l, rows[k]);
        assert NeedOf(l) == p;
      }
    }
    if forall p :: p in extra ==> Shown(lines, p) {
      forall t | t in rows ensures exists l :: l in lines && PairsWith(l, t) {
        var k :| 0 <= k < |rows| && rows[k] == t;
        assert pairs[k] in multiset(needs + extra);
        ShownPairs(lines, cash, extra, pairs[k]);
        var l :| l in lines && NeedOf(l) == pairs[k];
        assert PairsWith(l, t);
      }
    }
    SumImage(LineNet(), PairNet(), NeedOf, cash);
    SumImage(RowNet(), PairNet(), RowPair, rows);
    SumPermuted(PairNet(), needs + extra, pairs);
    SumCat(PairNet(), needs, extra);
  }

  lemma ShownPairs(lines: seq<Line>, cash: seq<Line>, extra: seq<Pair>, p: Pair)
    requires (forall l :: l in cash ==> l in lines) && (forall q :: q in extra ==> Shown(lines, q))
    requires p in Needs(cash) + extra
    ensures Shown(lines, p)
  {
    if p in Needs(cash) {
      var i :| 0 <= i < |cash| && Needs(cash)[i] == p;
      assert cash[i] in cash && NeedOf(cash[i]) == p;
    }
  }

  lemma MatchedWhenPaired(accounts: seq<Account>, entries: seq<Entry>, rows: seq<CashTxn>)
    ensures var cash := CashLines(accounts, Lines(entries));
      Summarize(accounts, entries, rows).matched ==
        if |cash| == 0 && |rows| == 0 then None else Some(LinesPaired(accounts, Lines(entries), rows))
  {
    var cash := CashLines(accounts, Lines(entries));
    if LinesPaired(accounts, Lines(entries), rows) {
      forall i | 0 <= i < |cash| ensures exists k :: 0 <= k < |rows| && PairsWith(cash[i], rows[k]) {
        assert cash[i] in cash;
        var t :| t in rows && PairsWith(cash[i], t);
        var k :| 0 <= k < |rows| && rows[k] == t;
      }
    }
  }

  /** What the comment beside `cashMatched` promises: pairs in both directions. */
  ghost function PromisedMatched(accounts: seq<Account>, entries: seq<Entry>, rows: seq<CashTxn>): Option<bool> {
    var lines := Lines(entries);
    if |CashLines(accounts, lines)| == 0 && |rows| == 0 then None
    else Some(LinesPaired(accounts, lines, rows) && RowsPaired(lines, rows))
  }

  /** The summary departs from its promise exactly when each cash line has a row and some row
      has no line; it then says matched. */
  lemma MatchedMissesIff(accounts: seq<Account>, entries: seq<Entry>, rows: seq<CashTxn>)
    ensures Summarize(accounts, entries, rows).matched != PromisedMatched(accounts, entries, rows) <==>
      LinesPaired(accounts, Lines(entries), rows) && !RowsPaired(Lines(entries), rows)
    ensures Summarize(accounts, entries, rows).matched != PromisedMatched(accounts, entries, rows) ==>
      Summarize(accounts, entries, rows).matched == Some(true)
  {
    MatchedWhenPaired(accounts, entries, rows);
  }

  /** After any run of booked calls the trace of a source with its own tag never flags a cash
      line and never says unmatched. Its two totals differ by the extras, the legs of entries
      whose type is only mapped to the tag and the rows brought in by category: they are equal
      if and only if these net to nothing, and no row lacks a line if and only if every extra
      shows on a line of the source. */
  lemma EngineTraceIsQuietIff(db: Db, work: seq<seq<Call>>, refType: string, refId: RefId)
    requires Fresh(db) && RunBooked(work) && MapToEntityType(refType) == refType
    ensures var d := Run(db, work);
      var entries, rows, extra := JournalOf(d.entries, refType, refId), TracedRows(d.cash, refType, refId), Extra(d, refType, refId);
      var summary := Summarize(d.accounts, entries, rows);
      && LinesPaired(d.accounts, Lines(entries), rows)
      && (RowsPaired(Lines(entries), rows) <==> forall p :: p in extra ==> Shown(Lines(entries), p))
      && summary.matched == (if |rows| == 0 then None else Some(true))
      && summary.cashboxSigned == summary.journalCash + Sum(PairNet(), extra)
      && (summary.cashboxSigned == summary.journalCash <==> Sum(PairNet(), extra) == 0)
  {
    hide Run, MapToEntityType, LegsTagged, DocPairs, AlienPairs, StrayPairs;
    var d := Run(db, work);
    RunTags(db, work, refType, refId);
    RunLegsTagged(db, work);
    RunLive(db, work);
    LegsUnderTag(d.accounts, d.entries, refType, refId);
    TracedSplit(d.cash, refType, refId);
    var entries, rows := JournalOf(d.entries, refType, refId), TracedRows(d.cash, refType, refId);
    ExtrasDecide(d.accounts, Lines(entries), rows, Extra(d, refType, refId));
    MatchedWhenPaired(d.accounts, entries, rows);
  }

  // ----- a shift that closed with a variance -----

  lemma VariancesAreShifts()
    ensures MapToEntityType("shift_variance") == "shift" && "shift_variance" != "shift"
  {
    assert ALIASES[2] == ("shift_variance", "shift");
    forall k | 0 <= k < 2 ensures |ALIASES[k].0| != |"shift_variance"| || ALIASES[k].0[0] != 's' {}
    AliasSkips(0, 2, "shift_variance");
    assert ENTITY_TYPES[16] == "shift";
    assert |"shift_variance"| != |"shift"|;
  }

  /** One posting that no trace of the source finds as an entry. */
  lemma AlienPosting(db: Db, s: Spec, m: Movement, refType: string) returns (t: CashTxn)
    requires Record(db, s).1.Posted? && s.reversalOf.None? && s.movements == [m]
    requires MapToEntityType(s.refType) == refType && s.refType != refType
    ensures t.direction == m.direction && t.amount == m.amount
    ensures var d := Record(db, s).0;
      && JournalOf(d.entries, refType, s.refId) == JournalOf(db.entries, refType, s.refId)
      && TracedRows(d.cash, refType, s.refId) == TracedRows(db.cash, refType, s.refId) + [t]
  {
    hide Record, MapToEntityType, ValidateSpec, Judge;
    var paid, lines := PostedFacts(db, s);
    assert s.movements[..0] == [] && s.movements[0] == m;
    assert PayAll(db, [], refType, s.refId, s.now) == (db, true);
    assert paid == Pay(db, m, refType, s.refId, s.now);
    t := paid.cash[|db.cash|];
    KeepSnoc(IsTraced(refType, s.refId), db.cash, t);
    KeepSnoc(IsSource(refType, s.refId), db.entries, NewEntry(s, lines));
  }

  lemma VarianceMove(a: VarianceArgs)
    requires a.variance != 0 && VarianceRequest(a).Ask?
    ensures var s := VarianceRequest(a).spec;
      && s.refType == "shift_variance" && s.refId == Document(a.shift) && s.reversalOf.None?
      && |s.movements| == 1 && s.movements == [s.movements[0]] && Signed(s.movements[0].direction, s.movements[0].amount) == a.variance
  {
  }

  /** The trace of a shift with a variance: the entry is not found and the row is, the summary
      says matched although the row has no line, and the totals differ by the variance. */
  lemma ShiftVarianceTrace(db: Db, a: VarianceArgs)
    requires a.variance != 0 && PostsRequest(db, VarianceRequest(a))
    requires JournalOf(db.entries, "shift", Document(a.shift)) == [] && TracedRows(db.cash, "shift", Document(a.shift)) == []
    ensures var d := Record(db, VarianceRequest(a).spec).0;
      var entries, rows := JournalOf(d.entries, "shift", Document(a.shift)), TracedRows(d.cash, "shift", Document(a.shift));
      && |entries| == 0 && |rows| == 1 && !RowsPaired(Lines(entries), rows)
      && Summarize(d.accounts, entries, rows) == CashSummary(Some(true), 0, a.variance)
      && PromisedMatched(d.accounts, entries, rows) == Some(false)
  {
    VariancesAreShifts();
    VarianceMove(a);
    hide Record, MapToEntityType, Summarize, JournalOf, TracedRows, VarianceRequest, PromisedMatched, RowsPaired, Signed, Lines;
    var s := VarianceRequest(a).spec;
    var t := AlienPosting(db, s, s.movements[0], "shift");
    assert [] + [t] == [t];
    OneRowAlone(Record(db, s).0.accounts, t);
  }

  lemma OneRowAlone(accounts: seq<Account>, t: CashTxn)
    ensures !RowsPaired(Lines([]), [t])
    ensures Summarize(accounts, [], [t]) == CashSummary(Some(true), 0, Signed(t.direction, t.amount))
    ensures PromisedMatched(accounts, [], [t]) == Some(false)
  {
    SumSnoc(RowNet(), [], t);
    assert [] + [t] == [t];
    assert t in [t];
  }
}
