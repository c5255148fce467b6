/**
 Matching a bank statement against the cash rows of a cashbox: one pass over its lines, each
 taking the only open row that fits it.
 */
module Statements {
  import opened Sums
  import opened Ledger
  import opened Engine

  datatype StatementLine = StatementLine(date: Option<int>, amount: Cents, direction: Option<Direction>)

  datatype Match = Matched(row: nat) | Ambiguous(candidates: nat) | Unmatched

  /** A line without a date, an amount or a direction is not looked up. */
  predicate Usable(l: StatementLine) { l.amount != 0 && l.date.Some? && l.direction.Some? }

  /** Same cashbox and direction, same amount to the cent, within two days, as the comment on
      the method has it; the query's own date test fails. Void rows count. */
  predicate Fits(t: CashTxn, box: CashboxId, l: StatementLine) {
    Usable(l) && t.cashbox == box && t.direction == l.direction.value && Abs(t.amount - l.amount) < 1
    && Abs(t.createdAt - l.date.value) <= 2
  }

  function OpenFit(cash: seq<CashTxn>, reconciled: set<nat>, box: CashboxId, l: StatementLine): nat -> bool {
    (k: nat) => k < |cash| && k !in reconciled && Fits(cash[k], box, l)
  }

  /** All open rows that fit; the query stops at five. */
  function Candidates(cash: seq<CashTxn>, reconciled: set<nat>, box: CashboxId, l: StatementLine): seq<nat> {
    Keep(OpenFit(cash, reconciled, box, l), Range(0, |cash|))
  }

  function Queried(candidates: seq<nat>): seq<nat> { if |candidates| <= 5 then candidates else candidates[..5] }

  function MatchOne(cash: seq<CashTxn>, reconciled: set<nat>, box: CashboxId, l: StatementLine): Match {
    if !Usable(l) then Unmatched
    else
      var found := Queried(Candidates(cash, reconciled, box, l));
      if |found| == 1 then Matched(found[0]) else if |found| > 1 then Ambiguous(|found|) else Unmatched
  }

  function Mark(reconciled: set<nat>, m: Match): set<nat> { if m.Matched? then reconciled + {m.row} else reconciled }

  /** The rows reconciled after the lines, and the result of each. */
  function MatchAll(cash: seq<CashTxn>, reconciled: set<nat>, box: CashboxId, lines: seq<StatementLine>): (r: (set<nat>, seq<Match>))
    ensures |r.1| == |lines|
  {
    if |lines| == 0 then (reconciled, [])
    else
      var n := |lines| - 1;
      var (front, results) := MatchAll(cash, reconciled, box, lines[..n]);
      var m := MatchOne(cash, front, box, lines[n]);
      (Mark(front, m), results + [m])
  }

  function Matches(): Match -> int { (m: Match) => if m.Matched? then 1 else 0 }

  function Ambiguities(): Match -> int { (m: Match) => if m.Ambiguous? then 1 else 0 }

  function Misses(): Match -> int { (m: Match) => if m.Unmatched? then 1 else 0 }

  // ----- what a run guarantees -----

  lemma {:induction false} KeepCounts<T>(p: T -> bool, s: seq<T>, x: T)
    requires forall i, j :: 0 <= i < j < |s| ==> s[i] != s[j]
    ensures x in Keep(p, s) <==> x in s && p(x)
    ensures forall i, j :: 0 <= i < j < |Keep(p, s)| ==> Keep(p, s)[i] != Keep(p, s)[j]
  {
    if |s| > 0 {
      var n := |s| - 1;
      KeepCounts(p, s[..n], x);
      KeepCounts(p, s[..n], s[n]);
      assert x in s <==> x in s[..n] || x == s[n];
    }
  }

  /** Row `k` could be the line's: a row of the box in the line's direction, of its amount to the
      cent, within two days of its date, and not reconciled; void or not. */
  ghost predicate CouldBe(cash: seq<CashTxn>, reconciled: set<nat>, box: CashboxId, l: StatementLine, k: nat) {
    && k < |cash| && k !in reconciled && cash[k].cashbox == box && l.direction == Some(cash[k].direction)
    && cash[k].amount == l.amount != 0 && l.date.Some? && -2 <= cash[k].createdAt - l.date.value <= 2
  }

  lemma CouldBeIff(cash: seq<CashTxn>, reconciled: set<nat>, box: CashboxId, l: StatementLine, k: nat)
    ensures Usable(l) && OpenFit(cash, reconciled, box, l)(k) <==> CouldBe(cash, reconciled, box, l, k)
  {
  }

  lemma FoundAre(cash: seq<CashTxn>, reconciled: set<nat>, box: CashboxId, l: StatementLine)
    requires Usable(l)
    ensures var found := Candidates(cash, reconciled, box, l);
      && (forall k: nat :: k in found <==> CouldBe(cash, reconciled, box, l, k))
      && (forall i, j :: 0 <= i < j < |found| ==> found[i] != found[j])
      && |found| == |set k: nat | k < |cash| && CouldBe(cash, reconciled, box, l, k)|
  {
    var all, open := Range(0, |cash|), OpenFit(cash, reconciled, box, l);
    var found := Candidates(cash, reconciled, box, l);
    forall k: nat ensures k in found <==> CouldBe(cash, reconciled, box, l, k) {
      KeepCounts(open, all, k);
      if k < |cash| { assert all[k] == k; }
      CouldBeIff(cash, reconciled, box, l, k);
    }
    KeepCounts(open, all, 0);
    hide Candidates, OpenFit;
    SetOfDistinct(found, set k: nat | k < |cash| && CouldBe(cash, reconciled, box, l, k));
  }

  /** A match is the only open row the line could be; an ambiguity has several, all of them
      counted up to five; a miss has none. */
  lemma MatchOneMeans(cash: seq<CashTxn>, reconciled: set<nat>, box: CashboxId, l: StatementLine)
    ensures var m := MatchOne(cash, reconciled, box, l);
      && (m.Matched? ==> CouldBe(cash, reconciled, box, l, m.row) && forall k: nat :: CouldBe(cash, reconciled, box, l, k) ==> k == m.row)
      && (m.Ambiguous? ==> m.candidates >= 2 && exists j: nat, k: nat :: j != k && CouldBe(cash, reconciled, box, l, j) && CouldBe(cash, reconciled, box, l, k))
      && (m.Ambiguous? ==> var all := |set k: nat | k < |cash| && CouldBe(cash, reconciled, box, l, k)|; m.candidates == if all <= 5 then all else 5)
      && (m.Unmatched? ==> forall k: nat :: !CouldBe(cash, reconciled, box, l, k))
  {
    if !Usable(l) {
      forall k: nat ensures !CouldBe(cash, reconciled, box, l, k) {}
    } else {
      var found := Candidates(cash, reconciled, box, l);
      FoundAre(cash, reconciled, box, l);
      hide CouldBe, Candidates;
      if |found| == 0 {
        forall k: nat ensures !CouldBe(cash, reconciled, box, l, k) {
          assert k !in found;
        }
      } else if |found| == 1 {
        assert found[0] in found;
      } else {
        assert found[0] in found && found[1] in found && found[0] != found[1];
      }
    }
  }

  lemma {:induction false} SetOfDistinct(s: seq<nat>, t: set<nat>)
    requires (forall i, j :: 0 <= i < j < |s| ==> s[i] != s[j]) && forall k: nat :: k in s <==> k in t
    ensures |t| == |s|
  {
    if |s| == 0 {
      assert t == {};
    } else {
      var n := |s| - 1;
      assert s[n] in t && s == s[..n] + [s[n]];
      SetOfDistinct(s[..n], t - {s[n]});
    }
  }

  /** Matching is an injection: no row is matched twice or was reconciled before the call, every
      match is a row its line could be, and exactly the matched rows become reconciled. */
  lemma {:induction false} MatchingIsInjective(cash: seq<CashTxn>, reconciled: set<nat>, box: CashboxId, lines: seq<StatementLine>)
    ensures var (after, results) := MatchAll(cash, reconciled, box, lines);
      && (forall i :: 0 <= i < |lines| && results[i].Matched? ==>
            CouldBe(cash, reconciled, box, lines[i], results[i].row) && results[i].row in after)
      && (forall i, j :: 0 <= i < j < |lines| && results[i].Matched? && results[j].Matched? ==> results[i].row != results[j].row)
      && reconciled <= after
      && (forall k :: k in after - reconciled ==> exists i :: 0 <= i < |lines| && results[i] == Matched(k))
  {
    if |lines| > 0 {
      var n := |lines| - 1;
      MatchingIsInjective(cash, reconciled, box, lines[..n]);
      var (front, earlier) := MatchAll(cash, reconciled, box, lines[..n]);
      MatchOneMeans(cash, front, box, lines[n]);
      var m := MatchOne(cash, front, box, lines[n]);
      if m.Matched? { StillCould(cash, reconciled, front, box, lines[n], m.row); }
      hide MatchOne, CouldBe;
      var (after, results) := MatchAll(cash, reconciled, box, lines);
      assert forall i :: 0 <= i < n ==> results[i] == earlier[i];
      forall k | k in after - reconciled ensures exists i :: 0 <= i < |lines| && results[i] == Matched(k) {
        if k in front {
          var i :| 0 <= i < n && earlier[i] == Matched(k);
          assert results[i] == Matched(k);
        } else {
          assert results[n] == Matched(k);
        }
      }
    }
  }

  /** Fewer rows reconciled leave more open. */
  lemma StillCould(cash: seq<CashTxn>, fewer: set<nat>, more: set<nat>, box: CashboxId, l: StatementLine, k: nat)
    requires fewer <= more && CouldBe(cash, more, box, l, k)
    ensures CouldBe(cash, fewer, box, l, k) && k !in more
  {
  }

  /** The three counts add up to the statement. */
  lemma {:induction false} CountsAddUp(results: seq<Match>)
    ensures Sum(Matches(), results) + Sum(Ambiguities(), results) + Sum(Misses(), results) == |results|
  {
    if |results| > 0 {
      CountsAddUp(results[..|results| - 1]);
    }
  }

  function Hits(results: seq<Match>, p: Match -> bool): set<nat> { set i: nat | i < |results| && p(results[i]) }

  lemma {:induction false} CountIs(results: seq<Match>, f: Match -> int, p: Match -> bool)
    requires forall m :: f(m) == if p(m) then 1 else 0
    ensures |Hits(results, p)| == Sum(f, results)
  {
    if |results| > 0 {
      var n := |results| - 1;
      CountIs(results[..n], f, p);
      assert Hits(results, p) == if p(results[n]) then Hits(results[..n], p) + {n} else Hits(results[..n], p);
    }
  }

  lemma CountsAre(results: seq<Match>)
    ensures |set i: nat | i < |results| && results[i].Matched?| == Sum(Matches(), results)
    ensures |set i: nat | i < |results| && results[i].Ambiguous?| == Sum(Ambiguities(), results)
    ensures |set i: nat | i < |results| && results[i].Unmatched?| == Sum(Misses(), results)
  {
    var a, b, c := (m: Match) => m.Matched?, (m: Match) => m.Ambiguous?, (m: Match) => m.Unmatched?;
    CountIs(results, Matches(), a);
    CountIs(results, Ambiguities(), b);
    CountIs(results, Misses(), c);
    assert (set i: nat | i < |results| && results[i].Matched?) == Hits(results, a);
    assert (set i: nat | i < |results| && results[i].Ambiguous?) == Hits(results, b);
    assert (set i: nat | i < |results| && results[i].Unmatched?) == Hits(results, c);
  }

  /** The only row a line could be, among those open before the call, is matched: to that line if
      the row is still open at its turn, else to an earlier line. */
  lemma OnlyFitIsMatched(cash: seq<CashTxn>, reconciled: set<nat>, box: CashboxId, lines: seq<StatementLine>, i: nat, k: nat)
    requires i < |lines| && CouldBe(cash, reconciled, box, lines[i], k)
    requires forall j: nat :: CouldBe(cash, reconciled, box, lines[i], j) ==> j == k
    ensures var results := MatchAll(cash, reconciled, box, lines).1;
      if k in MatchAll(cash, reconciled, box, lines[..i]).0 then exists j :: 0 <= j < i && results[j] == Matched(k)
      else results[i] == Matched(k)
  {
    var (before, earlier) := MatchAll(cash, reconciled, box, lines[..i]);
    MatchingIsInjective(cash, reconciled, box, lines[..i]);
    if k in before {
      var j :| 0 <= j < i && earlier[j] == Matched(k);
      ResultAt(cash, reconciled, box, lines, j);
      ResultAt(cash, reconciled, box, lines[..i], j);
      assert lines[..i][..j] == lines[..j];
    } else {
      MatchOneMeans(cash, before, box, lines[i]);
      forall j: nat | CouldBe(cash, before, box, lines[i], j) ensures CouldBe(cash, reconciled, box, lines[i], j) {}
      assert CouldBe(cash, before, box, lines[i], k);
      ResultAt(cash, reconciled, box, lines, i);
    }
  }

  lemma {:induction false} ResultAt(cash: seq<CashTxn>, reconciled: set<nat>, box: CashboxId, lines: seq<StatementLine>, i: nat)
    requires i < |lines|
    ensures MatchAll(cash, reconciled, box, lines).1[i] == MatchOne(cash, MatchAll(cash, reconciled, box, lines[..i]).0, box, lines[i])
  {
    var n := |lines| - 1;
    if i < n {
      ResultAt(cash, reconciled, box, lines[..n], i);
      assert lines[..n][..i] == lines[..i];
    }
  }

  // ----- the matcher as it runs -----

  class StatementMatcher {
    const engine: FinancialEngine
    var reconciled: set<nat>

    constructor (engine: FinancialEngine)
      ensures this.engine == engine && reconciled == {}
    {
      this.engine, reconciled := engine, {};
    }

    method FindCandidates(box: CashboxId, l: StatementLine) returns (found: seq<nat>)
      ensures found == Candidates(engine.cash, reconciled, box, l)
    {
      found := Keep(OpenFit(engine.cash, reconciled, box, l), Range(0, |engine.cash|));
    }

    /** `autoMatchStatement`. */
    method AutoMatchStatement(box: CashboxId, lines: seq<StatementLine>) returns (results: seq<Match>, matched: int, ambiguous: int, unmatched: int)
      modifies this`reconciled
      ensures (reconciled, results) == MatchAll(engine.cash, old(reconciled), box, lines)
      ensures matched == Sum(Matches(), results) && ambiguous == Sum(Ambiguities(), results) && unmatched == Sum(Misses(), results)
      ensures matched == |set i: nat | i < |results| && results[i].Matched?| && unmatched == |set i: nat | i < |results| && results[i].Unmatched?|
      ensures ambiguous == |set i: nat | i < |results| && results[i].Ambiguous?| && matched + ambiguous + unmatched == |lines|
    {
      results := [];
      for i := 0 to |lines|
        invariant (reconciled, results) == MatchAll(engine.cash, old(reconciled), box, lines[..i])
      {
        assert lines[..i + 1][..i] == lines[..i];
        var line := lines[i];
        if !Usable(line) {
          results := results + [Unmatched];
          continue;
        }
        var candidates := FindCandidates(box, line);
        candidates := Queried(candidates);
        if |candidates| == 1 {
          reconciled := reconciled + {candidates[0]};
          results := results + [Matched(candidates[0])];
        } else if |candidates| > 1 {
          results := results + [Ambiguous(|candidates|)];
        } else {
          results := results + [Unmatched];
        }
      }
      assert lines[..|lines|] == lines;
      CountsAddUp(results);
      CountsAre(results);
      matched, ambiguous, unmatched := Sum(Matches(), results), Sum(Ambiguities(), results), Sum(Misses(), results);
    }
  }
}
