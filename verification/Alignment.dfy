/**
 The cash/GL alignment guard: every line on a liquid account must be tagged with a
 cashbox and paired with one cash movement of the same cashbox and signed amount, and
 every movement must be paired with such a line.
 */
module Alignment {
  import opened Sums
  import opened Ledger

  datatype Movement = Movement(cashbox: CashboxId, direction: Direction, amount: Cents, category: string)

  /** What a line needs and what a movement offers. */
  datatype Pair = Pair(cashbox: Option<CashboxId>, signed: Cents)

  datatype Verdict =
    | Aligned
    | Bypassed
    | Untagged(line: Line)
    | Unpaired(need: Pair)
    | Leftover(extra: Pair)

  predicate Passes(v: Verdict) { v.Aligned? || v.Bypassed? }

  function OnLiquid(accounts: seq<Account>): Line -> bool {
    (l: Line) => IsLiquid(CodeOf(accounts, l.account))
  }

  function LiquidLines(accounts: seq<Account>, lines: seq<Line>): seq<Line> {
    Keep(OnLiquid(accounts), lines)
  }

  predicate IsTagged(l: Line) { l.cashbox.Some? && l.cashbox.value != "" }

  function NeedOf(l: Line): Pair { Pair(l.cashbox, l.debit - l.credit) }

  function OfferOf(m: Movement): Pair { Pair(Some(m.cashbox), Signed(m.direction, m.amount)) }

  function Image<A, B>(f: A -> B, s: seq<A>): (r: seq<B>)
    ensures |r| == |s| && forall i :: 0 <= i < |s| ==> r[i] == f(s[i])
  {
    seq(|s|, i requires 0 <= i < |s| => f(s[i]))
  }

  function Needs(lines: seq<Line>): seq<Pair> { Image(NeedOf, lines) }

  function Offers(moves: seq<Movement>): seq<Pair> { Image(OfferOf, moves) }

  // ----- the greedy pairing -----

  function IndexOf(bag: seq<Pair>, p: Pair): (i: nat)
    ensures i <= |bag| && p !in bag[..i] && (i < |bag| ==> bag[i] == p)
  {
    if |bag| == 0 || bag[0] == p then 0
    else
      var i := 1 + IndexOf(bag[1..], p);
      assert bag[..i] == [bag[0]] + bag[1..][..i - 1];
      i
  }

  /** Serve the needs in order, each from the first matching offer still in the bag. */
  function Pairing(needs: seq<Pair>, bag: seq<Pair>): Verdict {
    if |needs| == 0 then (if |bag| == 0 then Aligned else Leftover(bag[0]))
    else
      var i := IndexOf(bag, needs[0]);
      if i == |bag| then Unpaired(needs[0])
      else Pairing(needs[1..], bag[..i] + bag[i + 1..])
  }

  function FirstUntagged(lines: seq<Line>): Option<Line> {
    if |lines| == 0 then None
    else if !IsTagged(lines[0]) then Some(lines[0])
    else FirstUntagged(lines[1..])
  }

  /** The guard's verdict on resolved lines, movements and the caller's opt-out. */
  function Judge(accounts: seq<Account>, lines: seq<Line>, moves: seq<Movement>, accountingOnly: bool): Verdict {
    var liquid := LiquidLines(accounts, lines);
    if |liquid| == 0 && |moves| == 0 then Aligned
    else if accountingOnly then Bypassed
    else if FirstUntagged(liquid).Some? then Untagged(FirstUntagged(liquid).value)
    else Pairing(Needs(liquid), Offers(moves))
  }

  // ----- what the verdict means -----

  lemma BagCancel(a: multiset<Pair>, b: multiset<Pair>, p: Pair)
    ensures a + multiset{p} == b + multiset{p} <==> a == b
    ensures a + multiset{p} <= b + multiset{p} <==> a <= b
  {
    var a', b' := a + multiset{p}, b + multiset{p};
    assert a == a' - multiset{p} && b == b' - multiset{p};
    if a' <= b' {
      forall x ensures a[x] <= b[x] { assert a'[x] <= b'[x]; }
    }
  }

  lemma RemovedOne(bag: seq<Pair>, i: nat)
    requires i < |bag|
    ensures multiset(bag) == multiset(bag[..i] + bag[i + 1..]) + multiset{bag[i]}
  {
    assert bag == bag[..i] + [bag[i]] + bag[i + 1..];
  }

  lemma NotServed(needs: seq<Pair>, bag: seq<Pair>)
    requires |needs| > 0 && needs[0] !in bag
    ensures !(multiset(needs) <= multiset(bag))
  {
    assert needs[0] in multiset(needs) && needs[0] !in multiset(bag);
  }

  lemma FirstAndRest(needs: seq<Pair>)
    requires |needs| > 0
    ensures multiset(needs) == multiset(needs[1..]) + multiset{needs[0]}
  {
    assert needs == [needs[0]] + needs[1..];
  }

  lemma PairingUnfolds(needs: seq<Pair>, bag: seq<Pair>)
    requires |needs| > 0
    ensures var i := IndexOf(bag, needs[0]);
      Pairing(needs, bag) == if i == |bag| then Unpaired(needs[0]) else Pairing(needs[1..], bag[..i] + bag[i + 1..])
  {
  }

  /** The greedy pairing decides equality and inclusion of the two bags. */
  lemma {:induction false} PairingDecidesBags(needs: seq<Pair>, bag: seq<Pair>)
    ensures Pairing(needs, bag).Aligned? <==> multiset(needs) == multiset(bag)
    ensures Pairing(needs, bag).Unpaired? <==> !(multiset(needs) <= multiset(bag))
    ensures Pairing(needs, bag).Leftover? <==> multiset(needs) <= multiset(bag) && multiset(needs) != multiset(bag)
    decreases |needs|
  {
    if |needs| == 0 {
      assert |bag| > 0 ==> bag[0] in multiset(bag);
    } else {
      PairingUnfolds(needs, bag);
      var i := IndexOf(bag, needs[0]);
      if i == |bag| {
        assert bag[..i] == bag;
        NotServed(needs, bag);
      } else {
        var rest := bag[..i] + bag[i + 1..];
        RemovedOne(bag, i);
        FirstAndRest(needs);
        PairingDecidesBags(needs[1..], rest);
        hide Pairing;
        BagCancel(multiset(needs[1..]), multiset(rest), needs[0]);
      }
    }
  }

  /** The pair a refusal names: a need asked for more often than it is offered, or an offer that
      is there more often than it is needed. */
  lemma {:induction false} PairingNames(needs: seq<Pair>, bag: seq<Pair>)
    ensures var v := Pairing(needs, bag);
      && (v.Unpaired? ==> multiset(needs)[v.need] > multiset(bag)[v.need])
      && (v.Leftover? ==> multiset(bag)[v.extra] > multiset(needs)[v.extra])
    decreases |needs|
  {
    if |needs| == 0 {
      assert |bag| > 0 ==> bag[0] in multiset(bag);
    } else {
      PairingUnfolds(needs, bag);
      var i := IndexOf(bag, needs[0]);
      if i == |bag| {
        assert bag[..i] == bag && needs[0] in multiset(needs);
      } else {
        RemovedOne(bag, i);
        FirstAndRest(needs);
        PairingNames(needs[1..], bag[..i] + bag[i + 1..]);
      }
    }
  }

  /** Each verdict of the guard: it is bypassed on request, complains of a liquid line without a
      cashbox first, and then of a pair that does not come out even. */
  lemma VerdictMeans(accounts: seq<Account>, lines: seq<Line>, moves: seq<Movement>, accountingOnly: bool)
    ensures var v, liquid := Judge(accounts, lines, moves, accountingOnly), LiquidLines(accounts, lines);
      && (v.Bypassed? <==> accountingOnly && (|liquid| > 0 || |moves| > 0))
      && (v.Untagged? <==> !accountingOnly && exists l :: l in liquid && !IsTagged(l))
      && (v.Untagged? ==> v.line in liquid && !IsTagged(v.line))
      && (v.Unpaired? ==> multiset(Needs(liquid))[v.need] > multiset(Offers(moves))[v.need])
      && (v.Leftover? ==> multiset(Offers(moves))[v.extra] > multiset(Needs(liquid))[v.extra])
  {
    var liquid := LiquidLines(accounts, lines);
    UntaggedDecides(liquid);
    PairingNames(Needs(liquid), Offers(moves));
    PairingDecidesBags(Needs(liquid), Offers(moves));
    hide Pairing, FirstUntagged, LiquidLines, IsTagged;
  }

  lemma {:induction false} UntaggedDecides(lines: seq<Line>)
    ensures FirstUntagged(lines).None? <==> forall i :: 0 <= i < |lines| ==> IsTagged(lines[i])
    ensures FirstUntagged(lines).Some? ==> FirstUntagged(lines).value in lines && !IsTagged(FirstUntagged(lines).value)
  {
    if |lines| > 0 {
      assert lines == [lines[0]] + lines[1..];
      UntaggedDecides(lines[1..]);
    }
  }

  /** Every liquid line is tagged and the two sides agree as bags. */
  ghost predicate Agree(accounts: seq<Account>, lines: seq<Line>, moves: seq<Movement>) {
    var liquid := LiquidLines(accounts, lines);
    && (forall i :: 0 <= i < |liquid| ==> IsTagged(liquid[i]))
    && multiset(Needs(liquid)) == multiset(Offers(moves))
  }

  /** Without the opt-out the guard accepts exactly when the two sides agree as bags. */
  lemma GuardDecidesAgreement(accounts: seq<Account>, lines: seq<Line>, moves: seq<Movement>)
    ensures Passes(Judge(accounts, lines, moves, false)) <==> Agree(accounts, lines, moves)
    ensures Passes(Judge(accounts, lines, moves, false)) ==> Judge(accounts, lines, moves, false).Aligned?
  {
    var liquid := LiquidLines(accounts, lines);
    PairingDecidesBags(Needs(liquid), Offers(moves));
    UntaggedDecides(liquid);
  }

  lemma ImageRemoved<A, B>(f: A -> B, t: seq<A>, i: nat)
    requires i < |t|
    ensures multiset(Image(f, t)) == multiset(Image(f, t[..i] + t[i + 1..])) + multiset{f(t[i])}
  {
    var ft := Image(f, t);
    assert ft == ft[..i] + [ft[i]] + ft[i + 1..];
    assert Image(f, t[..i] + t[i + 1..]) == ft[..i] + ft[i + 1..];
  }

  lemma {:induction false} ImagePermuted<A, B>(f: A -> B, s: seq<A>, t: seq<A>)
    requires multiset(s) == multiset(t)
    ensures multiset(Image(f, s)) == multiset(Image(f, t))
    decreases |s|
  {
    if |s| == 0 {
      assert |multiset(t)| == 0;
      assert Image(f, s) == Image(f, t);
    } else {
      assert s[0] in multiset(t);
      var i :| 0 <= i < |t| && t[i] == s[0];
      assert s == s[..0] + [s[0]] + s[1..];
      assert t == t[..i] + [t[i]] + t[i + 1..];
      assert multiset(s[..0] + s[1..]) == multiset(s) - multiset{s[0]};
      assert multiset(t[..i] + t[i + 1..]) == multiset(t) - multiset{s[0]};
      ImagePermuted(f, s[..0] + s[1..], t[..i] + t[i + 1..]);
      ImageRemoved(f, s, 0);
      ImageRemoved(f, t, i);
    }
  }

  lemma AgreementIgnoresOrder(accounts: seq<Account>, lines: seq<Line>, lines': seq<Line>,
                              moves: seq<Movement>, moves': seq<Movement>)
    requires multiset(lines) == multiset(lines') && multiset(moves) == multiset(moves')
    requires Agree(accounts, lines, moves)
    ensures Agree(accounts, lines', moves')
  {
    var l, l' := LiquidLines(accounts, lines), LiquidLines(accounts, lines');
    LiquidPermuted(accounts, lines, lines');
    ImagePermuted(NeedOf, l, l');
    ImagePermuted(OfferOf, moves, moves');
    forall i | 0 <= i < |l'| ensures IsTagged(l'[i]) {
      assert l'[i] in multiset(l);
    }
  }

  lemma LiquidPermuted(accounts: seq<Account>, lines: seq<Line>, lines': seq<Line>)
    requires multiset(lines) == multiset(lines')
    ensures multiset(LiquidLines(accounts, lines)) == multiset(LiquidLines(accounts, lines'))
    ensures |LiquidLines(accounts, lines)| == |LiquidLines(accounts, lines')|
  {
    KeepPermuted(OnLiquid(accounts), lines);
    KeepPermuted(OnLiquid(accounts), lines');
    assert multiset(LiquidLines(accounts, lines)) == multiset(LiquidLines(accounts, lines'));
    assert |multiset(LiquidLines(accounts, lines))| == |multiset(LiquidLines(accounts, lines'))|;
  }

  /** Reordering the lines or the movements never changes whether the guard accepts. */
  lemma GuardIgnoresOrder(accounts: seq<Account>, lines: seq<Line>, lines': seq<Line>,
                          moves: seq<Movement>, moves': seq<Movement>, accountingOnly: bool)
    requires multiset(lines) == multiset(lines') && multiset(moves) == multiset(moves')
    ensures Passes(Judge(accounts, lines, moves, accountingOnly))
       <==> Passes(Judge(accounts, lines', moves', accountingOnly))
  {
    if !accountingOnly {
      GuardDecidesAgreement(accounts, lines, moves);
      GuardDecidesAgreement(accounts, lines', moves');
      if Agree(accounts, lines, moves) {
        AgreementIgnoresOrder(accounts, lines, lines', moves, moves');
      }
      if Agree(accounts, lines', moves') {
        AgreementIgnoresOrder(accounts, lines', lines, moves', moves);
      }
    }
  }

  // ----- agreement as money -----

  function PairOn(box: CashboxId): Pair -> int {
    (p: Pair) => if p.cashbox == Some(box) then p.signed else 0
  }

  function MoveOn(box: CashboxId): Movement -> int {
    (m: Movement) => if m.cashbox == box then Signed(m.direction, m.amount) else 0
  }

  lemma {:induction false} SumNeeds(box: CashboxId, accounts: seq<Account>, lines: seq<Line>)
    ensures Sum(PairOn(box), Needs(LiquidLines(accounts, lines))) == Sum(LegOn(accounts, box), lines)
  {
    hide CodeOf, IsLiquid;
    if |lines| > 0 {
      var n := |lines| - 1;
      SumNeeds(box, accounts, lines[..n]);
      var front, l := LiquidLines(accounts, lines[..n]), lines[n];
      hide Sum, LiquidLines, Needs;
      LiquidSnoc(accounts, lines);
      SumSnoc(LegOn(accounts, box), lines[..n], l);
      assert lines == lines[..n] + [l];
      if IsLiquid(CodeOf(accounts, l.account)) {
        NeedsSnoc(front, l);
        SumSnoc(PairOn(box), Needs(front), NeedOf(l));
        assert PairOn(box)(NeedOf(l)) == LegOn(accounts, box)(l);
      } else {
        assert front + [] == front && LegOn(accounts, box)(l) == 0;
      }
    } else {
      assert Needs(LiquidLines(accounts, lines)) == [];
    }
  }

  lemma LiquidSnoc(accounts: seq<Account>, lines: seq<Line>)
    requires |lines| > 0
    ensures var n := |lines| - 1;
      LiquidLines(accounts, lines) == LiquidLines(accounts, lines[..n]) + if IsLiquid(CodeOf(accounts, lines[n].account)) then [lines[n]] else []
  {
  }

  lemma NeedsSnoc(lines: seq<Line>, l: Line)
    ensures Needs(lines + [l]) == Needs(lines) + [NeedOf(l)]
  {
  }

  lemma {:induction false} SumOffers(box: CashboxId, moves: seq<Movement>)
    ensures Sum(PairOn(box), Offers(moves)) == Sum(MoveOn(box), moves)
  {
    if |moves| > 0 {
      var n := |moves| - 1;
      SumOffers(box, moves[..n]);
      assert Offers(moves)[..n] == Offers(moves[..n]);
    }
  }

  /** An aligned posting moves exactly as much cash in each cashbox as it books there. */
  lemma AgreementConservesCash(accounts: seq<Account>, lines: seq<Line>, moves: seq<Movement>, box: CashboxId)
    requires Agree(accounts, lines, moves)
    ensures Sum(MoveOn(box), moves) == Sum(LegOn(accounts, box), lines)
  {
    SumNeeds(box, accounts, lines);
    SumOffers(box, moves);
    SumPermuted(PairOn(box), Needs(LiquidLines(accounts, lines)), Offers(moves));
  }

  // ----- the guard as it runs -----

  method FindOffer(bag: seq<Pair>, need: Pair) returns (i: nat)
    ensures i == IndexOf(bag, need)
  {
    i := 0;
    while i < |bag| && bag[i] != need
      invariant i <= |bag|
      invariant IndexOf(bag, need) == i + IndexOf(bag[i..], need)
    {
      assert bag[i..][1..] == bag[i + 1..];
      i := i + 1;
    }
  }

  /** The greedy loop: each need takes the first equal offer out of the bag. */
  method PairUp(needs: seq<Pair>, offers: seq<Pair>) returns (v: Verdict)
    ensures v == Pairing(needs, offers)
  {
    var bag := offers;
    for k := 0 to |needs|
      invariant Pairing(needs, offers) == Pairing(needs[k..], bag)
    {
      var i := FindOffer(bag, needs[k]);
      PairingUnfolds(needs[k..], bag);
      assert needs[k..][1..] == needs[k + 1..];
      if i == |bag| {
        return Unpaired(needs[k]);
      }
      bag := bag[..i] + bag[i + 1..];
    }
    return if |bag| > 0 then Leftover(bag[0]) else Aligned;
  }

  /** `checkCashGlAlignment`: three guards over the liquid lines. */
  method CheckCashGlAlignment(accounts: seq<Account>, lines: seq<Line>, moves: seq<Movement>, accountingOnly: bool)
    returns (v: Verdict)
    ensures v == Judge(accounts, lines, moves, accountingOnly)
    ensures !accountingOnly ==> (v.Aligned? <==> Agree(accounts, lines, moves))
  {
    GuardDecidesAgreement(accounts, lines, moves);
    hide Agree, Pairing;
    var liquid := LiquidLines(accounts, lines);
    if |liquid| == 0 && |moves| == 0 {
      return Aligned;
    }
    if accountingOnly {
      return Bypassed;
    }
    for i := 0 to |liquid|
      invariant FirstUntagged(liquid) == FirstUntagged(liquid[i..])
    {
      assert liquid[i..][1..] == liquid[i + 1..];
      if !IsTagged(liquid[i]) {
        return Untagged(liquid[i]);
      }
    }
    v := PairUp(Needs(liquid), Offers(moves));
  }
}
