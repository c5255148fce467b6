/**
 Reversing a posted document: the spec `reverseByReference` builds, exactly when the
 engine accepts it, and what a post-then-reverse leaves behind.
 */
module Reversal {
  import opened Sums
  import opened Ledger
  import opened Alignment
  import opened Engine
  import opened Runs
  import opened Recipes

  // ----- what one accepted call does to an account -----

  function Effect(account: AccountId, lines: seq<Line>): Cents { Sum(NetOn(account), lines) }

  lemma VoidingAccountNet(entries: seq<Entry>, original: Option<nat>, account: AccountId)
    requires original.Some? ==> original.value < |entries|
    ensures Sum(NetOfEntry(account), VoidOriginal(entries, original)) == Sum(NetOfEntry(account), entries)
         - (if original.Some? then NetOfEntry(account)(entries[original.value]) else 0)
  {
    if original.Some? {
      SumSet(NetOfEntry(account), entries, original.value, entries[original.value].(isVoid := true));
    }
  }

  /** An accepted call adds its lines to each account and takes the voided original off. */
  lemma PostedAccountNet(db: Db, s: Spec, account: AccountId) returns (lines: seq<Line>)
    requires Record(db, s).1.Posted?
    ensures ResolveAll(db, s.lines) == Some(lines)
    ensures s.reversalOf.Some? ==> s.reversalOf.value < |db.entries|
    ensures AccountNet(Record(db, s).0, account) == AccountNet(db, account) + Effect(account, lines)
         - (if s.reversalOf.Some? then NetOfEntry(account)(db.entries[s.reversalOf.value]) else 0)
  {
    hide Record, Judge, ValidateSpec, PaySpec;
    var paid;
    paid, lines := PostedFacts(db, s);
    ResolveAllFrame(db, paid, s.lines);
    VoidingAccountNet(paid.entries, s.reversalOf, account);
    SumSnoc(NetOfEntry(account), VoidOriginal(paid.entries, s.reversalOf), NewEntry(s, lines));
    SumKeep(NetOn(account), IsNonzero(), lines);
  }

  lemma VoidingLiveLegs(accounts: seq<Account>, entries: seq<Entry>, original: Option<nat>, box: CashboxId)
    requires original.Some? ==> original.value < |entries|
    ensures Sum(LegsOf(accounts, box, Live, Everything()), VoidOriginal(entries, original))
         == Sum(LegsOf(accounts, box, Live, Everything()), entries)
         - (if original.Some? && !entries[original.value].isVoid then EntryLeg(accounts, box, entries[original.value]) else 0)
  {
    if original.Some? {
      var f, e := LegsOf(accounts, box, Live, Everything()), entries[original.value];
      hide LegsOf, EntryLeg, Sum;
      LiveLeg(accounts, box, e);
      LiveLeg(accounts, box, e.(isVoid := true));
      SumSet(f, entries, original.value, e.(isVoid := true));
    }
  }

  // ----- the reversing spec -----

  predicate IsOriginal(e: Entry, refType: string, refId: RefId) { Claims(e, refType, refId) && e.reversalOf.None? }

  /** The earliest live entry of the document that is not itself a reversal. */
  function FindOriginal(entries: seq<Entry>, refType: string, refId: RefId): (r: Option<nat>)
    ensures r.Some? ==> r.value < |entries| && IsOriginal(entries[r.value], refType, refId)
    ensures r.None? ==> forall i :: 0 <= i < |entries| ==> !IsOriginal(entries[i], refType, refId)
  {
    if |entries| == 0 then None
    else
      var n := |entries| - 1;
      var earlier := FindOriginal(entries[..n], refType, refId);
      if earlier.Some? then earlier
      else if IsOriginal(entries[n], refType, refId) then Some(n)
      else None
  }

  function SwapLine(l: Line): GlLine { GlLine(None, Some(l.account), None, l.credit, l.debit, l.cashbox, None) }

  function TaggedWith(entity: string, refId: RefId): CashTxn -> bool {
    (t: CashTxn) => !t.isVoid && t.entity == entity && t.refId == refId
  }

  /** The cash rows found under the document; looked up by the raw reference type. */
  function RowsOf(db: Db, refType: string, refId: RefId): seq<CashTxn> {
    Keep(TaggedWith(refType, refId), db.cash)
  }

  function Flip(d: Direction): Direction { if d.In? then Out else In }

  /** The category column takes forty characters. */
  function Cut(text: string): string { if |text| <= 40 then text else text[..40] }

  function FlipRow(t: CashTxn): Movement { Movement(t.cashbox, Flip(t.direction), t.amount, Cut("reversal_" + t.category)) }

  function ReversalSpec(db: Db, refType: string, refId: RefId, o: nat, now: int): Spec
    requires o < |db.entries|
  {
    Spec("reversal", Journal(o), db.entries[o].date, "reversal",
         Image(SwapLine, db.entries[o].lines), Image(FlipRow, RowsOf(db, refType, refId)),
         Some(o), false, now)
  }

  // ----- pairs -----

  function RowPair(t: CashTxn): Pair { Pair(Some(t.cashbox), Signed(t.direction, t.amount)) }

  function Negate(p: Pair): Pair { Pair(p.cashbox, -p.signed) }

  function EntryPairs(accounts: seq<Account>, e: Entry): seq<Pair> { Needs(LiquidLines(accounts, e.lines)) }

  lemma NegatedBags(a: seq<Pair>, b: seq<Pair>)
    ensures multiset(Image(Negate, a)) == multiset(Image(Negate, b)) <==> multiset(a) == multiset(b)
  {
    var na, nb := Image(Negate, a), Image(Negate, b);
    assert Image(Negate, na) == a && Image(Negate, nb) == b;
    if multiset(na) == multiset(nb) {
      ImagePermuted(Negate, na, nb);
    }
    if multiset(a) == multiset(b) {
      ImagePermuted(Negate, a, b);
    }
  }

  function Swapped(l: Line): Line { l.(debit := l.credit, credit := l.debit, employee := None) }

  lemma {:induction false} SwappedLiquid(accounts: seq<Account>, lines: seq<Line>)
    ensures LiquidLines(accounts, Image(Swapped, lines)) == Image(Swapped, LiquidLines(accounts, lines))
  {
    if |lines| > 0 {
      var n := |lines| - 1;
      SwappedLiquid(accounts, lines[..n]);
      assert Image(Swapped, lines)[..n] == Image(Swapped, lines[..n]);
    }
  }

  lemma {:induction false} SwappedResolve(db: Db, lines: seq<Line>)
    requires forall i :: 0 <= i < |lines| ==> lines[i].account != ""
    ensures ResolveAll(db, Image(SwapLine, lines)) == Some(Image(Swapped, lines))
  {
    if |lines| > 0 {
      var n := |lines| - 1;
      SwappedResolve(db, lines[..n]);
      assert Image(SwapLine, lines)[..n] == Image(SwapLine, lines[..n]);
      assert Resolve(db, SwapLine(lines[n])) == Some(Swapped(lines[n]));
      assert Image(Swapped, lines) == Image(Swapped, lines[..n]) + [Swapped(lines[n])];
    }
  }

  lemma {:induction false} SwappedEffect(account: AccountId, lines: seq<Line>)
    ensures Effect(account, Image(Swapped, lines)) == -Effect(account, lines)
  {
    if |lines| > 0 {
      var n := |lines| - 1;
      SwappedEffect(account, lines[..n]);
      assert Image(Swapped, lines)[..n] == Image(Swapped, lines[..n]);
    }
  }

  lemma {:induction false} SwappedSums(lines: seq<Line>)
    ensures Sum(AskedDebit(), Image(SwapLine, lines)) == Sum(Credit(), lines)
    ensures Sum(AskedCredit(), Image(SwapLine, lines)) == Sum(Debit(), lines)
  {
    if |lines| > 0 {
      var n := |lines| - 1;
      SwappedSums(lines[..n]);
      assert Image(SwapLine, lines)[..n] == Image(SwapLine, lines[..n]);
    }
  }

  /** Swapped lines agree with flipped rows exactly when the originals do. */
  lemma SwappedAgree(accounts: seq<Account>, lines: seq<Line>, rows: seq<CashTxn>)
    ensures Agree(accounts, Image(Swapped, lines), Image(FlipRow, rows)) <==>
      && (forall i :: 0 <= i < |LiquidLines(accounts, lines)| ==> IsTagged(LiquidLines(accounts, lines)[i]))
      && multiset(Needs(LiquidLines(accounts, lines))) == multiset(Image(RowPair, rows))
  {
    var liquid := LiquidLines(accounts, lines);
    var swapped := LiquidLines(accounts, Image(Swapped, lines));
    SwappedLiquid(accounts, lines);
    hide LiquidLines;
    assert Needs(swapped) == Image(Negate, Needs(liquid));
    assert Offers(Image(FlipRow, rows)) == Image(Negate, Image(RowPair, rows));
    NegatedBags(Needs(liquid), Image(RowPair, rows));
    assert forall i :: 0 <= i < |liquid| ==> swapped[i].cashbox == liquid[i].cashbox;
  }

  /** Keys are never blank. */
  ghost predicate Keyed(db: Db) {
    && (forall i :: 0 <= i < |db.accounts| ==> db.accounts[i].id != "")
    && "" !in db.boxes
  }

  lemma ReversalValid(db: Db, refType: string, refId: RefId, o: nat, now: int)
    requires Inv(db) && Keyed(db) && o < |db.entries| && |db.entries[o].lines| >= 2
    ensures ValidateSpec(ReversalSpec(db, refType, refId, o, now)).None?
    ensures forall i :: 0 <= i < |db.entries[o].lines| ==> db.entries[o].lines[i].account != ""
  {
    var s, e := ReversalSpec(db, refType, refId, o, now), db.entries[o];
    assert EntrySane(db.accounts, db.boxes.Keys, e);
    forall i | 0 <= i < |e.lines| ensures e.lines[i].account != "" && LineError(s.lines[i]).None? {
      assert LineSane(db.accounts, db.boxes.Keys, e.lines[i]);
    }
    forall i | 0 <= i < |s.movements| ensures MovementError(s.movements[i]).None? {
      var t := RowsOf(db, refType, refId)[i];
      assert t in RowsOf(db, refType, refId) && t in db.cash;
      assert t.cashbox in db.boxes && t.amount > 0;
    }
  }

  /** No line stands on a personal account. Reversing lines do not carry the employee over, and
      the database refuses such a line without one. */
  ghost predicate Impersonal(accounts: seq<Account>, e: Entry) {
    forall i :: 0 <= i < |e.lines| ==> !IsPersonal(CodeOf(accounts, e.lines[i].account))
  }

  lemma ReversalKeys(db: Db, refType: string, refId: RefId, o: nat, now: int)
    requires Inv(db) && o < |db.entries|
    ensures KeysExist(db, Some(o), Kept(Image(Swapped, db.entries[o].lines))) <==> Impersonal(db.accounts, db.entries[o])
    ensures var moves := ReversalSpec(db, refType, refId, o, now).movements;
      forall i :: 0 <= i < |moves| ==> moves[i].cashbox in db.boxes
  {
    var s, e := ReversalSpec(db, refType, refId, o, now), db.entries[o];
    assert EntrySane(db.accounts, db.boxes.Keys, e);
    forall i | 0 <= i < |s.movements| ensures s.movements[i].cashbox in db.boxes {
      var t := RowsOf(db, refType, refId)[i];
      assert t in RowsOf(db, refType, refId) && t in db.cash;
    }
    forall i | 0 <= i < |e.lines|
      ensures IsNonzero()(Swapped(e.lines[i]))
      ensures LineKeys(db.accounts, db.boxes.Keys, Swapped(e.lines[i])) <==> !IsPersonal(CodeOf(db.accounts, e.lines[i].account))
    {
      assert LineSane(db.accounts, db.boxes.Keys, e.lines[i]);
    }
    AllKept(Image(Swapped, e.lines));
  }

  lemma {:induction false} AllKept(lines: seq<Line>)
    requires forall i :: 0 <= i < |lines| ==> IsNonzero()(lines[i])
    ensures Kept(lines) == lines
  {
    if |lines| > 0 {
      AllKept(lines[..|lines| - 1]);
    }
  }

  /** The engine accepts a reversal exactly when the cash rows found under the document
      are, as a bag, the liquid legs of the entry being reversed, and none of its lines is on
      a personal account. */
  lemma ReversalPostsIff(db: Db, refType: string, refId: RefId, o: nat, now: int)
    requires Inv(db) && Keyed(db)
    requires FindOriginal(db.entries, refType, refId) == Some(o)
    requires |db.entries[o].lines| >= 2 && Sum(Credit(), db.entries[o].lines) >= 1
    requires Open(db, "reversal", Journal(o))
    ensures var liquid := LiquidLines(db.accounts, db.entries[o].lines);
      Record(db, ReversalSpec(db, refType, refId, o, now)).1.Posted? <==>
        && Impersonal(db.accounts, db.entries[o]) && (forall i :: 0 <= i < |liquid| ==> IsTagged(liquid[i]))
        && multiset(EntryPairs(db.accounts, db.entries[o])) == multiset(Image(RowPair, RowsOf(db, refType, refId)))
  {
    hide Record, ValidateSpec, Inv, FindOriginal, Agree, LiquidLines, Sum, EntryPairs, RowsOf, KeysExist, ResolveAll, Open, Keyed;
    var e := db.entries[o];
    NearlyBalanced(db, o);
    ReversalValid(db, refType, refId, o, now);
    ReversalKeys(db, refType, refId, o, now);
    SwappedResolve(db, e.lines);
    SwappedSums(e.lines);
    PostsIffAgree(db, ReversalSpec(db, refType, refId, o, now), Image(Swapped, e.lines));
    SwappedAgree(db.accounts, e.lines, RowsOf(db, refType, refId));
    PairsAre(db.accounts, e);
  }

  lemma NearlyBalanced(db: Db, o: nat)
    requires Inv(db) && o < |db.entries|
    ensures Abs(Sum(Debit(), db.entries[o].lines) - Sum(Credit(), db.entries[o].lines)) <= 1
  {
    assert EntrySane(db.accounts, db.boxes.Keys, db.entries[o]);
  }

  lemma PairsAre(accounts: seq<Account>, e: Entry)
    ensures EntryPairs(accounts, e) == Needs(LiquidLines(accounts, e.lines))
  {
  }

  // ----- what post-then-reverse leaves -----

  /** The reversing entry stays live and the original is voided as well, so an accepted
      reversal moves every account by twice the original: it takes the original off and
      adds its mirror image. */
  lemma ReversalNet(db: Db, refType: string, refId: RefId, o: nat, now: int, account: AccountId)
    requires Inv(db) && Keyed(db) && o < |db.entries| && IsOriginal(db.entries[o], refType, refId)
    requires |db.entries[o].lines| >= 2
    requires Record(db, ReversalSpec(db, refType, refId, o, now)).1.Posted?
    ensures AccountNet(Record(db, ReversalSpec(db, refType, refId, o, now)).0, account)
         == AccountNet(db, account) - 2 * Effect(account, db.entries[o].lines)
  {
    var s := ReversalSpec(db, refType, refId, o, now);
    ReversalValid(db, refType, refId, o, now);
    var lines := PostedAccountNet(db, s, account);
    hide Record;
    SwappedResolve(db, db.entries[o].lines);
    SwappedEffect(account, db.entries[o].lines);
  }

  /** Posting and then reversing leaves each account short by the posting itself; it is
      back where it was exactly when the posting did not touch it on balance. */
  lemma PostThenReverse(db: Db, s: Spec, now: int, account: AccountId)
    requires Inv(db) && Keyed(db) && Record(db, s).1.Posted? && s.reversalOf.None?
    requires |Record(db, s).0.entries[Record(db, s).1.entry].lines| >= 2
    requires Record(Record(db, s).0, ReversalSpec(Record(db, s).0, s.refType, s.refId, Record(db, s).1.entry, now)).1.Posted?
    ensures var posted, e := Record(db, s).0, Record(db, s).1.entry;
      var reversed := Record(posted, ReversalSpec(posted, s.refType, s.refId, e, now)).0;
      var effect := Effect(account, posted.entries[e].lines);
      && AccountNet(reversed, account) == AccountNet(db, account) - effect
      && (AccountNet(reversed, account) == AccountNet(db, account) <==> effect == 0)
  {
    hide Record, Inv;
    var lines := PostedEntry(db, s);
    SumKeep(NetOn(account), IsNonzero(), lines);
    var booked := PostedAccountNet(db, s, account);
    ReversalNet(Record(db, s).0, s.refType, s.refId, Record(db, s).1.entry, now, account);
  }

  // ----- the cash side of the same story -----

  function LinesLeg(accounts: seq<Account>, box: CashboxId, lines: seq<Line>): Cents { Sum(LegOn(accounts, box), lines) }

  lemma PostedLiveLegs(db: Db, s: Spec, box: CashboxId) returns (lines: seq<Line>)
    requires Record(db, s).1.Posted?
    ensures ResolveAll(db, s.lines) == Some(lines)
    ensures s.reversalOf.Some? ==> s.reversalOf.value < |db.entries|
    ensures LegNet(Record(db, s).0, box, Live, Everything())
         == LegNet(db, box, Live, Everything()) + LinesLeg(db.accounts, box, lines)
          - (if s.reversalOf.Some? && !db.entries[s.reversalOf.value].isVoid
             then EntryLeg(db.accounts, box, db.entries[s.reversalOf.value]) else 0)
  {
    hide Record, LegsOf, Judge, ValidateSpec, PaySpec;
    var paid;
    paid, lines := PostedFacts(db, s);
    ResolveAllFrame(db, paid, s.lines);
    var e := NewEntry(s, lines);
    VoidingLiveLegs(db.accounts, paid.entries, s.reversalOf, box);
    SumSnoc(LegsOf(db.accounts, box, Live, Everything()), VoidOriginal(paid.entries, s.reversalOf), e);
    LiveLeg(db.accounts, box, e);
    KeptLeg(db.accounts, box, lines);
  }

  /** An accepted guarded call moves each cashbox by exactly what it books there. */
  lemma PostedCash(db: Db, s: Spec, box: CashboxId) returns (lines: seq<Line>)
    requires Record(db, s).1.Posted? && !s.accountingOnly
    ensures ResolveAll(db, s.lines) == Some(lines)
    ensures CashNet(Record(db, s).0, box, Everything()) == CashNet(db, box, Everything()) + LinesLeg(db.accounts, box, lines)
  {
    hide Record, Judge, ValidateSpec, MapToEntityType;
    var paid;
    paid, lines := PostedFacts(db, s);
    ResolveAllFrame(db, paid, s.lines);
    PayAllNet(db, s.movements, MapToEntityType(s.refType), s.refId, s.now, box, Everything());
    GuardDecidesAgreement(db.accounts, lines, s.movements);
    AgreementConservesCash(db.accounts, lines, s.movements, box);
    assert CashNet(Post(paid, s, lines), box, Everything()) == CashNet(paid, box, Everything());
  }

  lemma {:induction false} SwappedLeg(accounts: seq<Account>, box: CashboxId, lines: seq<Line>)
    ensures LinesLeg(accounts, box, Image(Swapped, lines)) == -LinesLeg(accounts, box, lines)
  {
    if |lines| > 0 {
      var n := |lines| - 1;
      SwappedLeg(accounts, box, lines[..n]);
      assert Image(Swapped, lines)[..n] == Image(Swapped, lines[..n]);
    }
  }

  /** What the tables hold right after an accepted call. */
  lemma PostedEntry(db: Db, s: Spec) returns (lines: seq<Line>)
    requires Inv(db) && Record(db, s).1.Posted? && s.reversalOf.None?
    ensures var posted, e := Record(db, s).0, Record(db, s).1.entry;
      && e < |posted.entries| && posted.accounts == db.accounts && posted.boxes.Keys == db.boxes.Keys
      && Inv(posted) && posted.entries[e].lines == Kept(lines) && IsOriginal(posted.entries[e], s.refType, s.refId)
    ensures ResolveAll(db, s.lines) == Some(lines)
  {
    hide Record, Judge, ValidateSpec, PaySpec;
    var paid;
    paid, lines := PostedFacts(db, s);
    ResolveAllFrame(db, paid, s.lines);
    RecordKeeps(db, s);
    assert Post(paid, s, lines).entries[|db.entries|] == NewEntry(s, lines);
  }

  lemma ReversalCash(db: Db, refType: string, refId: RefId, o: nat, now: int, box: CashboxId)
    requires Inv(db) && Keyed(db) && o < |db.entries| && IsOriginal(db.entries[o], refType, refId)
    requires |db.entries[o].lines| >= 2
    requires Record(db, ReversalSpec(db, refType, refId, o, now)).1.Posted?
    ensures var reversed, leg := Record(db, ReversalSpec(db, refType, refId, o, now)).0, EntryLeg(db.accounts, box, db.entries[o]);
      && CashNet(reversed, box, Everything()) == CashNet(db, box, Everything()) - leg
      && LegNet(reversed, box, Live, Everything()) == LegNet(db, box, Live, Everything()) - 2 * leg
  {
    var r := ReversalSpec(db, refType, refId, o, now);
    hide Record;
    ReversalValid(db, refType, refId, o, now);
    SwappedResolve(db, db.entries[o].lines);
    SwappedLeg(db.accounts, box, db.entries[o].lines);
    var lines := PostedCash(db, r, box);
    lines := PostedLiveLegs(db, r, box);
  }

  /** The same reversal restores every cashbox to the cent, so what it leaves is drift: each
      cashbox's drift grows by the leg of the voided posting. */
  lemma PostThenReverseCash(db: Db, s: Spec, now: int, box: CashboxId)
    requires Inv(db) && Keyed(db) && Record(db, s).1.Posted? && s.reversalOf.None? && !s.accountingOnly
    requires |Record(db, s).0.entries[Record(db, s).1.entry].lines| >= 2
    requires Record(Record(db, s).0, ReversalSpec(Record(db, s).0, s.refType, s.refId, Record(db, s).1.entry, now)).1.Posted?
    ensures var posted, e := Record(db, s).0, Record(db, s).1.entry;
      var reversed := Record(posted, ReversalSpec(posted, s.refType, s.refId, e, now)).0;
      && CashNet(reversed, box, Everything()) == CashNet(db, box, Everything())
      && Drift(reversed, box) == Drift(db, box) + EntryLeg(db.accounts, box, posted.entries[e])
  {
    hide Record, Inv;
    var lines := PostedEntry(db, s);
    KeptLeg(db.accounts, box, lines);
    var booked := PostedCash(db, s, box);
    booked := PostedLiveLegs(db, s, box);
    ReversalCash(Record(db, s).0, s.refType, s.refId, Record(db, s).1.entry, now, box);
  }
}
