/**
 Document by document, the cash rows and the journal agree: under every reference tag the
 bag of cash rows is the bag of liquid legs, live or void. From this follow when a document
 can be reversed and why the movement trace finds nothing to flag.
 */
module References {
  import opened Sums
  import opened Ledger
  import opened Alignment
  import opened Engine
  import opened Runs
  import opened Recipes
  import opened Reversal

  function RowPairs(db: Db, entity: string, refId: RefId): seq<Pair> { Image(RowPair, RowsOf(db, entity, refId)) }

  /** Whether cash posted with the entry carries this tag. */
  predicate TagsAs(e: Entry, entity: string, refId: RefId) { MapToEntityType(e.refType) == entity && e.refId == refId }

  function DocPairs(accounts: seq<Account>, entries: seq<Entry>, entity: string, refId: RefId): seq<Pair> {
    if |entries| == 0 then []
    else
      var n := |entries| - 1;
      DocPairs(accounts, entries[..n], entity, refId)
      + if TagsAs(entries[n], entity, refId) then EntryPairs(accounts, entries[n]) else []
  }

  /** Cash rows and legs under one tag agree as bags. */
  ghost predicate TagAgrees(db: Db, entity: string, refId: RefId) {
    multiset(RowPairs(db, entity, refId)) == multiset(DocPairs(db.accounts, db.entries, entity, refId))
  }

  // ----- one call -----

  lemma PayRows(db: Db, m: Movement, entity: string, refId: RefId, now: int, t: string, id: RefId)
    requires m.cashbox in db.boxes
    ensures RowPairs(Pay(db, m, entity, refId, now), t, id)
         == RowPairs(db, t, id) + if entity == t && refId == id then [OfferOf(m)] else []
  {
    var d := Pay(db, m, entity, refId, now);
    var row := d.cash[|db.cash|];
    KeepSnoc(TaggedWith(t, id), db.cash, row);
    if entity == t && refId == id {
      assert RowPair(row) == OfferOf(m);
      assert RowsOf(d, t, id) == RowsOf(db, t, id) + [row];
    } else {
      assert RowsOf(d, t, id) == RowsOf(db, t, id);
    }
  }

  lemma OffersSnoc(moves: seq<Movement>)
    requires |moves| > 0
    ensures Offers(moves) == Offers(moves[..|moves| - 1]) + [OfferOf(moves[|moves| - 1])]
  {
  }

  lemma {:induction false} PayAllRows(db: Db, moves: seq<Movement>, entity: string, refId: RefId, now: int, t: string, id: RefId)
    requires PayAll(db, moves, entity, refId, now).1
    ensures RowPairs(PayAll(db, moves, entity, refId, now).0, t, id)
         == RowPairs(db, t, id) + if entity == t && refId == id then Offers(moves) else []
  {
    if |moves| > 0 {
      hide RowPairs, Pay;
      var n := |moves| - 1;
      var front := PayAll(db, moves[..n], entity, refId, now).0;
      PayAllRows(db, moves[..n], entity, refId, now, t, id);
      PayRows(front, moves[n], entity, refId, now, t, id);
      OffersSnoc(moves);
      var old_, mid, last := RowPairs(db, t, id), Offers(moves[..n]), [OfferOf(moves[n])];
      assert (old_ + mid) + last == old_ + (mid + last);
      assert old_ + [] + [] == old_ + [];
    } else {
      assert Offers(moves) == [];
    }
  }

  lemma VoidPairs(accounts: seq<Account>, e: Entry, t: string, id: RefId)
    ensures EntryPairs(accounts, e.(isVoid := true)) == EntryPairs(accounts, e)
    ensures TagsAs(e.(isVoid := true), t, id) == TagsAs(e, t, id)
  {
  }

  lemma {:induction false} DocPairsSame(accounts: seq<Account>, e: seq<Entry>, e': seq<Entry>, t: string, id: RefId)
    requires |e| == |e'|
    requires forall i :: 0 <= i < |e| ==> EntryPairs(accounts, e[i]) == EntryPairs(accounts, e'[i]) && TagsAs(e[i], t, id) == TagsAs(e'[i], t, id)
    ensures DocPairs(accounts, e, t, id) == DocPairs(accounts, e', t, id)
  {
    hide EntryPairs, TagsAs;
    if |e| > 0 {
      DocPairsSame(accounts, e[..|e| - 1], e'[..|e| - 1], t, id);
    }
  }

  lemma VoidingDocPairs(accounts: seq<Account>, entries: seq<Entry>, original: Option<nat>, t: string, id: RefId)
    ensures DocPairs(accounts, VoidOriginal(entries, original), t, id) == DocPairs(accounts, entries, t, id)
  {
    var v := VoidOriginal(entries, original);
    hide EntryPairs, TagsAs, DocPairs;
    forall i | 0 <= i < |entries| ensures EntryPairs(accounts, v[i]) == EntryPairs(accounts, entries[i]) && TagsAs(v[i], t, id) == TagsAs(entries[i], t, id) {
      VoidPairs(accounts, entries[i], t, id);
    }
    DocPairsSame(accounts, v, entries, t, id);
  }

  /** Agreement with positive movements leaves no zero line on a liquid account. */
  lemma LiquidIsKept(accounts: seq<Account>, lines: seq<Line>, moves: seq<Movement>)
    requires Agree(accounts, lines, moves) && forall i :: 0 <= i < |moves| ==> moves[i].amount > 0
    ensures LiquidLines(accounts, Kept(lines)) == LiquidLines(accounts, lines)
  {
    var liquid := LiquidLines(accounts, lines);
    forall l | l in liquid ensures IsNonzero()(l) {
      var i :| 0 <= i < |liquid| && liquid[i] == l;
      assert Needs(liquid)[i] in multiset(Needs(liquid));
      assert Needs(liquid)[i] in multiset(Offers(moves));
      var k :| 0 <= k < |moves| && Offers(moves)[k] == NeedOf(l);
    }
    KeepTwice(OnLiquid(accounts), IsNonzero(), lines);
  }

  lemma {:induction false} KeepTwice<T>(p: T -> bool, q: T -> bool, s: seq<T>)
    requires forall x :: x in Keep(p, s) ==> q(x)
    ensures Keep(p, Keep(q, s)) == Keep(p, s)
  {
    if |s| > 0 {
      var n := |s| - 1;
      var x, front := s[n], s[..n];
      KeepTwice(p, q, front);
      KeepSnoc(p, Keep(q, front), x);
      if p(x) {
        assert x in Keep(p, s);
        assert Keep(q, s) == Keep(q, front) + [x];
      } else if q(x) {
        assert Keep(q, s) == Keep(q, front) + [x];
        assert Keep(p, s) == Keep(p, front);
        assert Keep(p, Keep(q, front)) + [] == Keep(p, Keep(q, front));
      } else {
        assert Keep(q, s) == Keep(q, front) && Keep(p, s) == Keep(p, front);
      }
    }
  }

  /** Calls that book all the cash they move. */
  predicate Booked(c: Call) { c.RecordCall? && Guarded(c) }

  function OwnPairs(accounts: seq<Account>, e: Entry, t: string, id: RefId): multiset<Pair> {
    if TagsAs(e, t, id) then multiset(EntryPairs(accounts, e)) else multiset{}
  }

  lemma DocPairsSnoc(accounts: seq<Account>, entries: seq<Entry>, t: string, id: RefId)
    requires |entries| > 0
    ensures multiset(DocPairs(accounts, entries, t, id))
         == multiset(DocPairs(accounts, entries[..|entries| - 1], t, id)) + OwnPairs(accounts, entries[|entries| - 1], t, id)
  {
  }

  lemma SameRows(d: Db, db: Db, t: string, id: RefId)
    requires d.cash == db.cash
    ensures RowPairs(d, t, id) == RowPairs(db, t, id)
  {
  }

  lemma NewEntryPairs(accounts: seq<Account>, s: Spec, lines: seq<Line>)
    requires Passes(Judge(accounts, lines, s.movements, false)) && FirstMovementError(s.movements).None?
    ensures multiset(EntryPairs(accounts, NewEntry(s, lines))) == multiset(Offers(s.movements))
  {
    GuardDecidesAgreement(accounts, lines, s.movements);
    forall i | 0 <= i < |s.movements| ensures s.movements[i].amount > 0 {
      assert MovementError(s.movements[i]).None?;
    }
    LiquidIsKept(accounts, lines, s.movements);
  }

  /** What a posting adds to the legs under a tag: its offers, if the tag is its own. */
  lemma PostedDocs(db: Db, s: Spec, t: string, id: RefId)
    requires Record(db, s).1.Posted? && !s.accountingOnly
    ensures multiset(DocPairs(db.accounts, Record(db, s).0.entries, t, id))
         == multiset(DocPairs(db.accounts, db.entries, t, id))
          + if MapToEntityType(s.refType) == t && s.refId == id then multiset(Offers(s.movements)) else multiset{}
  {
    hide Record, Judge, EntryPairs, MapToEntityType, DocPairs, Offers;
    var paid, lines := PostedFacts(db, s);
    var d, e := Post(paid, s, lines), NewEntry(s, lines);
    VoidingDocPairs(db.accounts, paid.entries, s.reversalOf, t, id);
    NewEntryPairs(db.accounts, s, lines);
    assert d.entries[..|d.entries| - 1] == VoidOriginal(paid.entries, s.reversalOf);
    DocPairsSnoc(db.accounts, d.entries, t, id);
  }

  /** What it adds to the rows under the tag. */
  lemma PostedRows(db: Db, s: Spec, t: string, id: RefId)
    requires Record(db, s).1.Posted?
    ensures multiset(RowPairs(Record(db, s).0, t, id))
         == multiset(RowPairs(db, t, id))
          + if MapToEntityType(s.refType) == t && s.refId == id then multiset(Offers(s.movements)) else multiset{}
  {
    hide Record, Judge, MapToEntityType, RowPairs, ValidateSpec, Offers;
    var paid, lines := PostedFacts(db, s);
    PayAllRows(db, s.movements, MapToEntityType(s.refType), s.refId, s.now, t, id);
    SameRows(Post(paid, s, lines), paid, t, id);
  }

  lemma PostedTags(db: Db, s: Spec, t: string, id: RefId)
    requires Record(db, s).1.Posted? && !s.accountingOnly && TagAgrees(db, t, id)
    ensures TagAgrees(Record(db, s).0, t, id)
  {
    hide Record, DocPairs, RowPairs, MapToEntityType, Offers;
    var _ := RecordCases(db, s);
    PostedDocs(db, s, t, id);
    PostedRows(db, s, t, id);
  }

  lemma StepTags(db: Db, c: Call, t: string, id: RefId)
    requires Booked(c) && TagAgrees(db, t, id) && !Step(db, c).1.Rejected?
    ensures TagAgrees(Step(db, c).0, t, id)
  {
    var s := c.spec;
    if Record(db, s).1.Posted? {
      PostedTags(db, s, t, id);
    } else if Record(db, s).1.ZeroValue? {
      AskedIsResolved(PaySpec(db, s).0, s.lines);
      assert |s.movements| == 0;
    }
  }

  lemma {:induction false} AttemptTags(db: Db, calls: seq<Call>, t: string, id: RefId)
    requires (forall i :: 0 <= i < |calls| ==> Booked(calls[i])) && TagAgrees(db, t, id) && Attempt(db, calls).1
    ensures TagAgrees(Attempt(db, calls).0, t, id)
  {
    if |calls| > 0 {
      var n := |calls| - 1;
      AttemptTags(db, calls[..n], t, id);
      StepTags(Attempt(db, calls[..n]).0, calls[n], t, id);
    }
  }

  predicate RunBooked(work: seq<seq<Call>>) {
    forall i :: 0 <= i < |work| ==> forall j :: 0 <= j < |work[i]| ==> Booked(work[i][j])
  }

  /** Every run of booked calls from empty books agrees under every tag. */
  lemma {:induction false} RunTags(db: Db, work: seq<seq<Call>>, t: string, id: RefId)
    requires Fresh(db) && RunBooked(work)
    ensures TagAgrees(Run(db, work), t, id)
  {
    if |work| > 0 {
      var n := |work| - 1;
      RunTags(db, work[..n], t, id);
      if Attempt(Run(db, work[..n]), work[n]).1 {
        AttemptTags(Run(db, work[..n]), work[n], t, id);
      }
    }
  }

  // ----- every leg is tagged -----

  ghost predicate LegsTagged(accounts: seq<Account>, e: Entry) {
    var liquid := LiquidLines(accounts, e.lines);
    forall i :: 0 <= i < |liquid| ==> IsTagged(liquid[i])
  }

  ghost predicate AllLegsTagged(db: Db) {
    forall i :: 0 <= i < |db.entries| ==> LegsTagged(db.accounts, db.entries[i])
  }

  lemma PostedLegsTagged(db: Db, s: Spec)
    requires Record(db, s).1.Posted? && !s.accountingOnly && AllLegsTagged(db)
    ensures AllLegsTagged(Record(db, s).0)
  {
    hide Record, Judge, PaySpec, MapToEntityType;
    var paid, lines := PostedFacts(db, s);
    GuardDecidesAgreement(db.accounts, lines, s.movements);
    forall i | 0 <= i < |s.movements| ensures s.movements[i].amount > 0 {
      assert MovementError(s.movements[i]).None?;
    }
    LiquidIsKept(db.accounts, lines, s.movements);
    var d := Post(paid, s, lines);
    forall i | 0 <= i < |d.entries| ensures LegsTagged(d.accounts, d.entries[i]) {
      if i < |db.entries| {
        assert LegsTagged(db.accounts, db.entries[i]) && d.entries[i].lines == db.entries[i].lines;
      }
    }
  }

  lemma StepLegsTagged(db: Db, c: Call)
    requires Booked(c) && AllLegsTagged(db)
    ensures AllLegsTagged(Step(db, c).0)
  {
    hide Record, LegsTagged;
    if Record(db, c.spec).1.Posted? {
      PostedLegsTagged(db, c.spec);
    } else {
      var _ := RecordCases(db, c.spec);
    }
  }

  lemma {:induction false} AttemptLegsTagged(db: Db, calls: seq<Call>)
    requires (forall i :: 0 <= i < |calls| ==> Booked(calls[i])) && AllLegsTagged(db)
    ensures AllLegsTagged(Attempt(db, calls).0)
  {
    hide Step, AllLegsTagged, Booked;
    if |calls| > 0 {
      AttemptLegsTagged(db, calls[..|calls| - 1]);
      StepLegsTagged(Attempt(db, calls[..|calls| - 1]).0, calls[|calls| - 1]);
    }
  }

  lemma {:induction false} RunLegsTagged(db: Db, work: seq<seq<Call>>)
    requires Fresh(db) && RunBooked(work)
    ensures AllLegsTagged(Run(db, work))
  {
    if |work| > 0 {
      var n := |work| - 1;
      RunLegsTagged(db, work[..n]);
      if Attempt(Run(db, work[..n]), work[n]).1 {
        AttemptLegsTagged(Run(db, work[..n]), work[n]);
      }
    }
  }

  // ----- which documents can be reversed -----

  ghost predicate OthersHaveNoLegs(accounts: seq<Account>, entries: seq<Entry>, o: nat, t: string, id: RefId) {
    forall i :: 0 <= i < |entries| && i != o && TagsAs(entries[i], t, id) ==> |EntryPairs(accounts, entries[i])| == 0
  }

  function PairCount(accounts: seq<Account>, e: Entry, t: string, id: RefId): nat {
    if TagsAs(e, t, id) then |EntryPairs(accounts, e)| else 0
  }

  lemma {:induction false} DocPairsEmpty(accounts: seq<Account>, entries: seq<Entry>, t: string, id: RefId)
    ensures |DocPairs(accounts, entries, t, id)| == 0 <==>
      forall i :: 0 <= i < |entries| ==> PairCount(accounts, entries[i], t, id) == 0
  {
    hide EntryPairs, TagsAs;
    if |entries| > 0 {
      var n := |entries| - 1;
      DocPairsEmpty(accounts, entries[..n], t, id);
      assert |DocPairs(accounts, entries, t, id)| == |DocPairs(accounts, entries[..n], t, id)| + PairCount(accounts, entries[n], t, id);
      assert forall i :: 0 <= i < n ==> entries[..n][i] == entries[i];
    }
  }

  lemma BagsCommute(a: multiset<Pair>, b: multiset<Pair>, c: multiset<Pair>)
    ensures a + b == b + a && (a + b) + c == a + (b + c)
  {
  }

  function Without(entries: seq<Entry>, o: nat): seq<Entry>
    requires o < |entries|
  {
    entries[..o] + entries[o + 1..]
  }

  lemma WithoutSnoc(entries: seq<Entry>, o: nat)
    requires o < |entries| - 1
    ensures var n := |entries| - 1;
      && |Without(entries, o)| == n
      && Without(entries, o)[..n - 1] == Without(entries[..n], o)
      && Without(entries, o)[n - 1] == entries[n]
  {
  }

  /** The document's pairs are the pairs of entry `o` and those of the other entries. */
  lemma {:induction false} DocPairsAround(accounts: seq<Account>, entries: seq<Entry>, o: nat, t: string, id: RefId)
    requires o < |entries| && TagsAs(entries[o], t, id)
    ensures multiset(DocPairs(accounts, entries, t, id))
         == multiset(EntryPairs(accounts, entries[o])) + multiset(DocPairs(accounts, Without(entries, o), t, id))
    decreases |entries|
  {
    var n := |entries| - 1;
    DocPairsSnoc(accounts, entries, t, id);
    if o == n {
      assert Without(entries, o) == entries[..n];
    } else {
      WithoutSnoc(entries, o);
      DocPairsAround(accounts, entries[..n], o, t, id);
      DocPairsSnoc(accounts, Without(entries, o), t, id);
      hide *;
      var mine, rest := multiset(EntryPairs(accounts, entries[o])), multiset(DocPairs(accounts, Without(entries[..n], o), t, id));
      var last := OwnPairs(accounts, entries[n], t, id);
      assert multiset(DocPairs(accounts, entries, t, id)) == (mine + rest) + last;
      assert multiset(DocPairs(accounts, Without(entries, o), t, id)) == rest + last;
      BagsCommute(mine, rest, last);
    }
  }

  lemma OthersEmpty(accounts: seq<Account>, entries: seq<Entry>, o: nat, t: string, id: RefId)
    requires o < |entries|
    ensures |DocPairs(accounts, Without(entries, o), t, id)| == 0 <==> OthersHaveNoLegs(accounts, entries, o, t, id)
  {
    hide EntryPairs, TagsAs;
    var others := Without(entries, o);
    DocPairsEmpty(accounts, others, t, id);
    assert forall i :: 0 <= i < o ==> others[i] == entries[i];
    assert forall i :: o < i < |entries| ==> others[i - 1] == entries[i];
    assert forall i :: 0 <= i < |entries| && i != o && TagsAs(entries[i], t, id) ==>
      PairCount(accounts, entries[i], t, id) == |EntryPairs(accounts, entries[i])|;
    if OthersHaveNoLegs(accounts, entries, o, t, id) {
      forall k | 0 <= k < |others| ensures PairCount(accounts, others[k], t, id) == 0 {
        var i := if k < o then k else k + 1;
        assert others[k] == entries[i];
      }
    }
  }

  /** A document whose cash rows carry its own tag can be reversed exactly when no line of it is
      on a personal account and no other entry under that tag, live or void, has a leg: once a cash document has been
      reversed and posted again, its second reversal is always refused. */
  lemma ReversibleIff(db: Db, t: string, id: RefId, o: nat, now: int)
    requires Inv(db) && Keyed(db) && TagAgrees(db, t, id) && MapToEntityType(t) == t
    requires FindOriginal(db.entries, t, id) == Some(o)
    requires |db.entries[o].lines| >= 2 && Sum(Credit(), db.entries[o].lines) >= 1
    requires Open(db, "reversal", Journal(o))
    ensures Record(db, ReversalSpec(db, t, id, o, now)).1.Posted? <==>
      Impersonal(db.accounts, db.entries[o]) && LegsTagged(db.accounts, db.entries[o]) && OthersHaveNoLegs(db.accounts, db.entries, o, t, id)
  {
    ReversalPostsIff(db, t, id, o, now);
    hide Record, Inv;
    hide DocPairs, EntryPairs, RowPairs, LiquidLines;
    DocPairsAround(db.accounts, db.entries, o, t, id);
    OthersEmpty(db.accounts, db.entries, o, t, id);
    var mine, rest := multiset(EntryPairs(db.accounts, db.entries[o])),
                      DocPairs(db.accounts, Without(db.entries, o), t, id);
    assert mine == mine + multiset(rest) <==> |rest| == 0 by {
      assert |mine + multiset(rest)| == |mine| + |rest|;
    }
  }

  lemma {:induction false} NoRowsOutsideTaxonomy(cash: seq<CashTxn>, t: string, id: RefId)
    requires forall i :: 0 <= i < |cash| ==> cash[i].entity != t
    ensures Keep(TaggedWith(t, id), cash) == []
  {
    if |cash| > 0 {
      NoRowsOutsideTaxonomy(cash[..|cash| - 1], t, id);
    }
  }

  /** The lookup uses the raw reference type, but rows carry the mapped one: a document type
      outside the taxonomy can be reversed exactly when its entry has no cash leg and no line
      on a personal account. */
  lemma AliasedReversibleIff(db: Db, t: string, id: RefId, o: nat, now: int)
    requires Inv(db) && Keyed(db) && t !in ENTITY_TYPES
    requires FindOriginal(db.entries, t, id) == Some(o)
    requires |db.entries[o].lines| >= 2 && Sum(Credit(), db.entries[o].lines) >= 1
    requires Open(db, "reversal", Journal(o))
    ensures Record(db, ReversalSpec(db, t, id, o, now)).1.Posted? <==>
      Impersonal(db.accounts, db.entries[o]) && |EntryPairs(db.accounts, db.entries[o])| == 0
  {
    ReversalPostsIff(db, t, id, o, now);
    hide Record;
    NoRowsOutsideTaxonomy(db.cash, t, id);
    var pairs := EntryPairs(db.accounts, db.entries[o]);
    assert RowPairs(db, t, id) == [];
    assert |pairs| > 0 ==> pairs[0] in multiset(pairs);
  }
}
