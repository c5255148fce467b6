/**
 The two drift views and the cancel-aware correction applied on top of them.

 The views take a voided entry back in when a live entry reverses it and a live
 replacement exists for the same document. The helper then subtracts, per cashbox, the
 rows of the per-reference view that belong to cancelled returns.
 */
module DriftViews {
  import opened Sums
  import opened Ledger
  import opened Alignment
  import opened Engine
  import opened Runs
  import opened References

  type Key = (string, RefId)

  datatype Return = Return(id: string, cancelled: bool, cashbox: Option<CashboxId>)

  // ----- the predicate shared by both views -----

  ghost predicate HasLiveReversal(entries: seq<Entry>, i: nat) {
    exists r :: 0 <= r < |entries| && entries[r].reversalOf == Some(i) && !entries[r].isVoid
  }

  ghost predicate HasLiveSuccessor(entries: seq<Entry>, i: nat)
    requires i < |entries|
  {
    exists r :: 0 <= r < |entries| && r != i && IsReplacement(entries[r], entries[i])
  }

  predicate IsReplacement(r: Entry, e: Entry) {
    r.refType == e.refType && r.refId == e.refId && !r.isVoid && r.reversalOf.None?
  }

  ghost predicate Included(entries: seq<Entry>, i: nat)
    requires i < |entries|
  {
    !entries[i].isVoid || (HasLiveReversal(entries, i) && HasLiveSuccessor(entries, i))
  }

  // ----- the cashbox view -----

  ghost function IncludedTagged(entries: seq<Entry>, box: CashboxId): nat -> int {
    (i: nat) => if i < |entries| && Included(entries, i) then Sum(TaggedOn(box), entries[i].lines) else 0
  }

  /** `v_cashbox_gl_drift`: stored balance less every included line tagged with the box. */
  ghost function HeaderDrift(db: Db, box: CashboxId): Cents
    requires box in db.boxes
  {
    db.boxes[box].balance - Sum(IncludedTagged(db.entries, box), Range(0, |db.entries|))
  }

  // ----- the per-reference view -----

  /** Codes matching '111_'. */
  predicate IsCashMirror(code: string) { |code| == 4 && code[..3] == "111" }

  function MirrorOn(accounts: seq<Account>, box: CashboxId): Line -> int {
    (l: Line) =>
      if l.cashbox == Some(box) && IsCashMirror(CodeOf(accounts, l.account)) then l.debit - l.credit else 0
  }

  function HasMirror(accounts: seq<Account>, box: CashboxId, lines: seq<Line>): bool {
    exists k :: 0 <= k < |lines| && lines[k].cashbox == Some(box) && IsCashMirror(CodeOf(accounts, lines[k].account))
  }

  predicate OnKey(box: CashboxId, key: Key, t: CashTxn) {
    !t.isVoid && t.cashbox == box && (t.entity, t.refId) == key
  }

  ghost predicate CtCovers(db: Db, box: CashboxId, key: Key) {
    exists k :: 0 <= k < |db.cash| && OnKey(box, key, db.cash[k])
  }

  ghost predicate JeCovers(db: Db, box: CashboxId, key: Key) {
    exists i :: 0 <= i < |db.entries| && (db.entries[i].refType, db.entries[i].refId) == key
      && Included(db.entries, i) && HasMirror(db.accounts, box, db.entries[i].lines)
  }

  function KeyCash(box: CashboxId, key: Key): CashTxn -> int {
    (t: CashTxn) => if OnKey(box, key, t) then Signed(t.direction, t.amount) else 0
  }

  ghost function KeyJournal(db: Db, box: CashboxId, key: Key): nat -> int {
    (i: nat) =>
      if i < |db.entries| && (db.entries[i].refType, db.entries[i].refId) == key && Included(db.entries, i)
      then Sum(MirrorOn(db.accounts, box), db.entries[i].lines) else 0
  }

  ghost function RowDrift(db: Db, box: CashboxId, key: Key): Cents {
    Sum(KeyCash(box, key), db.cash) - Sum(KeyJournal(db, box, key), Range(0, |db.entries|))
  }

  /** One-sided rows are always listed, two-sided ones only beyond a cent. */
  ghost predicate Listed(db: Db, box: CashboxId, key: Key) {
    CtCovers(db, box, key) != JeCovers(db, box, key)
    || (CtCovers(db, box, key) && Abs(RowDrift(db, box, key)) > 1)
  }

  /** The distinct tags in order of first appearance. */
  function Distinct<T(==,!new)>(s: seq<T>): (r: seq<T>)
    ensures forall x :: x in r <==> x in s
    ensures forall i, j :: 0 <= i < j < |r| ==> r[i] != r[j]
  {
    if |s| == 0 then []
    else
      var front, x := Distinct(s[..|s| - 1]), s[|s| - 1];
      assert s == s[..|s| - 1] + [x];
      if x in front then front else front + [x]
  }

  function CashKey(t: CashTxn): Key { (t.entity, t.refId) }

  function EntryKey(e: Entry): Key { (e.refType, e.refId) }

  /** Every key the view could group by. */
  function Keys(db: Db): seq<Key> {
    Distinct(Image(CashKey, db.cash) + Image(EntryKey, db.entries))
  }

  // ----- the cancelled-return cluster -----

  predicate CancelledAt(rets: seq<Return>, id: RefId, box: CashboxId) {
    exists k :: 0 <= k < |rets| && rets[k].cancelled && rets[k].cashbox == Some(box) && id == Document(rets[k].id)
  }

  /** The return itself, and the reversal of any of its entries on either side. */
  predicate InCluster(entries: seq<Entry>, rets: seq<Return>, box: CashboxId, key: Key) {
    || (key.0 == "return" && CancelledAt(rets, key.1, box))
    || ((key.0 == "other" || key.0 == "reversal") && key.1.Journal? && key.1.entry < |entries|
        && entries[key.1.entry].refType == "return" && CancelledAt(rets, entries[key.1.entry].refId, box))
  }

  ghost function ClusterRow(db: Db, rets: seq<Return>, box: CashboxId): Key -> int {
    (key: Key) =>
      if InCluster(db.entries, rets, box, key) && Listed(db, box, key) then RowDrift(db, box, key) else 0
  }

  /** `clusterDriftOffsetByCashbox` for one cashbox. */
  ghost function ClusterOffset(db: Db, rets: seq<Return>, box: CashboxId): Cents {
    Sum(ClusterRow(db, rets, box), Keys(db))
  }

  /** `getGlDrift`: the header figure less the offset. */
  ghost function AdjustedDrift(db: Db, rets: seq<Return>, box: CashboxId): Cents
    requires box in db.boxes
  {
    HeaderDrift(db, box) - ClusterOffset(db, rets, box)
  }

  // ----- rows partition the ledger -----

  function ScopeOf(entries: seq<Entry>, rets: seq<Return>, box: CashboxId): Scope {
    (t: string, id: RefId) => InCluster(entries, rets, box, (t, id))
  }

  function CashCell(entries: seq<Entry>, rets: seq<Return>, box: CashboxId): (Key, CashTxn) -> int {
    (key: Key, t: CashTxn) => if InCluster(entries, rets, box, key) then KeyCash(box, key)(t) else 0
  }

  ghost function JournalCell(db: Db, rets: seq<Return>, box: CashboxId): (Key, nat) -> int {
    (key: Key, i: nat) => if InCluster(db.entries, rets, box, key) then KeyJournal(db, box, key)(i) else 0
  }

  ghost function ClusterJournal(db: Db, rets: seq<Return>, box: CashboxId): nat -> int {
    (i: nat) =>
      if i < |db.entries| && InCluster(db.entries, rets, box, EntryKey(db.entries[i])) && Included(db.entries, i)
      then Sum(MirrorOn(db.accounts, box), db.entries[i].lines) else 0
  }

  lemma {:induction false} SumScaled<T>(f: T -> int, g: T -> int, on: bool, s: seq<T>)
    requires forall i :: 0 <= i < |s| ==> f(s[i]) == if on then g(s[i]) else 0
    ensures Sum(f, s) == if on then Sum(g, s) else 0
  {
    if |s| > 0 {
      SumScaled(f, g, on, s[..|s| - 1]);
    }
  }

  lemma KeysCover(db: Db, k: nat) returns (j: nat)
    requires k < |db.cash|
    ensures j < |Keys(db)| && Keys(db)[j] == CashKey(db.cash[k])
  {
    var all := Image(CashKey, db.cash) + Image(EntryKey, db.entries);
    assert all[k] == CashKey(db.cash[k]) && all[k] in all;
    assert all[k] in Keys(db);
    j :| 0 <= j < |Keys(db)| && Keys(db)[j] == all[k];
  }

  lemma KeysCoverEntry(db: Db, i: nat) returns (j: nat)
    requires i < |db.entries|
    ensures j < |Keys(db)| && Keys(db)[j] == EntryKey(db.entries[i])
  {
    var all := Image(CashKey, db.cash) + Image(EntryKey, db.entries);
    assert all[|db.cash| + i] == EntryKey(db.entries[i]) && all[|db.cash| + i] in all;
    assert all[|db.cash| + i] in Keys(db);
    j :| 0 <= j < |Keys(db)| && Keys(db)[j] == EntryKey(db.entries[i]);
  }

  // ----- one cell per key and row -----

  lemma CashCellIs(entries: seq<Entry>, rets: seq<Return>, box: CashboxId, key: Key, t: CashTxn)
    ensures Across(CashCell(entries, rets, box), t)(key)
         == if InCluster(entries, rets, box, key) && OnKey(box, key, t) then Signed(t.direction, t.amount) else 0
  {
    hide InCluster, OnKey;
    assert CashCell(entries, rets, box)(key, t) == if InCluster(entries, rets, box, key) then KeyCash(box, key)(t) else 0;
    assert KeyCash(box, key)(t) == if OnKey(box, key, t) then Signed(t.direction, t.amount) else 0;
  }

  lemma JournalCellIs(db: Db, rets: seq<Return>, box: CashboxId, key: Key, i: nat)
    requires i < |db.entries|
    ensures Across(JournalCell(db, rets, box), i)(key)
         == if InCluster(db.entries, rets, box, key) && EntryKey(db.entries[i]) == key && Included(db.entries, i)
            then Sum(MirrorOn(db.accounts, box), db.entries[i].lines) else 0
  {
    hide InCluster, Included, MirrorOn;
    assert JournalCell(db, rets, box)(key, i) == if InCluster(db.entries, rets, box, key) then KeyJournal(db, box, key)(i) else 0;
    assert (db.entries[i].refType, db.entries[i].refId) == EntryKey(db.entries[i]);
  }

  lemma CashColumn(db: Db, rets: seq<Return>, box: CashboxId, k: nat)
    requires k < |db.cash|
    ensures ColumnSums(CashCell(db.entries, rets, box), Keys(db))(db.cash[k])
         == CashIn(box, ScopeOf(db.entries, rets, box))(db.cash[k])
  {
    hide InCluster, Keys;
    var h, t := CashCell(db.entries, rets, box), db.cash[k];
    var j := KeysCover(db, k);
    KeysDistinct(db);
    forall i | 0 <= i < |Keys(db)| && i != j ensures Across(h, t)(Keys(db)[i]) == 0 {
      CashCellIs(db.entries, rets, box, Keys(db)[i], t);
      assert Keys(db)[i] != CashKey(t);
    }
    SumOnly(Across(h, t), Keys(db), j);
    CashCellIs(db.entries, rets, box, Keys(db)[j], t);
    assert ScopeOf(db.entries, rets, box)(t.entity, t.refId) == InCluster(db.entries, rets, box, CashKey(t));
  }

  lemma KeysDistinct(db: Db)
    ensures forall i, j :: 0 <= i < |Keys(db)| && 0 <= j < |Keys(db)| && i != j ==> Keys(db)[i] != Keys(db)[j]
  {
  }

  lemma JournalColumn(db: Db, rets: seq<Return>, box: CashboxId, i: nat)
    requires i < |db.entries|
    ensures ColumnSums(JournalCell(db, rets, box), Keys(db))(i) == ClusterJournal(db, rets, box)(i)
  {
    hide InCluster, Keys, Included, MirrorOn;
    var h := JournalCell(db, rets, box);
    var j := KeysCoverEntry(db, i);
    KeysDistinct(db);
    forall k | 0 <= k < |Keys(db)| && k != j ensures Across(h, i)(Keys(db)[k]) == 0 {
      JournalCellIs(db, rets, box, Keys(db)[k], i);
      assert Keys(db)[k] != EntryKey(db.entries[i]);
    }
    SumOnly(Across(h, i), Keys(db), j);
    JournalCellIs(db, rets, box, Keys(db)[j], i);
  }

  lemma CashByKeys(db: Db, rets: seq<Return>, box: CashboxId)
    ensures Sum(RowSums(CashCell(db.entries, rets, box), db.cash), Keys(db)) == CashNet(db, box, ScopeOf(db.entries, rets, box))
  {
    var h := CashCell(db.entries, rets, box);
    hide CashCell, ScopeOf, Keys;
    SumExchange(h, Keys(db), db.cash);
    forall k | 0 <= k < |db.cash|
      ensures ColumnSums(h, Keys(db))(db.cash[k]) == CashIn(box, ScopeOf(db.entries, rets, box))(db.cash[k])
    {
      CashColumn(db, rets, box, k);
    }
    SumSame(ColumnSums(h, Keys(db)), CashIn(box, ScopeOf(db.entries, rets, box)), db.cash);
  }

  lemma JournalByKeys(db: Db, rets: seq<Return>, box: CashboxId)
    ensures Sum(RowSums(JournalCell(db, rets, box), Range(0, |db.entries|)), Keys(db))
         == Sum(ClusterJournal(db, rets, box), Range(0, |db.entries|))
  {
    var h, indices := JournalCell(db, rets, box), Range(0, |db.entries|);
    hide JournalCell, ClusterJournal, Keys;
    SumExchange(h, Keys(db), indices);
    forall k | 0 <= k < |indices|
      ensures ColumnSums(h, Keys(db))(indices[k]) == ClusterJournal(db, rets, box)(indices[k])
    {
      JournalColumn(db, rets, box, k);
    }
    SumSame(ColumnSums(h, Keys(db)), ClusterJournal(db, rets, box), indices);
  }

  lemma NoMirrorNoSum(accounts: seq<Account>, box: CashboxId, lines: seq<Line>)
    requires !HasMirror(accounts, box, lines)
    ensures Sum(MirrorOn(accounts, box), lines) == 0
  {
    hide IsCashMirror;
    SumZero(MirrorOn(accounts, box), lines);
  }

  /** A side that covers nothing contributes nothing. */
  lemma UncoveredRow(db: Db, box: CashboxId, key: Key)
    requires !CtCovers(db, box, key) && !JeCovers(db, box, key)
    ensures RowDrift(db, box, key) == 0
  {
    hide Included, HasMirror, MirrorOn;
    SumZero(KeyCash(box, key), db.cash);
    forall i | 0 <= i < |db.entries| ensures KeyJournal(db, box, key)(i) == 0 {
      if (db.entries[i].refType, db.entries[i].refId) == key && Included(db.entries, i) {
        assert !HasMirror(db.accounts, box, db.entries[i].lines);
        NoMirrorNoSum(db.accounts, box, db.entries[i].lines);
      }
    }
    SumZero(KeyJournal(db, box, key), Range(0, |db.entries|));
  }

  /** A return cancelled at the cashbox. */
  ghost predicate IsCancelled(rets: seq<Return>, box: CashboxId, id: RefId) {
    exists k :: 0 <= k < |rets| && rets[k].cancelled && rets[k].cashbox == Some(box) && id == Document(rets[k].id)
  }

  /** The key of an entry of such a return, or of the reversal of one. */
  ghost predicate OfCancelled(entries: seq<Entry>, rets: seq<Return>, box: CashboxId, key: Key) {
    || (key.0 == "return" && IsCancelled(rets, box, key.1))
    || (key.0 in ["other", "reversal"] && key.1.Journal? && key.1.entry < |entries|
        && entries[key.1.entry].refType == "return" && IsCancelled(rets, box, entries[key.1.entry].refId))
  }

  lemma OfCancelledIff(entries: seq<Entry>, rets: seq<Return>, box: CashboxId, key: Key)
    ensures OfCancelled(entries, rets, box, key) <==> InCluster(entries, rets, box, key)
  {
    forall id ensures IsCancelled(rets, box, id) <==> CancelledAt(rets, id, box) {}
    hide IsCancelled, CancelledAt;
  }

  ghost function ClusterDrift(db: Db, rets: seq<Return>, box: CashboxId): Key -> int {
    (key: Key) => if InCluster(db.entries, rets, box, key) then RowDrift(db, box, key) else 0
  }

  /** What the one-cent threshold keeps out of the offset. */
  ghost function HiddenRow(db: Db, rets: seq<Return>, box: CashboxId): Key -> int {
    (key: Key) =>
      if OfCancelled(db.entries, rets, box, key) && CtCovers(db, box, key) && JeCovers(db, box, key) && -1 <= RowDrift(db, box, key) <= 1
      then RowDrift(db, box, key) else 0
  }

  /** A row of the cluster is listed with its drift, or hidden. */
  lemma ListedOrHidden(db: Db, rets: seq<Return>, box: CashboxId, key: Key)
    ensures ClusterDrift(db, rets, box)(key) == ClusterRow(db, rets, box)(key) + HiddenRow(db, rets, box)(key)
  {
    OfCancelledIff(db.entries, rets, box, key);
    hide InCluster, OfCancelled, CtCovers, JeCovers, RowDrift;
    if !CtCovers(db, box, key) && !JeCovers(db, box, key) {
      UncoveredRow(db, box, key);
    }
  }

  /** At most a cent a row, and only on rows with both sides. */
  lemma HiddenIsSmall(db: Db, rets: seq<Return>, box: CashboxId, key: Key)
    ensures Abs(HiddenRow(db, rets, box)(key)) <= 1
    ensures HiddenRow(db, rets, box)(key) != 0 ==> CtCovers(db, box, key) && JeCovers(db, box, key)
  {
    hide CtCovers, JeCovers, RowDrift, OfCancelled;
  }

  /** No cluster row is two-sided, so none is hidden by the one-cent threshold. */
  ghost predicate OneSided(db: Db, rets: seq<Return>, box: CashboxId) {
    forall key :: InCluster(db.entries, rets, box, key) ==> !(CtCovers(db, box, key) && JeCovers(db, box, key))
  }

  lemma OneSidedHidesNothing(db: Db, rets: seq<Return>, box: CashboxId)
    requires OneSided(db, rets, box)
    ensures Sum(HiddenRow(db, rets, box), Keys(db)) == 0
  {
    forall k | 0 <= k < |Keys(db)| ensures HiddenRow(db, rets, box)(Keys(db)[k]) == 0 {
      HiddenIsSmall(db, rets, box, Keys(db)[k]);
      OfCancelledIff(db.entries, rets, box, Keys(db)[k]);
    }
    SumZero(HiddenRow(db, rets, box), Keys(db));
  }

  lemma ClusterRowIs(db: Db, rets: seq<Return>, box: CashboxId, key: Key)
    ensures ClusterDrift(db, rets, box)(key) + RowSums(JournalCell(db, rets, box), Range(0, |db.entries|))(key)
         == RowSums(CashCell(db.entries, rets, box), db.cash)(key)
  {
    var on := InCluster(db.entries, rets, box, key);
    var hc, hj := CashCell(db.entries, rets, box), JournalCell(db, rets, box);
    SumScaled(Along(hc, key), KeyCash(box, key), on, db.cash);
    SumScaled(Along(hj, key), KeyJournal(db, box, key), on, Range(0, |db.entries|));
  }

  /** The keys partition the ledger: the offset, with what the threshold hides, is the cash of
      all rows tagged into the cluster less the journal of all entries keyed into it. */
  lemma OffsetAsSums(db: Db, rets: seq<Return>, box: CashboxId)
    ensures ClusterOffset(db, rets, box) + Sum(HiddenRow(db, rets, box), Keys(db))
         == CashNet(db, box, ScopeOf(db.entries, rets, box)) - Sum(ClusterJournal(db, rets, box), Range(0, |db.entries|))
  {
    var drift := ClusterDrift(db, rets, box);
    var cash := RowSums(CashCell(db.entries, rets, box), db.cash);
    var journal := RowSums(JournalCell(db, rets, box), Range(0, |db.entries|));
    CashByKeys(db, rets, box);
    JournalByKeys(db, rets, box);
    forall k | 0 <= k < |Keys(db)|
      ensures drift(Keys(db)[k]) == ClusterRow(db, rets, box)(Keys(db)[k]) + HiddenRow(db, rets, box)(Keys(db)[k])
    {
      ListedOrHidden(db, rets, box, Keys(db)[k]);
    }
    SumAdd(drift, ClusterRow(db, rets, box), HiddenRow(db, rets, box), Keys(db));
    hide CashCell, JournalCell, ClusterJournal, Keys, ScopeOf, ClusterRow, ClusterDrift, HiddenRow, RowSums;
    forall k | 0 <= k < |Keys(db)| ensures cash(Keys(db)[k]) == drift(Keys(db)[k]) + journal(Keys(db)[k]) {
      ClusterRowIs(db, rets, box, Keys(db)[k]);
    }
    SumAdd(cash, drift, journal, Keys(db));
  }

  // ----- the report on the engine's output -----

  /** What the report assumes of one cashbox: only reversals refer to entries, and every line
      tagged with the box sits on a liquid account. */
  ghost predicate Readable(db: Db, box: CashboxId) {
    && (forall i :: 0 <= i < |db.entries| && db.entries[i].refId.Journal? ==> db.entries[i].refType == "reversal")
    && (forall i :: 0 <= i < |db.entries| ==> TagsLiquid(db.accounts, box, db.entries[i].lines))
  }

  /** Entries voided on the cashbox belong to returns cancelled there, and no cancelled return
      is posted again. */
  ghost predicate CancelOnly(db: Db, rets: seq<Return>, box: CashboxId) {
    && (forall i :: 0 <= i < |db.entries| && db.entries[i].isVoid && EntryLeg(db.accounts, box, db.entries[i]) != 0 ==>
          db.entries[i].refType == "return" && IsCancelled(rets, box, db.entries[i].refId))
    && (forall i :: 0 <= i < |db.entries| && db.entries[i].refType == "return" && IsCancelled(rets, box, db.entries[i].refId) ==>
          db.entries[i].isVoid)
  }

  ghost predicate TagsLiquid(accounts: seq<Account>, box: CashboxId, lines: seq<Line>) {
    forall k :: 0 <= k < |lines| && lines[k].cashbox == Some(box) ==> IsLiquid(CodeOf(accounts, lines[k].account))
  }

  lemma LiquidTagsAgree(accounts: seq<Account>, box: CashboxId, lines: seq<Line>)
    requires TagsLiquid(accounts, box, lines)
    ensures Sum(TaggedOn(box), lines) == Sum(LegOn(accounts, box), lines) == Sum(MirrorOn(accounts, box), lines)
  {
    SumSame(TaggedOn(box), LegOn(accounts, box), lines);
    forall k | 0 <= k < |lines| ensures LegOn(accounts, box)(lines[k]) == MirrorOn(accounts, box)(lines[k]) {
      if lines[k].cashbox == Some(box) {
        assert IsCashMirror(CodeOf(accounts, lines[k].account));
      }
    }
    SumSame(LegOn(accounts, box), MirrorOn(accounts, box), lines);
  }

  lemma CancelledStaysOut(db: Db, rets: seq<Return>, box: CashboxId, i: nat)
    requires CancelOnly(db, rets, box) && i < |db.entries|
    requires db.entries[i].refType == "return" && CancelledAt(rets, db.entries[i].refId, box)
    ensures db.entries[i].isVoid && !Included(db.entries, i)
  {
    hide EntryLeg, TagsLiquid;
  }

  lemma ClusterIsOneSided(db: Db, rets: seq<Return>, box: CashboxId)
    requires Readable(db, box) && CancelOnly(db, rets, box) && CashSane(db)
    ensures OneSided(db, rets, box)
  {
    hide EntryLeg, TagsLiquid, CancelledAt, HasMirror, Included;
    forall key | InCluster(db.entries, rets, box, key) && CtCovers(db, box, key) && JeCovers(db, box, key) ensures false {
      var k :| 0 <= k < |db.cash| && OnKey(box, key, db.cash[k]);
      var i :| 0 <= i < |db.entries| && (db.entries[i].refType, db.entries[i].refId) == key && Included(db.entries, i);
      NoReversalEntity();
      if key.0 == "return" {
        CancelledStaysOut(db, rets, box, i);
      }
    }
  }

  function AtIndex<T>(f: T -> int, s: seq<T>): nat -> int {
    (i: nat) => if i < |s| then f(s[i]) else 0
  }

  lemma {:induction false} SumIndexed<T>(f: T -> int, s: seq<T>, n: nat)
    requires n <= |s|
    ensures Sum(f, s[..n]) == Sum(AtIndex(f, s), Range(0, n))
  {
    if n > 0 {
      SumIndexed(f, s, n - 1);
      assert s[..n][..n - 1] == s[..n - 1] && Range(0, n)[..n - 1] == Range(0, n - 1);
    }
  }

  /** A voided entry without both a live reversal and a live entry in its place. */
  ghost predicate LeftOut(entries: seq<Entry>, i: nat) {
    && i < |entries| && entries[i].isVoid
    && ((forall r :: 0 <= r < |entries| ==> !(entries[r].reversalOf == Some(i) && !entries[r].isVoid))
        || forall r :: 0 <= r < |entries| && r != i ==>
             !(entries[r].refType == entries[i].refType && entries[r].refId == entries[i].refId && !entries[r].isVoid && entries[r].reversalOf == None))
  }

  lemma LeftOutIff(entries: seq<Entry>, i: nat)
    requires i < |entries|
    ensures LeftOut(entries, i) <==> !Included(entries, i)
  {
    if !HasLiveSuccessor(entries, i) {
      forall r | 0 <= r < |entries| && r != i ensures !IsReplacement(entries[r], entries[i]) {}
    }
    if HasLiveSuccessor(entries, i) {
      var r :| 0 <= r < |entries| && r != i && IsReplacement(entries[r], entries[i]);
      assert entries[r].refType == entries[i].refType && entries[r].refId == entries[i].refId;
    }
  }

  /** Legs of voided entries the views leave out and no cancelled return accounts for. */
  ghost function OutsideLeg(db: Db, rets: seq<Return>, box: CashboxId): nat -> int {
    (i: nat) =>
      if LeftOut(db.entries, i) && !OfCancelled(db.entries, rets, box, (db.entries[i].refType, db.entries[i].refId))
      then EntryLeg(db.accounts, box, db.entries[i]) else 0
  }

  /** Entry by entry: what the header misses is in the cluster or outside it. */
  lemma EntryBalances(db: Db, rets: seq<Return>, box: CashboxId, i: nat)
    requires i < |db.entries| && TagsLiquid(db.accounts, box, db.entries[i].lines)
    requires db.entries[i].refId.Journal? ==> db.entries[i].refType == "reversal"
    ensures ExcludedLeg(db, box)(i) + ClusterJournal(db, rets, box)(i)
         == OutsideLeg(db, rets, box)(i) + AtIndex(LegsOf(db.accounts, box, Any, ScopeOf(db.entries, rets, box)), db.entries)(i)
  {
    var e := db.entries[i];
    LiquidTagsAgree(db.accounts, box, e.lines);
    assert Counts(Any, e);
    SameSideOfCluster(db, rets, box, e);
    LeftOutIff(db.entries, i);
    OfCancelledIff(db.entries, rets, box, EntryKey(e));
    hide InCluster, Included, TagsLiquid, LeftOut, OfCancelled;
    assert ScopeOf(db.entries, rets, box)(MapToEntityType(e.refType), e.refId)
        == InCluster(db.entries, rets, box, (MapToEntityType(e.refType), e.refId));
  }

  lemma SameSideOfCluster(db: Db, rets: seq<Return>, box: CashboxId, e: Entry)
    requires e.refId.Journal? ==> e.refType == "reversal"
    ensures InCluster(db.entries, rets, box, (MapToEntityType(e.refType), e.refId))
       <==> InCluster(db.entries, rets, box, (e.refType, e.refId))
  {
    ReturnsAreReturns();
    ReversalsAreOther();
    if MapToEntityType(e.refType) == "return" {
      OnlyReturnsAreReturns(e.refType);
    }
    if !e.refId.Journal? && e.refType == "return" {
      assert MapToEntityType(e.refType) == e.refType;
    }
  }

  lemma BookedHasNoGap(db: Db, work: seq<seq<Call>>, box: CashboxId, scope: Scope)
    requires Fresh(db) && RunBooked(work)
    ensures CashNet(Run(db, work), box, scope) == LegNet(Run(db, work), box, Any, scope)
  {
    RunGap(db, work, box, scope);
    assert RunGuarded(work);
    GuardedRunLeak(db, work, box, scope);
    NoCashOnly(db, work, box, scope);
  }

  lemma {:induction false} NoCashOnlyCalls(db: Db, calls: seq<Call>, box: CashboxId, scope: Scope)
    requires forall i :: 0 <= i < |calls| ==> Booked(calls[i])
    ensures AttemptCashOnly(db, calls, box, scope) == 0
  {
    if |calls| > 0 {
      NoCashOnlyCalls(db, calls[..|calls| - 1], box, scope);
    }
  }

  lemma {:induction false} NoCashOnly(db: Db, work: seq<seq<Call>>, box: CashboxId, scope: Scope)
    requires RunBooked(work)
    ensures RunCashOnly(db, work, box, scope) == 0
  {
    if |work| > 0 {
      var n := |work| - 1;
      NoCashOnly(db, work[..n], box, scope);
      NoCashOnlyCalls(Run(db, work[..n]), work[n], box, scope);
    }
  }

  ghost function ExcludedLeg(db: Db, box: CashboxId): nat -> int {
    (i: nat) => if LeftOut(db.entries, i) then EntryLeg(db.accounts, box, db.entries[i]) else 0
  }

  /** After any run of booked calls the cashbox view reports exactly the legs of the voided
      entries that were reversed and not replaced: edit-and-replay pairs cancel in it. */
  lemma HeaderIsExcludedLegs(db: Db, work: seq<seq<Call>>, box: CashboxId)
    requires Fresh(db) && Inv(db) && RunBooked(work) && box in Run(db, work).boxes
    requires var d := Run(db, work); forall i :: 0 <= i < |d.entries| ==> TagsLiquid(d.accounts, box, d.entries[i].lines)
    ensures var d := Run(db, work); HeaderDrift(d, box) == Sum(ExcludedLeg(d, box), Range(0, |d.entries|))
  {
    var d := Run(db, work);
    var n, all := |d.entries|, LegsOf(d.accounts, box, Any, Everything());
    RunKeeps(db, work);
    BookedHasNoGap(db, work, box, Everything());
    hide Run, Inv, LegsOf;
    SumIndexed(all, d.entries, n);
    assert d.entries[..n] == d.entries;
    forall k | 0 <= k < n
      ensures AtIndex(all, d.entries)(Range(0, n)[k]) == ExcludedLeg(d, box)(Range(0, n)[k]) + IncludedTagged(d.entries, box)(Range(0, n)[k])
    {
      LiquidTagsAgree(d.accounts, box, d.entries[k].lines);
      AnyLeg(d.accounts, box, d.entries[k]);
      LeftOutIff(d.entries, k);
    }
    SumAdd(AtIndex(all, d.entries), ExcludedLeg(d, box), IncludedTagged(d.entries, box), Range(0, n));
    assert BalancesTrue(d);
  }

  lemma AnyLeg(accounts: seq<Account>, box: CashboxId, e: Entry)
    ensures LegsOf(accounts, box, Any, Everything())(e) == EntryLeg(accounts, box, e)
  {
    assert Counts(Any, e);
  }

  /** After any run of booked calls, whatever was voided, the adjusted figure is the excluded
      legs outside the cluster, with the cents the threshold hides from the offset. */
  lemma AdjustedIsOutsideLegs(db: Db, work: seq<seq<Call>>, rets: seq<Return>, box: CashboxId)
    requires Fresh(db) && Inv(db) && RunBooked(work)
    requires box in Run(db, work).boxes && Readable(Run(db, work), box)
    ensures var d := Run(db, work);
      AdjustedDrift(d, rets, box) == Sum(OutsideLeg(d, rets, box), Range(0, |d.entries|)) + Sum(HiddenRow(d, rets, box), Keys(d))
  {
    var d := Run(db, work);
    HeaderIsExcludedLegs(db, work, box);
    BookedHasNoGap(db, work, box, ScopeOf(d.entries, rets, box));
    OffsetAsSums(d, rets, box);
    hide Run, Inv;
    OutsideOrScoped(d, rets, box);
  }

  lemma OutsideOrScoped(d: Db, rets: seq<Return>, box: CashboxId)
    requires Readable(d, box)
    ensures Sum(ExcludedLeg(d, box), Range(0, |d.entries|)) + Sum(ClusterJournal(d, rets, box), Range(0, |d.entries|))
         == Sum(OutsideLeg(d, rets, box), Range(0, |d.entries|)) + LegNet(d, box, Any, ScopeOf(d.entries, rets, box))
  {
    var n, scoped := |d.entries|, LegsOf(d.accounts, box, Any, ScopeOf(d.entries, rets, box));
    SumIndexed(scoped, d.entries, n);
    assert d.entries[..n] == d.entries;
    forall k | 0 <= k < n
      ensures ExcludedLeg(d, box)(Range(0, n)[k]) + ClusterJournal(d, rets, box)(Range(0, n)[k])
           == OutsideLeg(d, rets, box)(Range(0, n)[k]) + AtIndex(scoped, d.entries)(Range(0, n)[k])
    {
      hide LegsOf, ClusterJournal, OutsideLeg, ExcludedLeg, TagsLiquid, ScopeOf;
      EntryBalances(d, rets, box, k);
    }
    SumPairs(ExcludedLeg(d, box), ClusterJournal(d, rets, box), OutsideLeg(d, rets, box), AtIndex(scoped, d.entries), Range(0, n));
  }

  lemma NothingOutside(d: Db, rets: seq<Return>, box: CashboxId)
    requires CancelOnly(d, rets, box)
    ensures Sum(OutsideLeg(d, rets, box), Range(0, |d.entries|)) == 0
  {
    forall k | 0 <= k < |d.entries| ensures OutsideLeg(d, rets, box)(Range(0, |d.entries|)[k]) == 0 {
      hide EntryLeg, IsCancelled;
    }
    SumZero(OutsideLeg(d, rets, box), Range(0, |d.entries|));
  }

  /** Where the voids on the cashbox are cancelled returns, the offset is the whole header
      drift and the adjusted figure is zero. */
  lemma CancelAwareIsExact(db: Db, work: seq<seq<Call>>, rets: seq<Return>, box: CashboxId)
    requires Fresh(db) && Inv(db) && RunBooked(work)
    requires box in Run(db, work).boxes && Readable(Run(db, work), box) && CancelOnly(Run(db, work), rets, box)
    ensures AdjustedDrift(Run(db, work), rets, box) == 0
  {
    hide Run, CancelOnly, Readable, OneSided, AdjustedDrift, OutsideLeg, HiddenRow;
    RunKeeps(db, work);
    AdjustedIsOutsideLegs(db, work, rets, box);
    ClusterIsOneSided(Run(db, work), rets, box);
    OneSidedHidesNothing(Run(db, work), rets, box);
    NothingOutside(Run(db, work), rets, box);
  }
}
