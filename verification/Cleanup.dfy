/**
 The one-off cleanup of historical drift: voiding duplicate sale rows (pattern A) and
 tagging untagged refund lines (pattern B), in one transaction that commits only when every
 affected cashbox ends without drift.
 */
module Cleanup {
  import opened Sums
  import opened Ledger
  import opened Engine

  datatype Refund = Refund(cashbox: Option<CashboxId>, refundMethod: string)

  /** The ledger with the two document tables that the detection joins. */
  datatype Tables = Tables(db: Db, returned: map<RefId, Refund>, invoices: set<RefId>)

  const EXECUTE_CONFIRM_TOKEN := "DRIFT_HISTORICAL_CLEANUP_2026_05"

  // ----- pattern A: duplicate sale rows -----

  predicate LiveSale(c: CashTxn) { !c.isVoid && c.entity == "invoice" && c.category == "sale" }

  predicate SameSale(a: CashTxn, b: CashTxn) { a.refId == b.refId && a.cashbox == b.cashbox }

  predicate Earlier(cash: seq<CashTxn>, j: nat, k: nat)
    requires j < |cash| && k < |cash|
  {
    cash[j].createdAt < cash[k].createdAt || (cash[j].createdAt == cash[k].createdAt && j < k)
  }

  predicate InvoiceEntry(e: Entry, id: RefId) { e.refType == "invoice" && e.refId == id }

  predicate LiveOf(entries: seq<Entry>, id: RefId, i: nat)
    requires i < |entries|
  {
    InvoiceEntry(entries[i], id) && !entries[i].isVoid
  }

  /** The invoice exists, was edited, and has exactly one live entry. */
  predicate Edited(t: Tables, id: RefId) {
    && id in t.invoices
    && (exists i: nat :: i < |t.db.entries| && InvoiceEntry(t.db.entries[i], id) && t.db.entries[i].isVoid)
    && (exists i: nat :: i < |t.db.entries| && LiveOf(t.db.entries, id, i)
         && forall j: nat :: j < |t.db.entries| && LiveOf(t.db.entries, id, j) ==> j == i)
  }

  predicate Duplicated(cash: seq<CashTxn>, k: nat)
    requires k < |cash|
  {
    LiveSale(cash[k]) && exists j :: 0 <= j < |cash| && j != k && LiveSale(cash[j]) && SameSale(cash[j], cash[k])
  }

  /** Rows the plan lists: duplicated live sales of edited invoices. */
  predicate Listed(t: Tables, k: nat)
    requires k < |t.db.cash|
  {
    Duplicated(t.db.cash, k) && Edited(t, t.db.cash[k].refId)
  }

  function SaleAmount(c: CashTxn): CashTxn -> int { (x: CashTxn) => if LiveSale(x) && SameSale(x, c) then x.amount else 0 }

  function InvoiceCash(id: RefId, box: CashboxId): Entry -> int {
    (e: Entry) => if !e.isVoid && InvoiceEntry(e, id) then Sum(TaggedOn(box), e.lines) else 0
  }

  predicate HasPatchedLine(e: Entry, box: CashboxId) { exists l :: 0 <= l < |e.lines| && e.lines[l].cashbox == Some(box) }

  /** The detection proper: a listed group whose rows outweigh the cash of its entry. */
  predicate Detected(t: Tables, k: nat)
    requires k < |t.db.cash|
  {
    var c := t.db.cash[k];
    && Listed(t, k)
    && (exists i :: 0 <= i < |t.db.entries| && !t.db.entries[i].isVoid && InvoiceEntry(t.db.entries[i], c.refId) && HasPatchedLine(t.db.entries[i], c.cashbox))
    && Sum(SaleAmount(c), t.db.cash) > Sum(InvoiceCash(c.refId, c.cashbox), t.db.entries)
  }

  predicate AnyDetected(t: Tables) { exists k :: 0 <= k < |t.db.cash| && Detected(t, k) }

  /** The detected groups only gate the plan; every listed group is then planned. */
  predicate Planned(t: Tables, k: nat)
    requires k < |t.db.cash|
  {
    AnyDetected(t) && Listed(t, k)
  }

  predicate HasEarlier(cash: seq<CashTxn>, k: nat)
    requires k < |cash|
  {
    exists j :: 0 <= j < |cash| && LiveSale(cash[j]) && SameSale(cash[j], cash[k]) && Earlier(cash, j, k)
  }

  predicate PlannedVoid(t: Tables, k: nat)
    requires k < |t.db.cash|
  {
    Planned(t, k) && HasEarlier(t.db.cash, k)
  }

  // ----- pattern B: untagged refund lines -----

  predicate RefundLine(l: Line, amount: Cents) {
    l.cashbox.None? && l.debit == 0 && l.credit > 0 && Abs(l.credit - amount) < 1
  }

  predicate PairedRefund(c: CashTxn, id: RefId, box: CashboxId) {
    c.entity == "return" && c.refId == id && !c.isVoid && c.category == "refund" && c.cashbox == box
  }

  /** The line is the only one of its entry to match some refund row of its return. */
  predicate Patchable(t: Tables, e: nat, l: nat)
    requires e < |t.db.entries| && l < |t.db.entries[e].lines|
  {
    var entry := t.db.entries[e];
    && entry.refType == "return" && !entry.isVoid && entry.refId in t.returned
    && t.returned[entry.refId].cashbox.Some? && t.returned[entry.refId].refundMethod == "cash"
    && exists k :: 0 <= k < |t.db.cash| && PairedRefund(t.db.cash[k], entry.refId, t.returned[entry.refId].cashbox.value)
         && RefundLine(entry.lines[l], t.db.cash[k].amount)
         && forall m :: 0 <= m < |entry.lines| && RefundLine(entry.lines[m], t.db.cash[k].amount) ==> m == l
  }

  function ProposedBox(t: Tables, e: nat): CashboxId
    requires e < |t.db.entries|
  {
    var id := t.db.entries[e].refId;
    if id in t.returned && t.returned[id].cashbox.Some? then t.returned[id].cashbox.value else ""
  }

  // ----- the cleaned tables -----

  function CleanRow(t: Tables, k: nat): CashTxn
    requires k < |t.db.cash|
  {
    if PlannedVoid(t, k) then t.db.cash[k].(isVoid := true) else t.db.cash[k]
  }

  function CleanLine(t: Tables, e: nat, l: nat): Line
    requires e < |t.db.entries| && l < |t.db.entries[e].lines|
  {
    var line := t.db.entries[e].lines[l];
    if Patchable(t, e, l) then line.(cashbox := Some(ProposedBox(t, e))) else line
  }

  function CleanEntry(t: Tables, e: nat): Entry
    requires e < |t.db.entries|
  {
    t.db.entries[e].(lines := seq(|t.db.entries[e].lines|, l requires 0 <= l < |t.db.entries[e].lines| => CleanLine(t, e, l)))
  }

  function Clean(t: Tables): Tables {
    t.(db := t.db.(
         cash := seq(|t.db.cash|, k requires 0 <= k < |t.db.cash| => CleanRow(t, k)),
         entries := seq(|t.db.entries|, e requires 0 <= e < |t.db.entries| => CleanEntry(t, e))))
  }

  /** Cash rows against the live lines tagged with the cashbox, on whatever account. */
  function TaggedNet(box: CashboxId): Entry -> int { (e: Entry) => if e.isVoid then 0 else Sum(TaggedOn(box), e.lines) }

  function MainDrift(db: Db, box: CashboxId): Cents {
    CashNet(db, box, Everything()) - Sum(TaggedNet(box), db.entries)
  }

  function Affected(t: Tables): set<CashboxId> {
    (set k: nat | k < |t.db.cash| && Planned(t, k) :: t.db.cash[k].cashbox)
    + (set e: nat, l: nat | e < |t.db.entries| && l < |t.db.entries[e].lines| && Patchable(t, e, l) :: ProposedBox(t, e))
  }

  predicate Settles(t: Tables) { forall box :: box in Affected(t) ==> MainDrift(Clean(t).db, box) == 0 }

  /** `rebuildCashboxBalance` over the affected boxes. */
  function Rebuilt(db: Db, affected: set<CashboxId>): Db {
    db.(boxes := map b | b in db.boxes ::
          if b in affected then db.boxes[b].(balance := CashNet(db, b, Everything())) else db.boxes[b])
  }

  // ----- the cleanup leaves nothing to clean -----

  lemma CleanKeepsEdited(t: Tables, id: RefId)
    ensures Edited(Clean(t), id) <==> Edited(t, id)
  {
    hide CleanRow, CleanLine;
    var c, e := Clean(t).db.entries, t.db.entries;
    assert forall i: nat :: i < |c| ==> c[i].refType == e[i].refType && c[i].refId == e[i].refId && c[i].isVoid == e[i].isVoid;
    hide Clean;
    SameEdits(Clean(t), t, id);
  }

  lemma SameEdits(c: Tables, t: Tables, id: RefId)
    requires c.invoices == t.invoices && |c.db.entries| == |t.db.entries|
    requires forall i: nat :: i < |c.db.entries| ==> var a, b := c.db.entries[i], t.db.entries[i];
      a.refType == b.refType && a.refId == b.refId && a.isVoid == b.isVoid
    ensures Edited(c, id) <==> Edited(t, id)
  {
    if Edited(t, id) { EditsCarryOver(t, c, id); }
    if Edited(c, id) { EditsCarryOver(c, t, id); }
  }

  lemma EditsCarryOver(t: Tables, c: Tables, id: RefId)
    requires c.invoices == t.invoices && |c.db.entries| == |t.db.entries|
    requires forall i: nat :: i < |c.db.entries| ==> var a, b := c.db.entries[i], t.db.entries[i];
      a.refType == b.refType && a.refId == b.refId && a.isVoid == b.isVoid
    requires Edited(t, id)
    ensures Edited(c, id)
  {
    var v: nat :| v < |t.db.entries| && InvoiceEntry(t.db.entries[v], id) && t.db.entries[v].isVoid;
    var l: nat :| l < |t.db.entries| && LiveOf(t.db.entries, id, l)
      && forall j: nat :: j < |t.db.entries| && LiveOf(t.db.entries, id, j) ==> j == l;
    assert InvoiceEntry(c.db.entries[v], id) && c.db.entries[v].isVoid;
    assert LiveOf(c.db.entries, id, l);
    forall j: nat | j < |c.db.entries| && LiveOf(c.db.entries, id, j) ensures j == l {
      assert LiveOf(t.db.entries, id, j);
    }
  }

  lemma LiveSaleBefore(t: Tables, k: nat)
    requires k < |t.db.cash|
    ensures LiveSale(Clean(t).db.cash[k]) <==> LiveSale(t.db.cash[k]) && !PlannedVoid(t, k)
    ensures forall j :: 0 <= j < |t.db.cash| ==> SameSale(Clean(t).db.cash[j], Clean(t).db.cash[k]) == SameSale(t.db.cash[j], t.db.cash[k])
  {
    hide PlannedVoid;
  }

  lemma EarlierTotal(cash: seq<CashTxn>, j: nat, k: nat)
    requires j < |cash| && k < |cash| && j != k
    ensures Earlier(cash, j, k) || Earlier(cash, k, j)
  {
  }

  /** Once something was detected, no group keeps two live rows. */
  lemma NothingListed(t: Tables, k: nat)
    requires AnyDetected(t) && k < |t.db.cash|
    ensures !Listed(Clean(t), k)
  {
    hide AnyDetected, Edited;
    var c := Clean(t);
    LiveSaleBefore(t, k);
    CleanKeepsEdited(t, t.db.cash[k].refId);
    assert c.db.cash[k].refId == t.db.cash[k].refId;
    forall j | 0 <= j < |c.db.cash| && j != k && Listed(c, k) && LiveSale(c.db.cash[j])
      ensures !SameSale(c.db.cash[j], c.db.cash[k])
    {
      LiveSaleBefore(t, j);
      EarlierTotal(t.db.cash, j, k);
    }
  }

  lemma CleanKeepsInvoices(t: Tables, e: nat)
    requires e < |t.db.entries| && t.db.entries[e].refType == "invoice"
    ensures CleanEntry(t, e) == t.db.entries[e]
  {
    assert forall l :: 0 <= l < |t.db.entries[e].lines| ==> CleanLine(t, e, l) == t.db.entries[e].lines[l];
  }

  lemma NothingDetected(t: Tables)
    ensures !AnyDetected(Clean(t))
  {
    var c := Clean(t);
    forall k | 0 <= k < |c.db.cash| ensures !Detected(c, k) {
      if AnyDetected(t) {
        NothingListed(t, k);
      } else {
        assert c.db.cash == t.db.cash;
        NotDetected(t, k);
      }
    }
  }

  lemma NotDetected(t: Tables, k: nat)
    requires !AnyDetected(t) && k < |t.db.cash| && Clean(t).db.cash == t.db.cash
    ensures !Detected(Clean(t), k)
  {
    var c, row := Clean(t), t.db.cash[k];
    assert !Detected(t, k);
    hide AnyDetected, Patchable;
    CleanKeepsEdited(t, row.refId);
    hide Edited;
    forall e | 0 <= e < |t.db.entries| && t.db.entries[e].refType == "invoice" ensures c.db.entries[e] == t.db.entries[e] {
      CleanKeepsInvoices(t, e);
    }
    SumPointwise(InvoiceCash(row.refId, row.cashbox), InvoiceCash(row.refId, row.cashbox), c.db.entries, t.db.entries);
    if Listed(t, k) {
      forall i | 0 <= i < |c.db.entries| && !c.db.entries[i].isVoid && InvoiceEntry(c.db.entries[i], row.refId)
        ensures HasPatchedLine(c.db.entries[i], row.cashbox) == HasPatchedLine(t.db.entries[i], row.cashbox)
      {
        assert c.db.entries[i] == t.db.entries[i];
      }
    }
  }

  /** No refund line becomes patchable by patching the others: matching to the cent is an
      equivalence, so a line that was ambiguous had a rival that was ambiguous with it. */
  lemma NothingPatchable(t: Tables, e: nat, l: nat)
    requires e < |t.db.entries| && l < |t.db.entries[e].lines|
    ensures !Patchable(Clean(t), e, l)
  {
    var c := Clean(t);
    var entry, after := t.db.entries[e], c.db.entries[e];
    hide PlannedVoid;
    if Patchable(c, e, l) {
      var k :| 0 <= k < |c.db.cash| && PairedRefund(c.db.cash[k], entry.refId, t.returned[entry.refId].cashbox.value)
        && RefundLine(after.lines[l], c.db.cash[k].amount)
        && forall m :: 0 <= m < |after.lines| && RefundLine(after.lines[m], c.db.cash[k].amount) ==> m == l;
      StillRival(t, e, l, k);
    }
  }

  lemma StillRival(t: Tables, e: nat, l: nat, k: nat)
    requires e < |t.db.entries| && l < |t.db.entries[e].lines| && k < |t.db.cash|
    requires Clean(t).db.entries[e].lines[l].cashbox.None?
    requires var entry := t.db.entries[e];
      && entry.refType == "return" && !entry.isVoid && entry.refId in t.returned
      && t.returned[entry.refId].cashbox.Some? && t.returned[entry.refId].refundMethod == "cash"
      && PairedRefund(t.db.cash[k], entry.refId, t.returned[entry.refId].cashbox.value)
      && RefundLine(entry.lines[l], t.db.cash[k].amount)
    ensures exists m :: 0 <= m < |t.db.entries[e].lines| && RefundLine(Clean(t).db.entries[e].lines[m], t.db.cash[k].amount) && m != l
  {
    var entry, after := t.db.entries[e], Clean(t).db.entries[e];
    assert !Patchable(t, e, l);
    var m :| 0 <= m < |entry.lines| && RefundLine(entry.lines[m], t.db.cash[k].amount) && m != l;
    assert !Patchable(t, e, m);
    assert after.lines[m] == entry.lines[m];
  }

  /** The self-check inside the transaction can never fail. */
  lemma CleanLeavesNothing(t: Tables)
    ensures forall k :: 0 <= k < |Clean(t).db.cash| ==> !Planned(Clean(t), k)
    ensures forall e, l :: 0 <= e < |Clean(t).db.entries| && 0 <= l < |Clean(t).db.entries[e].lines| ==> !Patchable(Clean(t), e, l)
  {
    NothingDetected(t);
    forall e, l | 0 <= e < |Clean(t).db.entries| && 0 <= l < |Clean(t).db.entries[e].lines| ensures !Patchable(Clean(t), e, l) {
      NothingPatchable(t, e, l);
    }
  }

  lemma NothingToDo(t: Tables)
    requires forall k :: 0 <= k < |t.db.cash| ==> !Planned(t, k)
    requires forall e, l :: 0 <= e < |t.db.entries| && 0 <= l < |t.db.entries[e].lines| ==> !Patchable(t, e, l)
    ensures Clean(t) == t && Affected(t) == {}
  {
    hide Planned, Patchable;
    forall e | 0 <= e < |t.db.entries| ensures CleanEntry(t, e) == t.db.entries[e] {
      assert forall l :: 0 <= l < |t.db.entries[e].lines| ==> CleanLine(t, e, l) == t.db.entries[e].lines[l];
    }
    assert forall k :: 0 <= k < |t.db.cash| ==> CleanRow(t, k) == t.db.cash[k];
    assert Clean(t).db.cash == t.db.cash && Clean(t).db.entries == t.db.entries;
  }

  /** A second run writes nothing. */
  lemma CleanTwice(t: Tables)
    ensures Clean(Clean(t)) == Clean(t) && Affected(Clean(t)) == {}
  {
    CleanLeavesNothing(t);
    NothingToDo(Clean(t));
  }

  // ----- what the cleanup does -----

  lemma EarliestIn(cash: seq<CashTxn>, k: nat) returns (m: nat)
    requires k < |cash| && LiveSale(cash[k])
    ensures m < |cash| && LiveSale(cash[m]) && SameSale(cash[m], cash[k])
    ensures forall j :: 0 <= j < |cash| && j != m && LiveSale(cash[j]) && SameSale(cash[j], cash[k]) ==> Earlier(cash, m, j)
  {
    m := k;
    for i := 0 to |cash|
      invariant m < |cash| && LiveSale(cash[m]) && SameSale(cash[m], cash[k])
      invariant forall j :: 0 <= j < i && j != m && LiveSale(cash[j]) && SameSale(cash[j], cash[k]) ==> Earlier(cash, m, j)
    {
      if LiveSale(cash[i]) && SameSale(cash[i], cash[k]) && Earlier(cash, i, m) {
        m := i;
      }
    }
  }

  /** Each planned group keeps exactly one live row, its earliest. */
  lemma KeepsTheEarliest(t: Tables, k: nat) returns (m: nat)
    requires k < |t.db.cash| && Planned(t, k)
    ensures m < |t.db.cash| && SameSale(t.db.cash[m], t.db.cash[k])
    ensures forall j :: 0 <= j < |t.db.cash| && SameSale(t.db.cash[j], t.db.cash[k]) ==>
      && (LiveSale(Clean(t).db.cash[j]) <==> j == m)
      && (LiveSale(t.db.cash[j]) && j != m ==> Earlier(t.db.cash, m, j))
  {
    var cash := t.db.cash;
    m := EarliestIn(cash, k);
    forall j | 0 <= j < |cash| && SameSale(cash[j], cash[k])
      ensures LiveSale(Clean(t).db.cash[j]) <==> j == m
    {
      EarliestStays(t, k, m, j);
    }
  }

  lemma EarliestStays(t: Tables, k: nat, m: nat, j: nat)
    requires k < |t.db.cash| && m < |t.db.cash| && j < |t.db.cash| && Planned(t, k)
    requires LiveSale(t.db.cash[m]) && SameSale(t.db.cash[m], t.db.cash[k]) && SameSale(t.db.cash[j], t.db.cash[k])
    requires forall i :: 0 <= i < |t.db.cash| && i != m && LiveSale(t.db.cash[i]) && SameSale(t.db.cash[i], t.db.cash[k]) ==> Earlier(t.db.cash, m, i)
    ensures LiveSale(Clean(t).db.cash[j]) <==> j == m
  {
    hide AnyDetected, Edited;
    LiveSaleBefore(t, j);
    if j == m {
      assert !HasEarlier(t.db.cash, m);
    } else if LiveSale(t.db.cash[j]) {
      assert Listed(t, j) && HasEarlier(t.db.cash, j);
    }
  }

  /** Signed cash of the planned voids in a box. */
  function VoidedOn(t: Tables, box: CashboxId): nat -> int {
    (k: nat) => if k < |t.db.cash| && PlannedVoid(t, k) then CashIn(box, Everything())(t.db.cash[k]) else 0
  }

  /** Refund credits the plan tags with a box, by line and by entry. */
  function PatchedLine(t: Tables, e: nat, box: CashboxId): nat -> int {
    (l: nat) => if e < |t.db.entries| && l < |t.db.entries[e].lines| && Patchable(t, e, l) && ProposedBox(t, e) == box
                then t.db.entries[e].lines[l].credit else 0
  }

  function PatchedOn(t: Tables, box: CashboxId): nat -> int {
    (e: nat) => if e < |t.db.entries| then Sum(PatchedLine(t, e, box), Range(0, |t.db.entries[e].lines|)) else 0
  }

  lemma {:induction false} SumDifference<T>(f: T -> int, s: seq<T>, r: seq<T>, d: nat -> int)
    requires |s| == |r| && forall i :: 0 <= i < |s| ==> f(r[i]) == f(s[i]) - d(i)
    ensures Sum(f, r) == Sum(f, s) - Sum(d, Range(0, |s|))
  {
    if |s| > 0 {
      var n := |s| - 1;
      SumDifference(f, s[..n], r[..n], d);
      assert Range(0, |s|)[..n] == Range(0, n);
    }
  }

  lemma EntryTagging(t: Tables, e: nat, box: CashboxId)
    requires e < |t.db.entries|
    ensures TaggedNet(box)(CleanEntry(t, e)) == TaggedNet(box)(t.db.entries[e]) - PatchedOn(t, box)(e)
  {
    var entry := t.db.entries[e];
    hide Patchable;
    SumDifference(TaggedOn(box), entry.lines, CleanEntry(t, e).lines, PatchedLine(t, e, box)) by {
      forall l | 0 <= l < |entry.lines|
        ensures TaggedOn(box)(CleanEntry(t, e).lines[l]) == TaggedOn(box)(entry.lines[l]) - PatchedLine(t, e, box)(l)
      {
        LineTagging(t, e, l, box);
      }
    }
    if entry.isVoid {
      forall l | 0 <= l < |entry.lines| ensures PatchedLine(t, e, box)(Range(0, |entry.lines|)[l]) == 0 {
        VoidsNotPatched(t, e, l);
      }
      SumZero(PatchedLine(t, e, box), Range(0, |entry.lines|));
    }
  }

  lemma VoidsNotPatched(t: Tables, e: nat, l: nat)
    requires e < |t.db.entries| && l < |t.db.entries[e].lines| && t.db.entries[e].isVoid
    ensures !Patchable(t, e, l)
  {
  }

  lemma LineTagging(t: Tables, e: nat, l: nat, box: CashboxId)
    requires e < |t.db.entries| && l < |t.db.entries[e].lines|
    ensures TaggedOn(box)(CleanLine(t, e, l)) == TaggedOn(box)(t.db.entries[e].lines[l]) - PatchedLine(t, e, box)(l)
  {
  }

  /** The exact drift the cleanup leaves: the drift before, less the cash it voids, plus the
      refund credits it tags. */
  lemma DriftAfter(t: Tables, box: CashboxId)
    ensures MainDrift(Clean(t).db, box) == MainDrift(t.db, box)
         - Sum(VoidedOn(t, box), Range(0, |t.db.cash|)) + Sum(PatchedOn(t, box), Range(0, |t.db.entries|))
  {
    var c := Clean(t).db;
    hide PlannedVoid, Patchable;
    SumDifference(CashIn(box, Everything()), t.db.cash, c.cash, VoidedOn(t, box));
    forall e | 0 <= e < |t.db.entries| ensures TaggedNet(box)(c.entries[e]) == TaggedNet(box)(t.db.entries[e]) - PatchedOn(t, box)(e) {
      EntryTagging(t, e, box);
    }
    SumDifference(TaggedNet(box), t.db.entries, c.entries, PatchedOn(t, box));
  }

  lemma NotAffected(t: Tables, box: CashboxId)
    requires box !in Affected(t)
    ensures forall k :: 0 <= k < |t.db.cash| && PlannedVoid(t, k) ==> t.db.cash[k].cashbox != box
    ensures forall e, l :: 0 <= e < |t.db.entries| && 0 <= l < |t.db.entries[e].lines| && Patchable(t, e, l) ==> ProposedBox(t, e) != box
  {
    hide Patchable, Listed, AnyDetected, HasEarlier;
  }

  lemma NothingTagged(t: Tables, box: CashboxId)
    requires box !in Affected(t)
    ensures Sum(PatchedOn(t, box), Range(0, |t.db.entries|)) == 0
  {
    NotAffected(t, box);
    hide PlannedVoid, Patchable, Affected, ProposedBox;
    forall e | 0 <= e < |t.db.entries| ensures PatchedOn(t, box)(Range(0, |t.db.entries|)[e]) == 0 {
      SumZero(PatchedLine(t, e, box), Range(0, |t.db.entries[e].lines|));
    }
    SumZero(PatchedOn(t, box), Range(0, |t.db.entries|));
  }

  /** Boxes outside the plan keep their drift and their cash. */
  lemma UnaffectedBox(t: Tables, box: CashboxId)
    requires box !in Affected(t)
    ensures CashNet(Clean(t).db, box, Everything()) == CashNet(t.db, box, Everything())
    ensures MainDrift(Clean(t).db, box) == MainDrift(t.db, box)
  {
    NotAffected(t, box);
    NothingTagged(t, box);
    hide PlannedVoid, Patchable, Affected, ProposedBox, MainDrift, PatchedOn;
    DriftAfter(t, box);
    SumZero(VoidedOn(t, box), Range(0, |t.db.cash|));
    SumDifference(CashIn(box, Everything()), t.db.cash, Clean(t).db.cash, VoidedOn(t, box));
  }

  /** A commit with its rebuild restores the balances of the affected boxes, and keeps all
      balances true if they were. */
  lemma RebuildRestores(t: Tables, b: CashboxId)
    requires b in t.db.boxes
    requires b in Affected(t) || t.db.boxes[b].balance == CashNet(t.db, b, Everything())
    ensures var d := Rebuilt(Clean(t).db, Affected(t)); d.boxes[b].balance == CashNet(d, b, Everything())
  {
    hide Affected;
    if b !in Affected(t) {
      UnaffectedBox(t, b);
    }
    assert CashNet(Rebuilt(Clean(t).db, Affected(t)), b, Everything()) == CashNet(Clean(t).db, b, Everything());
  }

  /** The cleanup commits if and only if each affected box drifts beforehand by exactly the
      cash the plan voids there less the refund credits it tags there. */
  lemma SettlesIff(t: Tables)
    ensures Settles(t) <==> forall box :: box in Affected(t) ==>
      MainDrift(t.db, box) == Sum(VoidedOn(t, box), Range(0, |t.db.cash|)) - Sum(PatchedOn(t, box), Range(0, |t.db.entries|))
  {
    hide Affected, MainDrift, VoidedOn, PatchedOn, Clean;
    forall box | box in Affected(t)
      ensures MainDrift(Clean(t).db, box) == MainDrift(t.db, box)
         - Sum(VoidedOn(t, box), Range(0, |t.db.cash|)) + Sum(PatchedOn(t, box), Range(0, |t.db.entries|))
    {
      DriftAfter(t, box);
    }
  }

  // Two edited invoices paid into one box. The rows of the first, 10 and 10, outweigh its entry
  // of 10; those of the second, 5 and 5, are exactly its entry of 10.

  function SaleRow(id: string, amount: Cents, at: int): CashTxn {
    CashTxn("main", In, amount, "sale", "invoice", Document(id), 0, at, false)
  }

  function InvoiceRow(id: string, isVoid: bool): Entry {
    Entry("invoice", Document(id), 0, [Line("cash", 10, 0, Some("main"), None), Line("sales", 0, 10, None, None)], None, isVoid)
  }

  function TwoInvoices(): Tables {
    Tables(
      Db([], map["main" := Cashbox("cash", 30)],
         [SaleRow("a", 10, 1), SaleRow("a", 10, 2), SaleRow("b", 5, 3), SaleRow("b", 5, 4)],
         [InvoiceRow("a", true), InvoiceRow("a", false), InvoiceRow("b", true), InvoiceRow("b", false)], false),
      map[], {Document("a"), Document("b")})
  }

  lemma TwoInvoicesEdited()
    ensures Edited(TwoInvoices(), Document("a")) && Edited(TwoInvoices(), Document("b"))
  {
    var t := TwoInvoices();
    var e := t.db.entries;
    assert "a" != "b" by { assert "a"[0] != "b"[0]; }
    assert InvoiceEntry(e[0], Document("a")) && e[0].isVoid && InvoiceEntry(e[2], Document("b")) && e[2].isVoid;
    assert LiveOf(e, Document("a"), 1) && LiveOf(e, Document("b"), 3);
    assert forall j: nat :: j < |e| && LiveOf(e, Document("a"), j) ==> j == 1;
    assert forall j: nat :: j < |e| && LiveOf(e, Document("b"), j) ==> j == 3;
  }

  lemma SumFour<T>(f: T -> int, a: T, b: T, c: T, d: T)
    ensures Sum(f, [a, b, c, d]) == f(a) + f(b) + f(c) + f(d)
  {
    SumTwo(f, a, b);
    SumTwo(f, c, d);
    SumCat(f, [a, b], [c, d]);
    assert [a, b] + [c, d] == [a, b, c, d];
  }

  lemma TwoInvoicesSums(k: nat)
    requires k < 4
    ensures var t := TwoInvoices(); var row := t.db.cash[k];
      && Sum(SaleAmount(row), t.db.cash) == (if k < 2 then 20 else 10)
      && Sum(InvoiceCash(row.refId, "main"), t.db.entries) == 10
  {
    var t := TwoInvoices();
    var row := t.db.cash[k];
    var id := if k < 2 then "a" else "b";
    assert "a" != "b" by { assert "a"[0] != "b"[0]; }
    SumFour(SaleAmount(row), t.db.cash[0], t.db.cash[1], t.db.cash[2], t.db.cash[3]);
    SumFour(InvoiceCash(row.refId, "main"), t.db.entries[0], t.db.entries[1], t.db.entries[2], t.db.entries[3]);
    SumTwo(TaggedOn("main"), InvoiceRow(id, false).lines[0], InvoiceRow(id, false).lines[1]);
  }

  lemma TwoInvoicesRows()
    ensures var t := TwoInvoices(); var cash := t.db.cash;
      && |cash| == 4 && |t.db.entries| == 4 && (forall e :: 0 <= e < 4 ==> t.db.entries[e].refType == "invoice")
      && (forall k :: 0 <= k < 4 ==> LiveSale(cash[k]) && cash[k].cashbox == "main" && cash[k].direction.In?)
      && (forall k :: 0 <= k < 4 ==> cash[k].amount == if k < 2 then 10 else 5)
      && (forall k :: 0 <= k < 4 ==> cash[k].refId == Document(if k < 2 then "a" else "b"))
      && (forall j, k :: 0 <= j < 4 && 0 <= k < 4 ==> (SameSale(cash[j], cash[k]) <==> (j < 2 <==> k < 2)))
      && (forall j, k :: 0 <= j < 4 && 0 <= k < 4 ==> (Earlier(cash, j, k) <==> j < k))
  {
    assert "a" != "b" by { assert "a"[0] != "b"[0]; }
  }

  lemma TwoInvoicesListed(k: nat)
    requires k < 4
    ensures var t := TwoInvoices(); |t.db.cash| == 4 && Listed(t, k) && (HasEarlier(t.db.cash, k) <==> k == 1 || k == 3)
  {
    TwoInvoicesRows();
    TwoInvoicesEdited();
    hide Edited, TwoInvoices, LiveSale, SameSale, Earlier;
    var cash := TwoInvoices().db.cash;
    var twin := if k == 0 then 1 else if k == 1 then 0 else if k == 2 then 3 else 2;
    assert LiveSale(cash[twin]) && SameSale(cash[twin], cash[k]) && (Earlier(cash, twin, k) <==> twin < k);
  }

  lemma TwoInvoicesDetected()
    ensures AnyDetected(TwoInvoices())
  {
    var t := TwoInvoices();
    TwoInvoicesRows();
    TwoInvoicesListed(0);
    TwoInvoicesSums(0);
    TwoInvoicesTagged();
    hide Listed, TwoInvoices, HasPatchedLine, InvoiceEntry;
    assert Detected(t, 0);
  }

  lemma TwoInvoicesTagged()
    ensures var t := TwoInvoices();
      && |t.db.entries| == 4 && !t.db.entries[1].isVoid
      && InvoiceEntry(t.db.entries[1], Document("a")) && HasPatchedLine(t.db.entries[1], "main")
  {
    assert TwoInvoices().db.entries[1].lines[0].cashbox == Some("main");
  }

  lemma TwoInvoicesVoids(k: nat)
    requires k < 4
    ensures |TwoInvoices().db.cash| == 4 && Planned(TwoInvoices(), k) && (PlannedVoid(TwoInvoices(), k) <==> k == 1 || k == 3)
  {
    TwoInvoicesDetected();
    TwoInvoicesListed(k);
    hide TwoInvoices, Listed, AnyDetected, HasEarlier;
  }

  lemma TwoInvoicesCleaned()
    ensures var t := TwoInvoices(); var c := Clean(t).db;
      && |c.cash| == |t.db.cash| == 4 && c.entries == t.db.entries
      && forall k :: 0 <= k < 4 ==> c.cash[k] == if k == 1 || k == 3 then t.db.cash[k].(isVoid := true) else t.db.cash[k]
  {
    var t := TwoInvoices();
    TwoInvoicesRows();
    hide PlannedVoid, Patchable, TwoInvoices, SameSale, LiveSale, Earlier;
    forall k | 0 <= k < 4 ensures PlannedVoid(t, k) <==> k == 1 || k == 3 {
      TwoInvoicesVoids(k);
    }
    forall e | 0 <= e < 4 ensures CleanEntry(t, e) == t.db.entries[e] {
      CleanKeepsInvoices(t, e);
    }
  }

  lemma TwoInvoicesCash()
    ensures var t := TwoInvoices(); CashNet(t.db, "main", Everything()) == 30 && CashNet(Clean(t).db, "main", Everything()) == 15
  {
    var t := TwoInvoices();
    TwoInvoicesRows();
    TwoInvoicesCleaned();
    var c := Clean(t).db;
    hide Clean, TwoInvoices;
    assert forall k :: 0 <= k < 4 ==> Everything()(t.db.cash[k].entity, t.db.cash[k].refId);
    var f := CashIn("main", Everything());
    SumFour(f, t.db.cash[0], t.db.cash[1], t.db.cash[2], t.db.cash[3]);
    SumFour(f, c.cash[0], c.cash[1], c.cash[2], c.cash[3]);
    assert c.cash == [c.cash[0], c.cash[1], c.cash[2], c.cash[3]];
    assert t.db.cash == [t.db.cash[0], t.db.cash[1], t.db.cash[2], t.db.cash[3]];
    assert f(t.db.cash[0]) == f(t.db.cash[1]) == 10 && f(t.db.cash[2]) == f(t.db.cash[3]) == 5;
    assert f(c.cash[1]) == f(c.cash[3]) == 0;
  }

  lemma TwoInvoicesJournal()
    ensures Sum(TaggedNet("main"), TwoInvoices().db.entries) == 20
  {
    var e := TwoInvoices().db.entries;
    SumFour(TaggedNet("main"), e[0], e[1], e[2], e[3]);
    SumTwo(TaggedOn("main"), e[1].lines[0], e[1].lines[1]);
    SumTwo(TaggedOn("main"), e[3].lines[0], e[3].lines[1]);
  }

  lemma TwoInvoicesDrift()
    ensures var t := TwoInvoices(); MainDrift(t.db, "main") == 10 && MainDrift(Clean(t).db, "main") == -5
  {
    TwoInvoicesCleaned();
    TwoInvoicesCash();
    TwoInvoicesJournal();
    hide TwoInvoices, Clean, CashNet, TaggedNet;
  }

  lemma TwoInvoicesSound(j: nat)
    requires 2 <= j < 4
    ensures |TwoInvoices().db.cash| == 4 && !Detected(TwoInvoices(), j)
  {
    TwoInvoicesRows();
    TwoInvoicesSums(j);
    hide TwoInvoices, Listed, SameSale, LiveSale, Earlier, SaleAmount, InvoiceCash;
  }

  lemma PlannedIsAffected(t: Tables, k: nat)
    requires k < |t.db.cash| && Planned(t, k)
    ensures t.db.cash[k].cashbox in Affected(t)
  {
    hide Planned, Patchable, ProposedBox;
  }

  /** Because the first group is detected, the plan lists the second as well. It voids a row of
      it although its rows agree with its entry, the box ends with less cash than the journal
      says, and nothing at all is committed. */
  lemma SoundGroupIsVoided() returns (t: Tables, k: nat)
    ensures k < |t.db.cash| && Planned(t, k) && PlannedVoid(t, k) && Clean(t).db.cash[k].isVoid
    ensures Sum(SaleAmount(t.db.cash[k]), t.db.cash) == Sum(InvoiceCash(t.db.cash[k].refId, t.db.cash[k].cashbox), t.db.entries)
    ensures forall j :: 0 <= j < |t.db.cash| && SameSale(t.db.cash[j], t.db.cash[k]) ==> !Detected(t, j)
    ensures MainDrift(t.db, t.db.cash[k].cashbox) == 10 && MainDrift(Clean(t).db, t.db.cash[k].cashbox) == -5 && !Settles(t)
  {
    hide TwoInvoices, Detected, Planned, PlannedVoid, Clean, MainDrift, Affected, SameSale, LiveSale, Earlier, SaleAmount, InvoiceCash;
    t, k := TwoInvoices(), 3;
    TwoInvoicesRows();
    TwoInvoicesVoids(3);
    TwoInvoicesSums(3);
    TwoInvoicesSound(2);
    TwoInvoicesSound(3);
    TwoInvoicesCleaned();
    TwoInvoicesDrift();
    PlannedIsAffected(t, 3);
  }

  // ----- what the plan lists, on the tables themselves -----

  ghost predicate InvoiceSale(t: Tables, k: nat) {
    k < |t.db.cash| && !t.db.cash[k].isVoid && t.db.cash[k].entity == "invoice" && t.db.cash[k].category == "sale"
  }

  /** A known invoice that has a void entry and exactly one live one. */
  ghost predicate WasEdited(t: Tables, id: RefId) {
    && id in t.invoices
    && (exists v: nat :: v < |t.db.entries| && t.db.entries[v].refType == "invoice" && t.db.entries[v].refId == id && t.db.entries[v].isVoid)
    && (exists i: nat :: i < |t.db.entries| && t.db.entries[i].refType == "invoice" && t.db.entries[i].refId == id && !t.db.entries[i].isVoid)
    && forall i: nat, j: nat ::
         (i < |t.db.entries| && j < |t.db.entries|
          && t.db.entries[i].refType == t.db.entries[j].refType == "invoice" && t.db.entries[i].refId == t.db.entries[j].refId == id
          && !t.db.entries[i].isVoid && !t.db.entries[j].isVoid) ==> i == j
  }

  /** Row `k` is a live sale of an edited invoice, and row `j` is another one in the same box. */
  ghost predicate Twins(t: Tables, j: nat, k: nat) {
    && InvoiceSale(t, j) && InvoiceSale(t, k) && j != k && WasEdited(t, t.db.cash[k].refId)
    && t.db.cash[j].refId == t.db.cash[k].refId && t.db.cash[j].cashbox == t.db.cash[k].cashbox
  }

  ghost predicate HasTwin(t: Tables, k: nat) { exists j: nat :: Twins(t, j, k) }

  /** It has a twin that was written before it. */
  ghost predicate HasOlderTwin(t: Tables, k: nat) {
    exists j: nat :: Twins(t, j, k)
      && (t.db.cash[j].createdAt < t.db.cash[k].createdAt || (t.db.cash[j].createdAt == t.db.cash[k].createdAt && j < k))
  }

  function SalesOf(id: RefId, box: CashboxId): CashTxn -> int {
    (c: CashTxn) => if !c.isVoid && c.entity == "invoice" && c.category == "sale" && c.refId == id && c.cashbox == box then c.amount else 0
  }

  function BookedFor(id: RefId, box: CashboxId): Entry -> int {
    (e: Entry) => if !e.isVoid && e.refType == "invoice" && e.refId == id then Sum(TaggedOn(box), e.lines) else 0
  }

  /** Row `k` has a twin, its live entry has a line in the box, and the rows outweigh the lines. */
  ghost predicate Outweighs(t: Tables, k: nat) {
    && HasTwin(t, k)
    && (exists i: nat, l: nat :: i < |t.db.entries| && l < |t.db.entries[i].lines| && !t.db.entries[i].isVoid && t.db.entries[i].refType == "invoice"
         && t.db.entries[i].refId == t.db.cash[k].refId && t.db.entries[i].lines[l].cashbox == Some(t.db.cash[k].cashbox))
    && Sum(SalesOf(t.db.cash[k].refId, t.db.cash[k].cashbox), t.db.cash) > Sum(BookedFor(t.db.cash[k].refId, t.db.cash[k].cashbox), t.db.entries)
  }

  /** The gate of the plan. */
  ghost predicate SomethingOutweighs(t: Tables) { exists k: nat :: Outweighs(t, k) }

  ghost predicate UntaggedCredit(l: Line, amount: Cents) { l.cashbox.None? && l.debit == 0 && l.credit == amount > 0 }

  /** An untagged credit line of the live entry of a cash refund, the only one of its amount, that
      a live refund row of the return in its box pays out. */
  ghost predicate LoneRefund(t: Tables, e: nat, l: nat, box: CashboxId) {
    && e < |t.db.entries| && l < |t.db.entries[e].lines|
    && t.db.entries[e].refType == "return" && !t.db.entries[e].isVoid
    && t.db.entries[e].refId in t.returned && t.returned[t.db.entries[e].refId] == Refund(Some(box), "cash")
    && var credit := t.db.entries[e].lines[l].credit;
       && UntaggedCredit(t.db.entries[e].lines[l], credit)
       && (forall m: nat :: m < |t.db.entries[e].lines| && UntaggedCredit(t.db.entries[e].lines[m], credit) ==> m == l)
       && exists k: nat :: k < |t.db.cash| && !t.db.cash[k].isVoid && t.db.cash[k].entity == "return" && t.db.cash[k].category == "refund"
            && t.db.cash[k].refId == t.db.entries[e].refId && t.db.cash[k].cashbox == box && t.db.cash[k].amount == credit
  }

  lemma WasEditedIff(t: Tables, id: RefId)
    ensures Edited(t, id) <==> WasEdited(t, id)
  {
    var e := t.db.entries;
    if Edited(t, id) {
      var l: nat :| l < |e| && LiveOf(e, id, l) && forall j: nat :: j < |e| && LiveOf(e, id, j) ==> j == l;
      forall i: nat | i < |e| && e[i].refType == "invoice" && e[i].refId == id && !e[i].isVoid ensures i == l {
        assert LiveOf(e, id, i);
      }
      assert e[l].refType == "invoice";
      var v: nat :| v < |e| && InvoiceEntry(e[v], id) && e[v].isVoid;
      assert e[v].refType == "invoice";
    }
    if WasEdited(t, id) {
      var v: nat :| v < |e| && e[v].refType == "invoice" && e[v].refId == id && e[v].isVoid;
      assert InvoiceEntry(e[v], id);
      var l: nat :| l < |e| && e[l].refType == "invoice" && e[l].refId == id && !e[l].isVoid;
      assert LiveOf(e, id, l);
      forall j: nat | j < |e| && LiveOf(e, id, j) ensures j == l {
        assert e[j].refType == "invoice";
      }
    }
  }

  lemma ListedIff(t: Tables, k: nat)
    requires k < |t.db.cash|
    ensures Listed(t, k) <==> HasTwin(t, k)
    ensures Listed(t, k) && HasEarlier(t.db.cash, k) <==> HasOlderTwin(t, k)
  {
    var cash := t.db.cash;
    WasEditedIff(t, cash[k].refId);
    hide Edited, WasEdited;
    if Listed(t, k) {
      var j :| 0 <= j < |cash| && j != k && LiveSale(cash[j]) && SameSale(cash[j], cash[k]);
      assert Twins(t, j, k);
      if HasEarlier(cash, k) {
        var i :| 0 <= i < |cash| && LiveSale(cash[i]) && SameSale(cash[i], cash[k]) && Earlier(cash, i, k);
        assert Twins(t, i, k);
      }
    }
    if HasTwin(t, k) {
      var j: nat :| Twins(t, j, k);
      assert LiveSale(cash[j]) && SameSale(cash[j], cash[k]);
    }
    if HasOlderTwin(t, k) {
      var j: nat :| Twins(t, j, k) && (cash[j].createdAt < cash[k].createdAt || (cash[j].createdAt == cash[k].createdAt && j < k));
      assert LiveSale(cash[j]) && SameSale(cash[j], cash[k]) && Earlier(cash, j, k);
    }
  }

  lemma DetectedIff(t: Tables, k: nat)
    requires k < |t.db.cash|
    ensures Detected(t, k) <==> Outweighs(t, k)
  {
    var c := t.db.cash[k];
    ListedIff(t, k);
    SumSame(SaleAmount(c), SalesOf(c.refId, c.cashbox), t.db.cash);
    SumSame(InvoiceCash(c.refId, c.cashbox), BookedFor(c.refId, c.cashbox), t.db.entries);
    hide Listed, HasTwin, Sum;
    if Detected(t, k) {
      var i :| 0 <= i < |t.db.entries| && !t.db.entries[i].isVoid && InvoiceEntry(t.db.entries[i], c.refId) && HasPatchedLine(t.db.entries[i], c.cashbox);
      var l :| 0 <= l < |t.db.entries[i].lines| && t.db.entries[i].lines[l].cashbox == Some(c.cashbox);
      assert t.db.entries[i].refType == "invoice";
    }
    if Outweighs(t, k) {
      var i: nat, l: nat :| i < |t.db.entries| && l < |t.db.entries[i].lines| && !t.db.entries[i].isVoid && t.db.entries[i].refType == "invoice"
         && t.db.entries[i].refId == c.refId && t.db.entries[i].lines[l].cashbox == Some(c.cashbox);
      assert InvoiceEntry(t.db.entries[i], c.refId) && HasPatchedLine(t.db.entries[i], c.cashbox);
    }
  }

  /** The gate opens and a row is listed, kept or voided, exactly as the tables say. */
  lemma PlannedIff(t: Tables, k: nat)
    requires k < |t.db.cash|
    ensures Planned(t, k) <==> SomethingOutweighs(t) && HasTwin(t, k)
    ensures PlannedVoid(t, k) <==> SomethingOutweighs(t) && HasOlderTwin(t, k)
  {
    ListedIff(t, k);
    hide Listed, HasTwin, HasOlderTwin, HasEarlier, Detected, Outweighs;
    if AnyDetected(t) {
      var i :| 0 <= i < |t.db.cash| && Detected(t, i);
      DetectedIff(t, i);
    }
    if SomethingOutweighs(t) {
      var i: nat :| Outweighs(t, i);
      assert i < |t.db.cash| by { OutweighsInTable(t, i); }
      DetectedIff(t, i);
    }
  }

  lemma OutweighsInTable(t: Tables, k: nat)
    requires Outweighs(t, k)
    ensures k < |t.db.cash|
  {
  }

  lemma PatchIff(t: Tables, e: nat, l: nat)
    ensures IsPatch(t, e, l) <==> exists box :: LoneRefund(t, e, l, box)
    ensures IsPatch(t, e, l) ==> LoneRefund(t, e, l, ProposedBox(t, e))
  {
    if IsPatch(t, e, l) {
      var entry := t.db.entries[e];
      var box := t.returned[entry.refId].cashbox.value;
      var k :| 0 <= k < |t.db.cash| && PairedRefund(t.db.cash[k], entry.refId, box) && RefundLine(entry.lines[l], t.db.cash[k].amount)
        && forall m :: 0 <= m < |entry.lines| && RefundLine(entry.lines[m], t.db.cash[k].amount) ==> m == l;
      assert entry.lines[l].credit == t.db.cash[k].amount;
      forall m: nat | m < |entry.lines| && UntaggedCredit(entry.lines[m], entry.lines[l].credit) ensures m == l {
        assert RefundLine(entry.lines[m], t.db.cash[k].amount);
      }
      assert LoneRefund(t, e, l, box);
    }
    if exists box :: LoneRefund(t, e, l, box) {
      var box :| LoneRefund(t, e, l, box);
      var entry := t.db.entries[e];
      var k: nat :| k < |t.db.cash| && !t.db.cash[k].isVoid && t.db.cash[k].entity == "return" && t.db.cash[k].category == "refund"
        && t.db.cash[k].refId == entry.refId && t.db.cash[k].cashbox == box && t.db.cash[k].amount == entry.lines[l].credit;
      assert PairedRefund(t.db.cash[k], entry.refId, box) && RefundLine(entry.lines[l], t.db.cash[k].amount);
      forall m | 0 <= m < |entry.lines| && RefundLine(entry.lines[m], t.db.cash[k].amount) ensures m == l {
        assert UntaggedCredit(entry.lines[m], entry.lines[l].credit);
      }
    }
  }

  // ----- what a committed cleanup leaves -----

  /** A box with a row in a planned group, or with a line that is tagged. */
  ghost predicate Touched(t: Tables, box: CashboxId) {
    || (SomethingOutweighs(t) && exists k: nat :: HasTwin(t, k) && k < |t.db.cash| && t.db.cash[k].cashbox == box)
    || exists e: nat, l: nat :: LoneRefund(t, e, l, box)
  }

  function LiveTagged(box: CashboxId): Entry -> int { (e: Entry) => if e.isVoid then 0 else Sum(TaggedOn(box), e.lines) }

  /** The older twins' later copies are void and nothing else of the cash is changed; the lone
      refund lines carry the box of their return and nothing else of the journal is changed. */
  ghost predicate RowsAndLines(t: Tables, d: Db, voided: seq<nat>, patched: seq<(nat, nat)>) {
    && d.accounts == t.db.accounts && d.locked == t.db.locked
    && (forall k: nat :: k in voided <==> SomethingOutweighs(t) && HasOlderTwin(t, k))
    && (forall e: nat, l: nat :: (e, l) in patched <==> exists box :: LoneRefund(t, e, l, box))
    && |d.cash| == |t.db.cash|
    && (forall k :: 0 <= k < |d.cash| ==> d.cash[k] == if k in voided then t.db.cash[k].(isVoid := true) else t.db.cash[k])
    && |d.entries| == |t.db.entries|
    && forall e :: 0 <= e < |d.entries| ==>
         && d.entries[e] == t.db.entries[e].(lines := d.entries[e].lines) && |d.entries[e].lines| == |t.db.entries[e].lines|
         && forall l :: 0 <= l < |d.entries[e].lines| ==>
              && ((e, l) !in patched ==> d.entries[e].lines[l] == t.db.entries[e].lines[l])
              && forall box :: LoneRefund(t, e, l, box) ==> d.entries[e].lines[l] == t.db.entries[e].lines[l].(cashbox := Some(box))
  }

  /** A rebuild sets the balance of each touched box to its live cash, and no other. */
  ghost predicate BalancesRebuilt(t: Tables, d: Db, rebuild: bool) {
    d.boxes.Keys == t.db.boxes.Keys
    && forall b :: b in d.boxes ==>
         d.boxes[b] == if rebuild && Touched(t, b) then t.db.boxes[b].(balance := CashNet(d, b, Everything())) else t.db.boxes[b]
  }

  lemma TouchedIff(t: Tables, box: CashboxId)
    ensures box in Affected(t) <==> Touched(t, box)
  {
    hide Planned, Patchable, HasTwin, LoneRefund, SomethingOutweighs;
    if box in Affected(t) {
      if k: nat :| k < |t.db.cash| && Planned(t, k) && t.db.cash[k].cashbox == box {
        PlannedIff(t, k);
      } else {
        var e: nat, l: nat :| e < |t.db.entries| && l < |t.db.entries[e].lines| && Patchable(t, e, l) && ProposedBox(t, e) == box;
        PatchIff(t, e, l);
      }
    }
    if Touched(t, box) {
      if k: nat :| SomethingOutweighs(t) && HasTwin(t, k) && k < |t.db.cash| && t.db.cash[k].cashbox == box {
        PlannedIff(t, k);
      } else {
        var e: nat, l: nat :| LoneRefund(t, e, l, box);
        PatchIff(t, e, l);
        OneBox(t, e, l, box, ProposedBox(t, e));
      }
    }
  }

  lemma OneBox(t: Tables, e: nat, l: nat, a: CashboxId, b: CashboxId)
    requires LoneRefund(t, e, l, a) && LoneRefund(t, e, l, b)
    ensures a == b
  {
  }

  lemma CleanedRows(t: Tables, voided: seq<nat>, patched: seq<(nat, nat)>)
    requires forall k: nat :: k in voided <==> k < |t.db.cash| && PlannedVoid(t, k)
    requires forall e: nat, l: nat :: (e, l) in patched <==> IsPatch(t, e, l)
    ensures RowsAndLines(t, Clean(t).db, voided, patched)
  {
    hide PlannedVoid, Patchable, HasOlderTwin, LoneRefund, SomethingOutweighs;
    forall k: nat ensures k in voided <==> SomethingOutweighs(t) && HasOlderTwin(t, k) {
      if k < |t.db.cash| { PlannedIff(t, k); } else { OlderTwinInTable(t, k); }
    }
    forall e: nat, l: nat ensures (e, l) in patched <==> exists box :: LoneRefund(t, e, l, box) {
      PatchIff(t, e, l);
    }
    var d := Clean(t).db;
    forall e, l, box | 0 <= e < |d.entries| && 0 <= l < |d.entries[e].lines| && LoneRefund(t, e, l, box)
      ensures d.entries[e].lines[l] == t.db.entries[e].lines[l].(cashbox := Some(box))
    {
      PatchIff(t, e, l);
      OneBox(t, e, l, box, ProposedBox(t, e));
    }
  }

  lemma OlderTwinInTable(t: Tables, k: nat)
    ensures HasOlderTwin(t, k) ==> k < |t.db.cash|
  {
  }

  lemma CleanedBalances(t: Tables, rebuild: bool)
    ensures BalancesRebuilt(t, if rebuild then Rebuilt(Clean(t).db, Affected(t)) else Clean(t).db, rebuild)
  {
    hide Affected, Touched, CleanRow, CleanEntry, PlannedVoid, Patchable;
    var c := Clean(t).db;
    forall b | b in c.boxes ensures b in Affected(t) <==> Touched(t, b) {
      TouchedIff(t, b);
    }
    forall b ensures CashNet(Rebuilt(c, Affected(t)), b, Everything()) == CashNet(c, b, Everything()) {}
  }

  lemma SettledAgrees(t: Tables, d: Db, box: CashboxId)
    requires Settles(t) && Touched(t, box) && d.cash == Clean(t).db.cash && d.entries == Clean(t).db.entries
    ensures CashNet(d, box, Everything()) == Sum(LiveTagged(box), d.entries)
  {
    TouchedIff(t, box);
    hide Affected, Touched, Clean;
    SumSame(TaggedNet(box), LiveTagged(box), d.entries);
  }

  // ----- the cleanup as it runs -----

  datatype Outcome = RefusedToken | DriftLeft(box: CashboxId) | Done(voided: seq<nat>, patched: seq<(nat, nat)>)

  class DriftCleanup {
    const engine: FinancialEngine
    const returned: map<RefId, Refund>
    const invoices: set<RefId>

    function Snapshot(): Tables
      reads engine
    {
      Tables(engine.Snapshot(), returned, invoices)
    }

    constructor (engine: FinancialEngine, returned: map<RefId, Refund>, invoices: set<RefId>)
      ensures this.engine == engine && this.returned == returned && this.invoices == invoices
    {
      this.engine, this.returned, this.invoices := engine, returned, invoices;
    }

    /** Pattern A: void the planned rows that are still live. */
    method VoidDuplicates(rows: seq<nat>) returns (voided: seq<nat>)
      requires forall i :: 0 <= i < |rows| ==> rows[i] < |engine.cash|
      modifies engine`cash
      ensures |engine.cash| == |old(engine.cash)|
      ensures forall k :: 0 <= k < |engine.cash| ==>
        engine.cash[k] == if k in rows then old(engine.cash)[k].(isVoid := true) else old(engine.cash)[k]
      ensures forall k :: k in voided <==> k in rows && !old(engine.cash)[k].isVoid
    {
      voided := [];
      for i := 0 to |rows|
        invariant |engine.cash| == |old(engine.cash)|
        invariant forall k :: 0 <= k < |engine.cash| ==>
          engine.cash[k] == if k in rows[..i] then old(engine.cash)[k].(isVoid := true) else old(engine.cash)[k]
        invariant forall k :: k in voided <==> k in rows[..i] && !old(engine.cash)[k].isVoid
      {
        assert rows[..i + 1] == rows[..i] + [rows[i]];
        if !engine.cash[rows[i]].isVoid {
          engine.cash := engine.cash[rows[i] := engine.cash[rows[i]].(isVoid := true)];
          voided := voided + [rows[i]];
        }
      }
      assert rows[..|rows|] == rows;
    }

    /** Pattern B: tag the planned lines that are still untagged. */
    method PatchLines(ghost t: Tables, patches: seq<(nat, nat)>) returns (patched: seq<(nat, nat)>)
      requires t.db.entries == engine.entries && t.returned == returned
      requires forall i :: 0 <= i < |patches| ==>
        IsPatch(t, patches[i].0, patches[i].1)
      requires forall e, l :: 0 <= e < |t.db.entries| && 0 <= l < |t.db.entries[e].lines| && Patchable(t, e, l) ==> (e, l) in patches
      modifies engine`entries
      ensures engine.entries == Clean(t).db.entries
      ensures forall p :: p in patched <==> p in patches
    {
      patched := [];
      hide Patchable;
      for i := 0 to |patches|
        invariant PatchedUpTo(t, engine.entries, patches[..i])
        invariant forall p :: p in patched <==> p in patches[..i]
      {
        assert patches[..i + 1] == patches[..i] + [patches[i]];
        var (e, l) := patches[i];
        var line := engine.entries[e].lines[l];
        LineUntagged(t, e, l);
        if line.cashbox.None? {
          var id := engine.entries[e].refId;
          engine.entries := engine.entries[e := engine.entries[e].(lines := engine.entries[e].lines[l := line.(cashbox := returned[id].cashbox)])];
          patched := patched + [(e, l)];
        }
      }
      assert patches[..|patches|] == patches;
      AllPatched(t, engine.entries, patches);
    }

    method PlanVoids() returns (rows: seq<nat>)
      ensures forall k: nat :: k in rows <==> k < |engine.cash| && PlannedVoid(Snapshot(), k)
    {
      rows := [];
      hide PlannedVoid;
      for k := 0 to |engine.cash|
        invariant forall j: nat :: j in rows <==> j < k && PlannedVoid(Snapshot(), j)
      {
        if PlannedVoid(Snapshot(), k) {
          rows := rows + [k];
        }
      }
    }

    method PlanPatches() returns (patches: seq<(nat, nat)>)
      ensures forall e: nat, l: nat :: (e, l) in patches <==> IsPatch(Snapshot(), e, l)
    {
      patches := [];
      hide Patchable;
      for e := 0 to |engine.entries|
        invariant forall i: nat, j: nat :: (i, j) in patches <==> i < e && IsPatch(Snapshot(), i, j)
      {
        for l := 0 to |engine.entries[e].lines|
          invariant forall i: nat, j: nat :: (i, j) in patches <==> (i < e || (i == e && j < l)) && IsPatch(Snapshot(), i, j)
        {
          if Patchable(Snapshot(), e, l) {
            patches := patches + [(e, l)];
          }
        }
      }
    }

    /** The first affected box that still drifts. */
    method CheckDrift(boxes: set<CashboxId>) returns (bad: Option<CashboxId>)
      ensures bad.None? ==> forall box :: box in boxes ==> MainDrift(engine.Snapshot(), box) == 0
      ensures bad.Some? ==> bad.value in boxes && MainDrift(engine.Snapshot(), bad.value) != 0
    {
      var todo := boxes;
      while todo != {}
        invariant todo <= boxes
        invariant forall box :: box in boxes - todo ==> MainDrift(engine.Snapshot(), box) == 0
      {
        var box :| box in todo;
        if MainDrift(engine.Snapshot(), box) != 0 {
          return Some(box);
        }
        todo := todo - {box};
      }
      return None;
    }

    /** `rebuildCashboxBalance` for each affected box. */
    method RebuildBalances(affected: set<CashboxId>)
      modifies engine`boxes
      ensures engine.Snapshot() == Rebuilt(old(engine.Snapshot()), affected)
    {
      var todo := affected;
      ghost var start := engine.Snapshot();
      while todo != {}
        invariant todo <= affected
        invariant engine.Snapshot() == Rebuilt(start, affected - todo)
      {
        var box :| box in todo;
        if box in engine.boxes {
          engine.boxes := engine.boxes[box := engine.boxes[box].(balance := CashNet(engine.Snapshot(), box, Everything()))];
        }
        todo := todo - {box};
      }
      assert affected - todo == affected;
    }

    /** Commits the cleaned tables when every affected box settles, and changes nothing otherwise. */
    method Execute(confirm: string, rebuild: bool) returns (o: Outcome)
      modifies engine
      ensures confirm != EXECUTE_CONFIRM_TOKEN ==> o.RefusedToken?
      ensures confirm == EXECUTE_CONFIRM_TOKEN && !Settles(old(Snapshot())) ==>
        o.DriftLeft? && o.box in Affected(old(Snapshot())) && MainDrift(Clean(old(Snapshot())).db, o.box) != 0
      ensures !o.Done? ==> Snapshot() == old(Snapshot())
      ensures confirm == EXECUTE_CONFIRM_TOKEN && Settles(old(Snapshot())) ==> var t := old(Snapshot());
        && o.Done?
        && (forall k: nat :: k in o.voided <==> k < |t.db.cash| && PlannedVoid(t, k))
        && (forall e: nat, l: nat :: (e, l) in o.patched <==> IsPatch(t, e, l))
        && engine.Snapshot() == if rebuild then Rebuilt(Clean(t).db, Affected(t)) else Clean(t).db
      ensures o.Done? ==> var t, d := old(Snapshot()), engine.Snapshot();
        && confirm == "DRIFT_HISTORICAL_CLEANUP_2026_05" && RowsAndLines(t, d, o.voided, o.patched) && BalancesRebuilt(t, d, rebuild)
        && forall box :: Touched(t, box) ==> CashNet(d, box, Everything()) == Sum(LiveTagged(box), d.entries)
    {
      if confirm != EXECUTE_CONFIRM_TOKEN {
        return RefusedToken;
      }
      var t := Snapshot();
      var rows := PlanVoids();
      var patches := PlanPatches();
      hide Planned, Patchable, HasEarlier, Affected, MainDrift;
      forall i | 0 <= i < |rows| ensures rows[i] < |engine.cash| {
        assert rows[i] in rows;
      }
      forall i | 0 <= i < |patches| ensures IsPatch(t, patches[i].0, patches[i].1) {
        assert (patches[i].0, patches[i].1) in patches;
      }
      var voided := VoidDuplicates(rows);
      assert engine.cash == Clean(t).db.cash;
      var patched := PatchLines(t, patches);
      assert Snapshot() == Clean(t);
      CleanLeavesNothing(t);
      var leftA := PlanVoids();
      var leftB := PlanPatches();
      assert leftA == [] && leftB == [] by {
        forall p | p in leftB ensures IsPatch(Snapshot(), p.0, p.1) {
          assert p == (p.0, p.1);
        }
        EmptyOrMember(leftA);
        EmptyOrMember(leftB);
      }
      var bad := CheckDrift(Affected(t));
      if bad.Some? {
        engine.Restore(t.db);
        return DriftLeft(bad.value);
      }
      if rebuild {
        RebuildBalances(Affected(t));
      }
      hide Clean, Settles, RowsAndLines, BalancesRebuilt, Touched, CashNet;
      CleanedRows(t, voided, patched);
      CleanedBalances(t, rebuild);
      SameTables(t, Clean(t).db, engine.Snapshot(), voided, patched);
      forall box | Touched(t, box) ensures CashNet(engine.Snapshot(), box, Everything()) == Sum(LiveTagged(box), engine.entries) {
        SettledAgrees(t, engine.Snapshot(), box);
      }
      return Done(voided, patched);
    }
  }

  lemma SameTables(t: Tables, c: Db, d: Db, voided: seq<nat>, patched: seq<(nat, nat)>)
    requires RowsAndLines(t, c, voided, patched)
    requires d.accounts == c.accounts && d.locked == c.locked && d.cash == c.cash && d.entries == c.entries
    ensures RowsAndLines(t, d, voided, patched)
  {
    hide SomethingOutweighs, HasOlderTwin, LoneRefund;
  }

  lemma EmptyOrMember<T>(s: seq<T>)
    ensures s == [] || exists x :: x in s
  {
    if |s| > 0 {
      assert s[0] in s;
    }
  }

  predicate IsPatch(t: Tables, e: nat, l: nat) {
    e < |t.db.entries| && l < |t.db.entries[e].lines| && Patchable(t, e, l)
  }

  ghost predicate PatchedUpTo(t: Tables, entries: seq<Entry>, done: seq<(nat, nat)>) {
    && |entries| == |t.db.entries|
    && forall e :: 0 <= e < |entries| ==>
         && entries[e] == t.db.entries[e].(lines := entries[e].lines)
         && |entries[e].lines| == |t.db.entries[e].lines|
         && forall l :: 0 <= l < |entries[e].lines| ==>
              entries[e].lines[l] == if (e, l) in done then CleanLine(t, e, l) else t.db.entries[e].lines[l]
  }

  lemma LineUntagged(t: Tables, e: nat, l: nat)
    requires e < |t.db.entries| && l < |t.db.entries[e].lines| && Patchable(t, e, l)
    ensures t.db.entries[e].lines[l].cashbox.None? && t.db.entries[e].refId in t.returned
    ensures t.returned[t.db.entries[e].refId].cashbox == Some(ProposedBox(t, e))
    ensures CleanLine(t, e, l) == t.db.entries[e].lines[l].(cashbox := Some(ProposedBox(t, e)))
  {
  }

  lemma AllPatched(t: Tables, entries: seq<Entry>, patches: seq<(nat, nat)>)
    requires PatchedUpTo(t, entries, patches)
    requires forall e, l :: 0 <= e < |t.db.entries| && 0 <= l < |t.db.entries[e].lines| && Patchable(t, e, l) ==> (e, l) in patches
    ensures entries == Clean(t).db.entries
  {
    hide Patchable;
    forall e | 0 <= e < |entries| ensures entries[e] == CleanEntry(t, e) {
      assert entries[e].lines == CleanEntry(t, e).lines;
    }
  }
}
