/**
 When creating and editing an expense goes through, read off the desk and the chart before
 the call, and the entries that an accepted one leaves.
 */
module ExpenseEdits {
  import opened Sums
  import opened Ledger
  import opened Engine
  import opened Runs
  import opened Alignment
  import opened Recipes
  import opened Corrections
  import opened ExpenseDesk
  import opened ExpenseRuns
  import opened RecipeBooks
  import Written = Postings
  import Approvals

  // ----- when corrections are accepted -----

  /** An account the guard does not watch and no employee has to be named on. */
  ghost predicate PlainAccount(db: Db, id: AccountId) { PlainCounterpart(db, ById(id)) }

  /** Nothing to correct, or nothing locked, the boxes whose cash moves watched, and the accounts
      that take the other side plain. */
  ghost predicate Correctable(db: Db, a: CorrectionArgs) {
    var amount, box, category := a.newAmount != a.oldAmount, a.newBox != a.oldBox, a.newCategory != a.oldCategory;
    && (amount || box || category ==> !db.locked)
    && (amount || box ==> LiquidBox(db, a.oldBox)) && (box ==> LiquidBox(db, a.newBox))
    && (amount || category ==> PlainAccount(db, a.oldCategory)) && (category ==> PlainAccount(db, a.newCategory))
  }

  /** Amounts are positive and accounts are named; a cashbox may be missing. */
  ghost predicate Stated(a: CorrectionArgs) { a.oldAmount > 0 && a.newAmount > 0 && a.oldCategory != "" && a.newCategory != "" }

  /** The books before the next correction: the chart of the start, and only keys of parts done. */
  ghost predicate Reached(db: Db, d: Db, request: nat, parts: set<string>) {
    SameChart(db, d) && d.locked == db.locked && OnlyParts(d, request, parts)
  }

  lemma OpenPart(d: Db, refType: string, request: nat, part: string, parts: set<string>)
    requires OnlyParts(d, request, parts) && part !in parts
    ensures Open(d, refType, Derived(request, part)) <==> !d.locked
    ensures FindLive(d.entries, refType, Derived(request, part)).None?
  {
  }

  lemma SameLiquid(db: Db, d: Db, box: CashboxId)
    requires SameChart(db, d)
    ensures LiquidBox(d, box) <==> LiquidBox(db, box)
  {
  }

  lemma SamePlain(db: Db, d: Db, id: AccountId)
    requires SameChart(db, d)
    ensures PlainAccount(d, id) <==> PlainAccount(db, id)
  {
  }

  lemma NoBoxRefused(d: Db, s: Spec)
    requires exists k :: 0 <= k < |s.movements| && s.movements[k].cashbox == ""
    ensures Record(d, s).1.Rejected?
  {
    Written.RefusedExactlyWhen(d, s);
    hide Record;
  }

  lemma PartReached(db: Db, d: Db, s: Spec, request: nat, part: string, parts: set<string>)
    requires Reached(db, d, request, parts) && s.refId == Derived(request, part) && part !in parts && s.reversalOf.None?
    requires Sum(AskedDebit(), s.lines) >= 1 && !Record(d, s).1.Rejected?
    ensures Record(d, s).1.Posted? && Reached(db, Record(d, s).0, request, parts + {part})
  {
    hide Record, OnlyParts;
    CorrectionPosts(d, s, request, part, parts);
    SameCharts(db, d, Record(d, s).0);
    var _ := RecordCases(d, s);
  }

  lemma AmountAccepted(db: Db, d: Db, a: CorrectionArgs)
    requires Stated(a) && AmountChanged(a) && Reached(db, d, a.request, {})
    ensures var s := AmountDeltaSpec(a, a.oldCategory, a.oldBox);
      && (!Record(d, s).1.Rejected? <==> !db.locked && LiquidBox(db, a.oldBox) && PlainAccount(db, a.oldCategory))
      && (!Record(d, s).1.Rejected? ==> Record(d, s).1.Posted? && Reached(db, Record(d, s).0, a.request, {"amount_delta"}))
  {
    var s := AmountDeltaSpec(a, a.oldCategory, a.oldBox);
    hide Record, OnlyParts, Open, CashboxAccount, Reached, PlainCounterpart;
    ReachedParts(db, d, a.request, {});
    AskedTwo(s, s.lines[0], s.lines[1]);
    OpenPart(d, s.refType, a.request, "amount_delta", {});
    SameLiquid(db, d, a.oldBox);
    SamePlain(db, d, a.oldCategory);
    if a.oldBox == "" {
      assert s.movements[0].cashbox == "";
      NoBoxRefused(d, s);
    } else {
      OneCashLegPostsIff(d, s.refType, s.refId, s.date, s.description, s.now, ById(a.oldCategory), a.oldBox,
                         s.movements[0].direction, Abs(a.newAmount - a.oldAmount), s.movements[0].category);
      if !Record(d, s).1.Rejected? {
        PartReached(db, d, s, a.request, "amount_delta", {});
        assert {} + {"amount_delta"} == {"amount_delta"};
      }
    }
  }

  lemma ReachedParts(db: Db, d: Db, request: nat, parts: set<string>)
    requires Reached(db, d, request, parts)
    ensures SameChart(db, d) && d.locked == db.locked && OnlyParts(d, request, parts)
  {
  }

  lemma SwapAccepted(db: Db, d: Db, a: CorrectionArgs, parts: set<string>)
    requires Stated(a) && BoxChanged(a) && Reached(db, d, a.request, parts) && "cashbox_swap" !in parts
    ensures var s := CashboxSwapSpec(a);
      && (!Record(d, s).1.Rejected? <==> !db.locked && LiquidBox(db, a.oldBox) && LiquidBox(db, a.newBox))
      && (!Record(d, s).1.Rejected? ==> Record(d, s).1.Posted? && Reached(db, Record(d, s).0, a.request, parts + {"cashbox_swap"}))
  {
    var s := CashboxSwapSpec(a);
    hide Record, OnlyParts, Open, CashboxAccount, Reached;
    ReachedParts(db, d, a.request, parts);
    AskedTwo(s, s.lines[0], s.lines[1]);
    OpenPart(d, s.refType, a.request, "cashbox_swap", parts);
    SameLiquid(db, d, a.oldBox);
    SameLiquid(db, d, a.newBox);
    if a.oldBox == "" || a.newBox == "" {
      assert s.movements[0].cashbox == a.newBox && s.movements[1].cashbox == a.oldBox;
      NoBoxRefused(d, s);
    } else {
      TransferPostsIff(d, s.refId, a.newBox, a.oldBox, a.newAmount, s.date, Some(s.description), s.now);
      if !Record(d, s).1.Rejected? {
        PartReached(db, d, s, a.request, "cashbox_swap", parts);
      }
    }
  }

  lemma ReclassifyAccepted(db: Db, d: Db, a: CorrectionArgs, parts: set<string>)
    requires Stated(a) && CategoryChanged(a) && Reached(db, d, a.request, parts) && "reclassify" !in parts
    ensures var s := ReclassifySpec(a);
      && (!Record(d, s).1.Rejected? <==> !db.locked && PlainAccount(db, a.oldCategory) && PlainAccount(db, a.newCategory))
      && (!Record(d, s).1.Rejected? ==> Record(d, s).1.Posted? && Reached(db, Record(d, s).0, a.request, parts + {"reclassify"}))
  {
    var s := ReclassifySpec(a);
    hide Record, OnlyParts, Open, Reached, PlainCounterpart;
    ReachedParts(db, d, a.request, parts);
    AskedTwo(s, s.lines[0], s.lines[1]);
    OpenPart(d, s.refType, a.request, "reclassify", parts);
    SamePlain(db, d, a.oldCategory);
    SamePlain(db, d, a.newCategory);
    NoCashPostsIff(d, s, ById(a.newCategory), ById(a.oldCategory), a.newAmount);
    if !Record(d, s).1.Rejected? {
      PartReached(db, d, s, a.request, "reclassify", parts);
    }
  }

  function Next(db: Db, on: bool, s: Spec): Db { if on then Record(db, s).0 else db }

  lemma AttemptThreeIff(db: Db, on1: bool, s1: Spec, on2: bool, s2: Spec, on3: bool, s3: Spec)
    ensures var d1 := Next(db, on1, s1); var d2 := Next(d1, on2, s2);
      Attempt(db, Calls(Corrections.When(on1, s1) + Corrections.When(on2, s2) + Corrections.When(on3, s3))).1 <==>
        (on1 ==> !Record(db, s1).1.Rejected?) && (on2 ==> !Record(d1, s2).1.Rejected?) && (on3 ==> !Record(d2, s3).1.Rejected?)
  {
    hide Record, Attempt, Calls;
    var w1, w2, w3 := Corrections.When(on1, s1), Corrections.When(on2, s2), Corrections.When(on3, s3);
    CallsCat(w1, w2);
    CallsCat(w1 + w2, w3);
    AttemptCat(db, Calls(w1) + Calls(w2), Calls(w3));
    AttemptCat(db, Calls(w1), Calls(w2));
    var d1 := AttemptWhen(db, on1, s1);
    var d2 := AttemptWhen(d1, on2, s2);
    var _ := AttemptWhen(d2, on3, s3);
  }

  lemma PartsDiffer()
    ensures "cashbox_swap" != "amount_delta" && "reclassify" != "amount_delta" && "reclassify" != "cashbox_swap"
  {
    assert "cashbox_swap"[0] != "amount_delta"[0] && |"reclassify"| == 10 && |"amount_delta"| == 12 && |"cashbox_swap"| == 12;
  }

  /** The corrections of an edit are accepted, all of them, exactly when the books and the chart
      allow it beforehand. */
  lemma CorrectionsAcceptedIff(db: Db, a: CorrectionArgs)
    requires Stated(a) && Unused(db, a.request)
    ensures Attempt(db, Calls(CorrectionSpecs(a))).1 <==> Correctable(db, a)
  {
    var s1, s2, s3 := AmountDeltaSpec(a, a.oldCategory, a.oldBox), CashboxSwapSpec(a), ReclassifySpec(a);
    hide Attempt, Record, AmountDeltaSpec, CashboxSwapSpec, ReclassifySpec, Calls, LiquidBox, PlainAccount, Reached;
    assert CorrectionSpecs(a) == Corrections.When(AmountChanged(a), s1) + Corrections.When(BoxChanged(a), s2) + Corrections.When(CategoryChanged(a), s3);
    AttemptThreeIff(db, AmountChanged(a), s1, BoxChanged(a), s2, CategoryChanged(a), s3);
    PartsDiffer();
    Starts(db, a.request);
    var d1 := Next(db, AmountChanged(a), s1);
    var parts1 := if AmountChanged(a) then {"amount_delta"} else {};
    if AmountChanged(a) { AmountAccepted(db, db, a); }
    if AmountChanged(a) && Record(db, s1).1.Rejected? {
      return;
    }
    var d2 := Next(d1, BoxChanged(a), s2);
    var parts2 := if BoxChanged(a) then parts1 + {"cashbox_swap"} else parts1;
    if BoxChanged(a) { SwapAccepted(db, d1, a, parts1); }
    if BoxChanged(a) && Record(d1, s2).1.Rejected? {
      return;
    }
    if CategoryChanged(a) { ReclassifyAccepted(db, d2, a, parts2); }
  }

  lemma Starts(db: Db, request: nat)
    requires Unused(db, request)
    ensures Reached(db, db, request, {})
  {
    SameCharts(db, db, db);
    NoParts(db, request);
  }

  // ----- when an approval goes through -----

  /** The row after an edit, field by field. */
  ghost predicate EditedRow(row: Row, a: Asked, m: Row) {
    && (if a.category.Some? then m.category == a.category.value else m.category == row.category)
    && (if a.amount.Some? then m.amount == a.amount.value else m.amount == row.amount)
    && (if a.cashbox.Some? then m.cashbox == a.cashbox.value else m.cashbox == row.cashbox)
    && (if a.payment.Some? then m.payment == a.payment.value else m.payment == row.payment)
    && (if a.date.Some? then m.date == a.date.value else m.date == row.date)
    && (if a.employee.Some? then m.employee == a.employee.value else m.employee == row.employee)
    && (if a.description.Some? then m.description == a.description.value else m.description == row.description)
  }

  /** The text a cashbox column is read as. */
  ghost function Named(b: Option<CashboxId>): CashboxId { if b.Some? then b.value else "null" }

  /** What an approval needs: a positive amount, a cashbox to pay cash from, and, where it changes
      category, amount, cashbox, method or date, a mapped category, the same side of the ledger,
      and corrections the books allow. */
  ghost predicate Approvable(d: Desk, request: nat, row: Row, m: Row, today: int, now: int) {
    && m.amount > 0 && (m.payment == "cash" ==> m.cashbox.Some? && m.cashbox.value != "")
    && (m.category != row.category || m.amount != row.amount || m.cashbox != row.cashbox || m.payment != row.payment || m.date != row.date ==>
          && m.category in d.accounts && row.category in d.accounts && (row.payment == "cash" <==> m.payment == "cash")
          && Correctable(d.db, CorrectionArgs(request, row.amount, m.amount, d.accounts[row.category], d.accounts[m.category],
                                              Named(row.cashbox), Named(m.cashbox), today, now)))
  }

  lemma MergeIs(row: Row, a: Asked, m: Row)
    ensures Merge(row, a) == m <==> EditedRow(row, a, m)
  {
  }

  /** A pending request is approved if and only if what it needs is there; the expense then has the
      edited row, the request is marked, and no other expense or request changes. Otherwise
      nothing does. */
  lemma ApproveIff(d: Desk, i: nat, today: int, now: int) returns (m: Row)
    requires DeskInv(d) && i < |d.requests|
    ensures d.requests[i].expense in d.expenses
    ensures var r := d.requests[i]; var row := d.expenses[r.expense]; var after := ApproveEdit(d, i, today, now);
      && EditedRow(row, r.asked, m)
      && (Approves(d, i, today, now) <==> r.status == Pending && Approvable(d, i, row, m, today, now))
      && (if Approves(d, i, today, now) then
            && after.expenses == d.expenses[r.expense := m] && after.accounts == d.accounts
            && after.requests == d.requests[i := r.(status := Approved, appliedEntry := after.requests[i].appliedEntry)]
          else after == d)
  {
    var r := d.requests[i];
    var row := d.expenses[r.expense];
    m := Merge(row, r.asked);
    MergeIs(row, r.asked, m);
    hide Merge, EditedRow, Correctable, CorrectionSpecs, Attempt, ExpenseRequest, PrimaryEntry, Record;
    if r.status.Pending? {
      StillLive(d, r.expense);
      RequestUnused(d, i);
      CallsIff(d, i, today, now, m);
    }
  }

  lemma StillLive(d: Desk, x: string)
    requires DeskInv(d) && x in d.expenses
    ensures FindLive(d.db.entries, "expense", Document(x)).Some? && RowSane(d.accounts, d.expenses[x])
    ensures d.accounts[d.expenses[x].category] != ""
  {
    var e :| 0 <= e < |d.db.entries| && Claims(d.db.entries[e], "expense", Document(x));
  }

  lemma CallsIff(d: Desk, i: nat, today: int, now: int, m: Row)
    requires DeskInv(d) && IsPending(d.requests, i) && m == Merge(d.expenses[d.requests[i].expense], d.requests[i].asked)
    requires FindLive(d.db.entries, "expense", Document(d.requests[i].expense)).Some? && Unused(d.db, i)
    ensures Approves(d, i, today, now) <==> Approvable(d, i, d.expenses[d.requests[i].expense], m, today, now)
  {
    var r := d.requests[i];
    var row := d.expenses[r.expense];
    StillLive(d, r.expense);
    assert r.oldRow == row;
    MergeSelf(row, r.asked);
    hide Correctable, CorrectionSpecs, Attempt, ExpenseRequest, Merge, Within, StillPosted, OnePending, SnapshotsCurrent;
    if AccountingChanged(r.asked, row) {
      if m.category in d.accounts && m.amount > 0 && !Switches(row.payment, m.payment) {
        CorrectionsAcceptedIff(d.db, ArgsOf(d.accounts, i, r, row, today, now));
      }
    } else {
      NoCalls(d.db);
    }
  }

  lemma NoCalls(db: Db)
    ensures Attempt(db, []) == (db, true)
  {
  }

  lemma MergeSelf(row: Row, a: Asked)
    ensures var m := Merge(row, a);
      AccountingChanged(a, row) <==>
        m.category != row.category || m.amount != row.amount || m.cashbox != row.cashbox || m.payment != row.payment || m.date != row.date
  {
  }

  // ----- the entries an approval leaves -----

  /** Corrections of a request, dated the day of the approval. */
  ghost predicate CorrectionCall(c: Call, request: nat, today: int) {
    && c.RecordCall? && c.spec.date == today && c.spec.reversalOf.None? && c.spec.refId.Derived? && c.spec.refId.request == request
    && c.spec.refType in {"expense_edit_correction", "cashbox_transfer"}
  }

  ghost predicate CorrectionEntry(e: Entry, request: nat, today: int) {
    && e.date == today && !e.isVoid && e.reversalOf.None? && e.refId.Derived? && e.refId.request == request
    && e.refType in {"expense_edit_correction", "cashbox_transfer"}
  }

  lemma StepDated(db: Db, c: Call, request: nat, today: int)
    requires CorrectionCall(c, request, today)
    ensures var d := Step(db, c).0;
      && |db.entries| <= |d.entries| <= |db.entries| + 1 && d.entries[..|db.entries|] == db.entries
      && forall k :: |db.entries| <= k < |d.entries| ==> CorrectionEntry(d.entries[k], request, today)
  {
    hide Record;
    if Record(db, c.spec).1.Posted? {
      var _ := Written.PostedExactly(db, c.spec);
    } else {
      var _ := RecordCases(db, c.spec);
    }
  }

  lemma {:induction false} AttemptDated(db: Db, calls: seq<Call>, request: nat, today: int)
    requires forall k :: 0 <= k < |calls| ==> CorrectionCall(calls[k], request, today)
    ensures var d := Attempt(db, calls).0;
      && |db.entries| <= |d.entries| && d.entries[..|db.entries|] == db.entries
      && forall k :: |db.entries| <= k < |d.entries| ==> CorrectionEntry(d.entries[k], request, today)
  {
    hide Step, CorrectionCall, CorrectionEntry;
    if |calls| > 0 {
      var n := |calls| - 1;
      AttemptDated(db, calls[..n], request, today);
      var front := Attempt(db, calls[..n]).0;
      StepDated(front, calls[n], request, today);
      var d := Attempt(db, calls).0;
      assert d.entries[..|db.entries|] == front.entries[..|db.entries|];
      forall k | |db.entries| <= k < |d.entries| ensures CorrectionEntry(d.entries[k], request, today) {
        if k < |front.entries| {
          assert d.entries[k] == d.entries[..|front.entries|][k];
        }
      }
    }
  }

  lemma SpecsAreCorrections(a: CorrectionArgs)
    ensures forall k :: 0 <= k < |Calls(CorrectionSpecs(a))| ==> CorrectionCall(Calls(CorrectionSpecs(a))[k], a.request, a.today)
  {
  }

  lemma {:induction false} PrimaryFirst(db: Db, calls: seq<Call>)
    requires |calls| > 0 && EntryOf(Step(db, calls[0]).1).Some?
    ensures PrimaryEntry(db, calls) == EntryOf(Step(db, calls[0]).1)
  {
    hide Step, EntryOf;
    if |calls| > 1 {
      PrimaryFirst(db, calls[..|calls| - 1]);
    } else {
      assert calls[..0] == [] && Attempt(db, []) == (db, true) && PrimaryEntry(db, []) == None;
    }
  }

  lemma {:induction false} FirstCallPosts(db: Db, calls: seq<Call>)
    requires |calls| > 0 && Attempt(db, calls).1
    ensures !Step(db, calls[0]).1.Rejected?
  {
    hide Step;
    if |calls| > 1 {
      FirstCallPosts(db, calls[..|calls| - 1]);
    } else {
      assert calls[..0] == [] && Attempt(db, []) == (db, true);
    }
  }

  lemma FirstIsNew(db: Db, a: CorrectionArgs)
    requires Stated(a) && Unused(db, a.request) && |CorrectionSpecs(a)| > 0 && Attempt(db, Calls(CorrectionSpecs(a))).1
    ensures PrimaryEntry(db, Calls(CorrectionSpecs(a))) == Some(|db.entries|)
  {
    var calls := Calls(CorrectionSpecs(a));
    FirstCallPosts(db, calls);
    Starts(db, a.request);
    var s := CorrectionSpecs(a)[0];
    hide Attempt, Record, Reached;
    assert calls[0] == RecordCall(s);
    if AmountChanged(a) {
      AmountAccepted(db, db, a);
    } else if BoxChanged(a) {
      SwapAccepted(db, db, a, {});
    } else {
      ReclassifyAccepted(db, db, a, {});
    }
    assert Record(db, s).1.Posted?;
    var _ := Written.PostedExactly(db, s);
    PrimaryFirst(db, calls);
  }

  /** An approval appends only corrections keyed by its request and dated the day it is made, and
      voids nothing. The request remembers the first of them, or none if there is none, which is
      when amount, cashbox and category stay. */
  lemma ApprovalLeaves(d: Desk, i: nat, today: int, now: int)
    requires DeskInv(d) && Approves(d, i, today, now)
    ensures var after, n := ApproveEdit(d, i, today, now), |d.db.entries|; var r := d.requests[i];
      var row, m := d.expenses[r.expense], after.expenses[r.expense];
      && n <= |after.db.entries| && after.db.entries[..n] == d.db.entries
      && (forall k :: n <= k < |after.db.entries| ==> CorrectionEntry(after.db.entries[k], i, today))
      && after.requests[i].appliedEntry == (if |after.db.entries| > n then Some(n) else None)
      && (m.amount == row.amount && m.cashbox == row.cashbox && m.category == row.category ==> after.db == d.db)
  {
    var r := d.requests[i];
    var row := d.expenses[r.expense];
    ApprovalIsAdditive(d, i, today, now);
    StillLive(d, r.expense);
    RequestUnused(d, i);
    hide Attempt, CorrectionSpecs, PrimaryEntry, CallsFor, CorrectionEntry, DeskInv;
    NothingDone(d.db);
    if AccountingChanged(r.asked, row) {
      var a := ArgsOf(d.accounts, i, r, row, today, now);
      MergedMapped(d, i, today, now);
      SpecsAreCorrections(a);
      AttemptDated(d.db, Calls(CorrectionSpecs(a)), i, today);
      if |CorrectionSpecs(a)| > 0 {
        FirstIsNew(d.db, a);
        Grown(d.db, a);
      } else {
        assert Calls(CorrectionSpecs(a)) == [];
      }
      NoSpecsIff(a);
    }
  }

  lemma MergedMapped(d: Desk, i: nat, today: int, now: int)
    requires DeskInv(d) && Approves(d, i, today, now)
    ensures var m := Merge(d.expenses[d.requests[i].expense], d.requests[i].asked); m.category in d.accounts && d.accounts[m.category] != "" && m.amount > 0
  {
    ApprovalIsAdditive(d, i, today, now);
  }

  lemma NoSpecsIff(a: CorrectionArgs)
    ensures |CorrectionSpecs(a)| == 0 <==> a.newAmount == a.oldAmount && a.newBox == a.oldBox && a.newCategory == a.oldCategory
  {
  }

  lemma NothingDone(db: Db)
    ensures Attempt(db, []) == (db, true) && PrimaryEntry(db, []) == None
  {
  }

  lemma {:induction false} PrimaryInTable(db: Db, calls: seq<Call>)
    ensures PrimaryEntry(db, calls).Some? ==> PrimaryEntry(db, calls).value < |Attempt(db, calls).0.entries| || !Attempt(db, calls).1
  {
    if |calls| > 0 {
      var n := |calls| - 1;
      PrimaryInTable(db, calls[..n]);
      var front := Attempt(db, calls[..n]).0;
      StepExtends(front, calls[n]);
      StepEntry(front, calls[n]);
    }
  }

  lemma StepEntry(db: Db, c: Call)
    ensures EntryOf(Step(db, c).1).Some? ==> EntryOf(Step(db, c).1).value < |Step(db, c).0.entries|
  {
    hide Record;
    if c.RecordCall? {
      if Record(db, c.spec).1.Posted? {
        var _ := Written.PostedExactly(db, c.spec);
      } else if Record(db, c.spec).1.Replayed? {
        Written.ReplaysIff(db, c.spec);
      }
    }
  }

  lemma Grown(db: Db, a: CorrectionArgs)
    requires Attempt(db, Calls(CorrectionSpecs(a))).1 && PrimaryEntry(db, Calls(CorrectionSpecs(a))) == Some(|db.entries|)
    ensures |Attempt(db, Calls(CorrectionSpecs(a))).0.entries| > |db.entries|
  {
    PrimaryInTable(db, Calls(CorrectionSpecs(a)));
  }

  // ----- what each correction writes -----

  lemma OwnEntities()
    ensures MapToEntityType("expense_edit_correction") == "expense" && MapToEntityType("cashbox_transfer") == "cashbox"
  {
    hide MapToEntityType;
    RecipeEntities();
    EntityTable("expense_edit_correction");
  }

  /** The amount delta: an increase is paid out of the cashbox as an expense, a decrease comes back
      into it as a correction. */
  lemma AmountWrites(db: Db, a: CorrectionArgs, category: AccountId, box: CashboxId, account: AccountId, other: CashboxId, asOf: int) returns (cash: AccountId)
    requires AmountChanged(a) && category != "" && box != "" && Record(db, AmountDeltaSpec(a, category, box)).1.Posted?
    ensures var d, more := Record(db, AmountDeltaSpec(a, category, box)).0, a.newAmount > a.oldAmount;
      && Written.BooksTo(db, box, cash)
      && BooksOneLeg(db, d, "expense_edit_correction", "expense", Derived(a.request, "amount_delta"), a.today, a.now, category, None, cash, box,
                     if more then Out else In, Abs(a.newAmount - a.oldAmount), if more then "expense" else "expense_correction")
      && Shifts(db, d, if more then category else cash, if more then cash else category, Abs(a.newAmount - a.oldAmount), a.today, account, asOf)
  {
    hide Record, MapToEntityType, Shifts, BooksOneLeg, Written.BooksTo, CashboxAccount, CashNet;
    OwnEntities();
    var s := AmountDeltaSpec(a, category, box);
    var against;
    cash, against := OneLegBooks(db, s, "expense_edit_correction", "expense", Derived(a.request, "amount_delta"), a.today, a.now, ById(category), box,
                                 s.movements[0].direction, Abs(a.newAmount - a.oldAmount), s.movements[0].category, account, other, asOf);
    Written.BooksToIff(db, box, cash);
  }

  /** The cashbox correction: a transfer of the new amount from the new cashbox to the old. */
  lemma SwapWrites(db: Db, a: CorrectionArgs, account: AccountId, asOf: int) returns (from: AccountId, to: AccountId)
    requires a.newAmount > 0 && a.oldBox != "" && a.newBox != "" && Record(db, CashboxSwapSpec(a)).1.Posted?
    ensures Written.BooksTo(db, a.newBox, from) && Written.BooksTo(db, a.oldBox, to)
    ensures var d := Record(db, CashboxSwapSpec(a)).0;
      && Adds(db, d, "cashbox_transfer", "cashbox", Derived(a.request, "cashbox_swap"), a.today, a.now,
              [Line(to, a.newAmount, 0, Some(a.oldBox), None), Line(from, 0, a.newAmount, Some(a.newBox), None)],
              [Movement(a.newBox, Out, a.newAmount, "transfer"), Movement(a.oldBox, In, a.newAmount, "transfer")])
      && Shifts(db, d, to, from, a.newAmount, a.today, account, asOf)
  {
    hide Record, MapToEntityType, Adds, Shifts, Written.BooksTo, CashboxAccount, Resolve;
    OwnEntities();
    var s := CashboxSwapSpec(a);
    CashResolves(db, a.oldBox, a.newAmount, 0);
    CashResolves(db, a.newBox, 0, a.newAmount);
    var lines := Written.PostedExactly(db, s);
    from, to := CashboxAccount(db, a.newBox).value, CashboxAccount(db, a.oldBox).value;
    Written.BooksToIff(db, a.newBox, from);
    Written.BooksToIff(db, a.oldBox, to);
    PostedShifts(db, s, lines[0], lines[1], account, asOf);
  }

  /** The reclassification: the new category takes the new amount from the old one, without cash. */
  lemma ReclassifyWrites(db: Db, a: CorrectionArgs, account: AccountId, asOf: int)
    requires Stated(a) && Record(db, ReclassifySpec(a)).1.Posted?
    ensures var d := Record(db, ReclassifySpec(a)).0;
      && Adds(db, d, "expense_edit_correction", "expense", Derived(a.request, "reclassify"), a.today, a.now,
              [Line(a.newCategory, a.newAmount, 0, None, None), Line(a.oldCategory, 0, a.newAmount, None, None)], [])
      && Shifts(db, d, a.newCategory, a.oldCategory, a.newAmount, a.today, account, asOf)
  {
    hide Record, MapToEntityType, Adds, Shifts, Resolve;
    OwnEntities();
    var s := ReclassifySpec(a);
    CounterResolves(db, ById(a.newCategory), a.newAmount, 0);
    CounterResolves(db, ById(a.oldCategory), 0, a.newAmount);
    var lines := Written.PostedExactly(db, s);
    PostedShifts(db, s, lines[0], lines[1], account, asOf);
  }

  // ----- when a creation goes through -----

  lemma NoPostings(d: Desk, x: string)
    requires Within(d.db, Known(d)) && x !in d.expenses
    ensures Approvals.Postings(d.db, x) == 0
  {
    forall k | 0 <= k < |d.db.entries| ensures Approvals.PostingOf(x)(d.db.entries[k]) == 0 {
      assert Known(d)(d.db.entries[k].refType, d.db.entries[k].refId);
    }
    SumZero(Approvals.PostingOf(x), d.db.entries);
  }

  /** The posting of a row: its own account and date, and never an advance. */
  ghost function RowPosting(d: Desk, x: string, row: Row, now: int): ExpenseArgs
    requires row.category in d.accounts
  {
    ExpenseArgs(x, row.amount, Some(d.accounts[row.category]), row.cashbox, row.payment, false, row.employee, row.date,
                if row.description == "" then None else Some(row.description), now)
  }

  /** An expense is created if and only if its key is new, its category mapped, cash has a
      cashbox, and it can be posted; its entry is then on its own date, for its amount, on the
      account of its category and that of its cashbox or 211. Otherwise nothing changes. */
  lemma CreateIff(d: Desk, x: string, row: Row, now: int, account: AccountId, box: CashboxId, asOf: int)
    requires DeskInv(d)
    ensures var after := CreateExpense(d, x, row, now);
      var taken := x != "" && x !in d.expenses && row.category in d.accounts && (row.payment == "cash" ==> row.cashbox.Some? && row.cashbox.value != "")
                   && Approvals.CanPost(d.db, RowPosting(d, x, row, now));
      && (x in after.expenses && x !in d.expenses <==> taken)
      && (taken ==> after == d.(db := after.db, expenses := d.expenses[x := row])
                    && RowBooks(d, after.db, x, row, now, account, box, asOf))
      && (!taken ==> after == d)
  {
    if x != "" && x !in d.expenses && row.category in d.accounts {
      var a := RowPosting(d, x, row, now);
      assert PostArgs(d.accounts, x, row, now) == a;
      NoPostings(d, x);
      Approvals.PostsWhenItCan(d.db, a);
      hide DeskInv, Record, Approvals.CanPost, RowBooks;
      if ExpenseRequest(a).Ask? {
        AttemptOnce(d.db, ExpenseRequest(a).spec);
        if !Record(d.db, ExpenseRequest(a).spec).1.Rejected? {
          Approvals.NoneLive(d.db, x);
          Approvals.AskedSome(d.db, a);
          RowIsBooked(d, x, row, now, account, box, asOf);
        }
      }
    }
  }

  lemma AttemptOnce(db: Db, s: Spec)
    ensures Attempt(db, [RecordCall(s)]) == (Record(db, s).0, !Record(db, s).1.Rejected?)
  {
    AttemptOne(db, s);
    assert Calls([s]) == [RecordCall(s)];
  }

  /** The account of the category takes the amount from that of the cashbox, or from 211. */
  ghost predicate RowBooks(d: Desk, after: Db, x: string, row: Row, now: int, account: AccountId, box: CashboxId, asOf: int) {
    row.category in d.accounts && exists credit: AccountId ::
      && (if row.payment == "cash" then row.cashbox.Some? && Written.BooksTo(d.db, row.cashbox.value, credit)
          else Written.FirstWithCode(d.db.accounts, "211", credit))
      && Shifts(d.db, after, d.accounts[row.category], credit, row.amount, row.date, account, asOf)
      && (if row.payment == "cash" then OnlyBoxMoves(d.db, after, row.cashbox.value, -row.amount, box)
          else CashNet(after, box, Everything()) == CashNet(d.db, box, Everything()))
  }

  lemma RowIsBooked(d: Desk, x: string, row: Row, now: int, account: AccountId, box: CashboxId, asOf: int)
    requires row.category in d.accounts && d.accounts[row.category] != "" && PostsRequest(d.db, ExpenseRequest(RowPosting(d, x, row, now)))
    ensures RowBooks(d, Record(d.db, ExpenseRequest(RowPosting(d, x, row, now)).spec).0, x, row, now, account, box, asOf)
  {
    var a := RowPosting(d, x, row, now);
    hide Record, ExpenseRequest, Shifts, OnlyBoxMoves, Adds, BooksOneLeg, CashNet, Written.BooksTo, Written.FirstWithCode;
    var debit, credit := ExpenseBooks(d.db, a, account, box, asOf);
  }
}
