/**
 Creating a cashbox: the row, a sub-account of its own under account 111, and an opening
 movement through the engine. The generated code is never one the alignment guard watches,
 so a cashbox that gets its sub-account cannot be posted to, not even its own opening.
 */
module Cashboxes {
  import Sums
  import opened Ledger
  import Alignment
  import opened Engine
  import opened Runs
  import opened Recipes
  import Chart
  import Corrections
  import RecipeBooks
  import Written = Postings

  const CASH_PARENT := "111"
  const INT_MAX := 0x7fff_ffff

  // ----- numbers in codes -----

  predicate IsDigit(c: char) { '0' <= c <= '9' }

  predicate AllDigits(s: string) { forall i :: 0 <= i < |s| ==> IsDigit(s[i]) }

  function Value(s: string): nat
    requires AllDigits(s)
  {
    if |s| == 0 then 0 else Value(s[..|s| - 1]) * 10 + (s[|s| - 1] as int - '0' as int)
  }

  function Decimal(n: nat): (r: string)
    ensures |r| > 0 && AllDigits(r)
  {
    if n < 10 then [('0' as int + n) as char] else Decimal(n / 10) + [('0' as int + n % 10) as char]
  }

  lemma {:induction false} DecimalValue(n: nat)
    ensures Value(Decimal(n)) == n
  {
    if n >= 10 {
      DecimalValue(n / 10);
      assert Decimal(n)[..|Decimal(n)| - 1] == Decimal(n / 10);
    }
  }

  /** The digits a code ends in. */
  function TrailingDigits(code: string): (r: string)
    ensures AllDigits(r)
  {
    if |code| > 0 && IsDigit(code[|code| - 1]) then TrailingDigits(code[..|code| - 1]) + [code[|code| - 1]] else ""
  }

  lemma {:induction false} DigitsTrail(s: string)
    requires AllDigits(s)
    ensures TrailingDigits(s) == s
  {
    if |s| > 0 {
      DigitsTrail(s[..|s| - 1]);
    }
  }

  /** It ends in them, and what comes before ends in none. */
  lemma {:induction false} TrailingDigitsMeans(code: string) returns (front: string)
    ensures code == front + TrailingDigits(code) && (front == "" || !IsDigit(front[|front| - 1]))
  {
    if |code| > 0 && IsDigit(code[|code| - 1]) {
      var n := |code| - 1;
      front := TrailingDigitsMeans(code[..n]);
      assert code == code[..n] + [code[n]];
    } else {
      front := code;
      assert code == code + "";
    }
  }

  function Pow10(n: nat): nat { if n == 0 then 1 else 10 * Pow10(n - 1) }

  lemma Shift(x: nat, p: nat, y: nat, d: int)
    ensures (x * p + y) * 10 + d == x * (10 * p) + (y * 10 + d)
  {
  }

  lemma {:induction false} ValueCat(a: string, b: string)
    requires AllDigits(a) && AllDigits(b)
    ensures Value(a + b) == Value(a) * Pow10(|b|) + Value(b)
  {
    if |b| == 0 {
      assert a + b == a;
    } else {
      var n := |b| - 1;
      assert (a + b)[..|a| + n] == a + b[..n] && (a + b)[|a| + n] == b[n];
      ValueCat(a, b[..n]);
      var d := b[n] as int - '0' as int;
      assert Value(a + b) == Value(a + b[..n]) * 10 + d && Value(b) == Value(b[..n]) * 10 + d && Pow10(|b|) == 10 * Pow10(n);
      hide *;
      Shift(Value(a), Pow10(n), Value(b[..n]), d);
    }
  }

  // ----- the next code -----

  /** The greatest trailing number among the children of the account, or None where a cast to a
      32-bit integer fails. */
  function MaxSeq(accounts: seq<Account>, parent: AccountId): (r: Option<nat>)
    ensures r.Some? ==> r.value <= INT_MAX
  {
    if |accounts| == 0 then Some(0)
    else
      var n := |accounts| - 1;
      var front, digits := MaxSeq(accounts[..n], parent), TrailingDigits(accounts[n].code);
      if front.None? || accounts[n].parent != Some(parent) || digits == "" then front
      else if Value(digits) > INT_MAX then None
      else Some(if Value(digits) > front.value then Value(digits) else front.value)
  }

  function NextSeq(accounts: seq<Account>, parent: AccountId): Option<nat> {
    var m := MaxSeq(accounts, parent);
    if m.Some? && m.value < INT_MAX then Some(m.value + 1) else None
  }

  /** The number a code ends in, 0 where it ends in none. */
  function Number(a: Account): nat { Value(TrailingDigits(a.code)) }

  predicate Child(accounts: seq<Account>, parent: AccountId, i: nat) { i < |accounts| && accounts[i].parent == Some(parent) }

  /** Every number under the account leaves room for one more in a 32-bit integer. */
  ghost predicate Countable(accounts: seq<Account>, parent: AccountId) {
    forall i: nat :: Child(accounts, parent, i) ==> Number(accounts[i]) < INT_MAX
  }

  /** One more than the greatest number under the account, or 1 where there is none. */
  ghost predicate IsNext(accounts: seq<Account>, parent: AccountId, n: nat) {
    && 1 <= n <= INT_MAX && (forall i: nat :: Child(accounts, parent, i) ==> Number(accounts[i]) < n)
    && (n > 1 ==> exists i: nat :: Child(accounts, parent, i) && Number(accounts[i]) == n - 1)
  }

  lemma {:induction false} MaxSeqMeans(accounts: seq<Account>, parent: AccountId)
    ensures var m := MaxSeq(accounts, parent);
      && (m.None? ==> exists i: nat :: Child(accounts, parent, i) && Number(accounts[i]) > INT_MAX)
      && (m.Some? ==> forall i: nat :: Child(accounts, parent, i) ==> Number(accounts[i]) <= m.value)
      && (m.Some? && m.value > 0 ==> exists i: nat :: Child(accounts, parent, i) && Number(accounts[i]) == m.value)
  {
    if |accounts| > 0 {
      var n := |accounts| - 1;
      var front, m := accounts[..n], MaxSeq(accounts[..n], parent);
      MaxSeqMeans(front, parent);
      MaxSeqUnfolds(accounts, parent);
      hide MaxSeq, Number;
      assert forall i: nat :: Child(accounts, parent, i) <==> Child(front, parent, i) || (i == n && accounts[n].parent == Some(parent));
      assert forall i: nat :: i < n ==> front[i] == accounts[i];
      if m.None? {
        var i: nat :| Child(front, parent, i) && Number(front[i]) > INT_MAX;
        assert Child(accounts, parent, i);
      } else if m.value > 0 {
        var i: nat :| Child(front, parent, i) && Number(front[i]) == m.value;
        assert Child(accounts, parent, i);
      }
    }
  }

  /** A code without digits at its end has number 0, which changes no maximum. */
  lemma MaxSeqUnfolds(accounts: seq<Account>, parent: AccountId)
    requires |accounts| > 0
    ensures var a, front := accounts[|accounts| - 1], MaxSeq(accounts[..|accounts| - 1], parent);
      MaxSeq(accounts, parent) ==
        if front.None? || a.parent != Some(parent) then front
        else if Number(a) > INT_MAX then None
        else Some(if Number(a) > front.value then Number(a) else front.value)
  {
    hide TrailingDigits;
  }

  /** A next number is found if and only if the children can be counted on, and it is the one
      after their greatest. */
  lemma NextSeqIff(accounts: seq<Account>, parent: AccountId, n: nat)
    ensures NextSeq(accounts, parent) == Some(n) <==> IsNext(accounts, parent, n)
    ensures NextSeq(accounts, parent).None? <==> !Countable(accounts, parent)
  {
    MaxSeqMeans(accounts, parent);
    hide MaxSeq, Number, Child;
  }

  function Padded(n: nat): (r: string)
    ensures AllDigits(r)
  {
    if |Decimal(n)| < 2 then "0" + Decimal(n) else Decimal(n)
  }

  function SubCode(n: nat): string { CASH_PARENT + Padded(n) }

  /** The parent's code and the number in decimal, with a zero before a single digit; numbers have
      no other leading zero. */
  lemma SubCodeText(n: nat)
    ensures SubCode(n) == "111" + (if n < 10 then "0" else "") + Decimal(n)
    ensures Value(Decimal(n)) == n && (n > 0 ==> Decimal(n)[0] != '0') && (n < 10 <==> |Decimal(n)| == 1)
  {
    DecimalValue(n);
    NoLeadingZero(n);
    if n >= 10 { assert |Decimal(n / 10)| >= 1; }
  }

  lemma {:induction false} NoLeadingZero(n: nat)
    ensures n > 0 ==> Decimal(n)[0] != '0'
  {
    if n >= 10 {
      NoLeadingZero(n / 10);
    }
  }

  /** A generated code has five characters at least, a watched one four. */
  lemma SubCodeUnwatched(n: nat)
    ensures |SubCode(n)| >= 5 && !IsLiquid(SubCode(n))
  {
    assert forall c :: c in LIQUID_GL_CODES ==> |c| == 4;
  }

  /** The number the next code will be counted from. */
  lemma SubCodeValue(n: nat)
    ensures TrailingDigits(SubCode(n)) == SubCode(n) && AllDigits(SubCode(n))
    ensures Value(SubCode(n)) == 111 * Pow10(|Padded(n)|) + n
  {
    DigitsTrail(SubCode(n));
    ValueCat(CASH_PARENT, Padded(n));
    DecimalValue(n);
    if |Decimal(n)| < 2 {
      ValueCat("0", Decimal(n));
      assert Value("0") == 0;
    }
    assert CASH_PARENT[..2][..1] == "1" && CASH_PARENT[..2] == "11" && Value("1") == 1 && Value("11") == 11;
  }

  // ----- creating a cashbox -----

  /** The ids are the keys the database hands out to the cashbox and its account. */
  datatype NewBox = NewBox(
    id: CashboxId, account: AccountId, name: string, kind: string, institution: bool, warehouse: bool,
    opening: Cents, date: int, now: int)

  predicate Valid(b: NewBox) {
    && b.name != "" && b.kind in {"cash", "bank", "ewallet", "check"}
    && (b.kind in {"bank", "ewallet"} ==> b.institution) && b.opening >= 0 && b.warehouse
  }

  function FindCode(accounts: seq<Account>, code: string): (r: Option<nat>)
    ensures r.Some? ==> r.value < |accounts| && accounts[r.value].code == code
    ensures r.None? ==> forall i :: 0 <= i < |accounts| ==> accounts[i].code != code
  {
    if |accounts| == 0 then None
    else
      var n := |accounts| - 1;
      if accounts[n].code == code then Some(n) else FindCode(accounts[..n], code)
  }

  predicate HasLink(accounts: seq<Account>, box: CashboxId) {
    exists i :: 0 <= i < |accounts| && accounts[i].cashbox == Some(box)
  }

  function SubAccount(accounts: seq<Account>, b: NewBox, parent: AccountId, n: nat): Account {
    Account(b.account, SubCode(n), Asset, true, Some(parent), 4, true, false, true, Some(b.id))
  }

  /** `linkOrCreateGLSubAccount`: the accounts afterwards, or None when the query fails. A link
      that exists, a missing parent and a code that is taken all leave the accounts alone. */
  function Link(accounts: seq<Account>, b: NewBox): Option<seq<Account>> {
    var at := FindCode(accounts, CASH_PARENT);
    if HasLink(accounts, b.id) || at.None? then Some(accounts)
    else
      var parent := accounts[at.value].id;
      var next := NextSeq(accounts, parent);
      if next.None? then None
      else if FindCode(accounts, SubCode(next.value)).Some? then Some(accounts)
      else Some(Chart.MarkParent(accounts, Some(parent)) + [SubAccount(accounts, b, parent, next.value)])
  }

  /** The cashbox gets a sub-account of its own. */
  predicate Makes(accounts: seq<Account>, b: NewBox) { Link(accounts, b).Some? && Link(accounts, b).value != accounts }

  /** The parent is there, and the next code under it can be computed and is free. */
  ghost predicate GetsAccount(accounts: seq<Account>, b: NewBox) {
    var at := FindCode(accounts, CASH_PARENT);
    && (forall i :: 0 <= i < |accounts| ==> accounts[i].cashbox != Some(b.id)) && at.Some?
    && exists n: nat :: IsNext(accounts, accounts[at.value].id, n) && forall i :: 0 <= i < |accounts| ==> accounts[i].code != SubCode(n)
  }

  /** The parent is there and some number under it is out of range. */
  ghost predicate CannotCount(accounts: seq<Account>, b: NewBox) {
    var at := FindCode(accounts, CASH_PARENT);
    (forall i :: 0 <= i < |accounts| ==> accounts[i].cashbox != Some(b.id)) && at.Some? && !Countable(accounts, accounts[at.value].id)
  }

  /** When a sub-account is made, and when the query that computes its code fails. The kind of
      the cashbox plays no part. */
  lemma MakesIff(accounts: seq<Account>, b: NewBox)
    ensures Makes(accounts, b) <==> GetsAccount(accounts, b)
    ensures Link(accounts, b).None? <==> CannotCount(accounts, b)
  {
    var at := FindCode(accounts, CASH_PARENT);
    if !HasLink(accounts, b.id) && at.Some? {
      var parent := accounts[at.value].id;
      hide MaxSeq, SubCode, Countable, IsNext, NextSeq;
      forall n: nat ensures NextSeq(accounts, parent) == Some(n) <==> IsNext(accounts, parent, n) {
        NextSeqIff(accounts, parent, n);
      }
      NextSeqIff(accounts, parent, 0);
      if NextSeq(accounts, parent).Some? {
        var n := NextSeq(accounts, parent).value;
        assert IsNext(accounts, parent, n);
        assert forall k: nat :: IsNext(accounts, parent, k) ==> k == n;
      }
    }
  }

  function OpeningSpec(b: NewBox): Spec {
    OneCashLeg("cashbox_opening", Document(b.id), b.date, "opening balance", b.now, ByCode("31"), b.id, In, b.opening, "opening")
  }

  function WithBox(db: Db, b: NewBox): Db { db.(boxes := db.boxes[b.id := Cashbox(b.kind, 0)]) }

  /** `createCashbox`, in one transaction. */
  function CreateBox(db: Db, b: NewBox): (Db, bool) {
    if !Valid(b) || b.id in db.boxes then (db, false)
    else
      var linked := Link(db.accounts, b);
      if linked.None? then (db, false)
      else
        var d := WithBox(db, b).(accounts := linked.value);
        if b.opening == 0 then (d, true)
        else if Record(d, OpeningSpec(b)).1.Rejected? then (db, false)
        else (Record(d, OpeningSpec(b)).0, true)
  }

  /** The keys of the new rows are new. */
  ghost predicate NewRows(db: Db, b: NewBox) {
    && Chart.UniqueIds(db.accounts) && b.id != "" && b.id !in db.boxes && !HasLink(db.accounts, b.id)
    && (forall i :: 0 <= i < |db.accounts| ==> db.accounts[i].id != b.account)
    && FindLive(db.entries, "cashbox_opening", Document(b.id)).None?
  }

  // ----- which cashboxes can be posted to -----

  lemma LinkKeepsIds(db: Db, b: NewBox)
    requires NewRows(db, b) && Link(db.accounts, b).Some?
    ensures Chart.UniqueIds(Link(db.accounts, b).value)
  {
  }

  lemma MadeAccount(db: Db, b: NewBox) returns (n: nat)
    requires Makes(db.accounts, b)
    ensures var linked, at := Link(db.accounts, b).value, FindCode(db.accounts, CASH_PARENT);
      && at.Some? && NextSeq(db.accounts, db.accounts[at.value].id) == Some(n)
      && linked == Chart.MarkParent(db.accounts, Some(db.accounts[at.value].id)) + [SubAccount(db.accounts, b, db.accounts[at.value].id, n)]
  {
    n := NextSeq(db.accounts, db.accounts[FindCode(db.accounts, CASH_PARENT).value].id).value;
  }

  /** The sub-account is the only account linked to the new cashbox, and unwatched. */
  lemma MadeIsUnwatched(db: Db, b: NewBox)
    requires NewRows(db, b) && Makes(db.accounts, b)
    ensures !LiquidBox(WithBox(db, b).(accounts := Link(db.accounts, b).value), b.id)
  {
    var n := MadeAccount(db, b);
    var linked := Link(db.accounts, b).value;
    var last := |linked| - 1;
    LinkKeepsIds(db, b);
    SubCodeUnwatched(n);
    Chart.CodeIs(linked, last);
    hide Link, NextSeq, SubCode, CodeOf;
    assert linked[last].cashbox == Some(b.id) && linked[last].isActive;
    Chart.NoLink(linked, b.id);
    var i := Chart.LinkedIs(linked, b.id);
    assert i == last by {
      assert forall k :: 0 <= k < last ==> linked[k].cashbox == db.accounts[k].cashbox;
    }
  }

  /** A new cashbox can be posted to if and only if it got no sub-account, and some active
      account carries the code of its kind. */
  lemma NewBoxLiquidIff(db: Db, b: NewBox)
    requires NewRows(db, b) && Link(db.accounts, b).Some?
    ensures LiquidBox(WithBox(db, b).(accounts := Link(db.accounts, b).value), b.id) <==>
      !GetsAccount(db.accounts, b) && exists i :: 0 <= i < |db.accounts| && db.accounts[i].code == KindToCode(b.kind) && db.accounts[i].isActive
  {
    hide GetsAccount;
    MakesIff(db.accounts, b);
    if Makes(db.accounts, b) {
      MadeIsUnwatched(db, b);
    } else {
      hide Link, LiquidBox, KindToCode;
      var d := WithBox(db, b);
      Chart.LiquidBoxIff(d, b.id);
      assert d.boxes[b.id].kind == b.kind;
    }
  }

  /** A cashbox is created if and only if its fields are valid, no number under the parent is
      out of range, and an opening balance, if there is one, can be posted: which needs that no
      sub-account is made. */
  lemma CreateBoxIff(db: Db, b: NewBox)
    requires NewRows(db, b)
    ensures CreateBox(db, b).1 <==>
      && b.name != "" && b.kind in ["cash", "bank", "ewallet", "check"] && (b.kind == "bank" || b.kind == "ewallet" ==> b.institution)
      && b.opening >= 0 && b.warehouse && !CannotCount(db.accounts, b)
      && (b.opening > 0 ==>
            && !GetsAccount(db.accounts, b) && !db.locked && PlainCounterpart(db, ByCode("31"))
            && exists i :: 0 <= i < |db.accounts| && db.accounts[i].code == KindToCode(b.kind) && db.accounts[i].isActive)
    ensures !CreateBox(db, b).1 ==> CreateBox(db, b).0 == db
  {
    hide Link, Makes, KindToCode, CannotCount, GetsAccount, FindCode, HasLink, Record, OpeningSpec, LiquidBox;
    MakesIff(db.accounts, b);
    if Valid(b) && Link(db.accounts, b).Some? && b.opening > 0 {
      var d := WithBox(db, b).(accounts := Link(db.accounts, b).value);
      NewBoxLiquidIff(db, b);
      OpeningPosts(d, b);
      if !Makes(db.accounts, b) {
        NotMade(db.accounts, b);
      }
    }
  }

  lemma NotMade(accounts: seq<Account>, b: NewBox)
    requires Link(accounts, b).Some? && !Makes(accounts, b)
    ensures Link(accounts, b).value == accounts
  {
  }

  lemma OpeningPosts(d: Db, b: NewBox)
    requires b.opening > 0 && b.id != "" && FindLive(d.entries, "cashbox_opening", Document(b.id)).None?
    ensures !Record(d, OpeningSpec(b)).1.Rejected? <==> !d.locked && LiquidBox(d, b.id) && PlainCounterpart(d, ByCode("31"))
  {
    var s := OpeningSpec(b);
    hide Record, LiquidBox, PlainCounterpart;
    OneCashLegPostsIff(d, "cashbox_opening", Document(b.id), b.date, "opening balance", b.now, ByCode("31"), b.id, In, b.opening, "opening");
    if !Record(d, s).1.Rejected? {
      Corrections.AskedTwo(s, s.lines[0], s.lines[1]);
      AcceptedPosts(d, s);
    }
  }

  lemma CreatedAs(db: Db, b: NewBox)
    requires CreateBox(db, b).1
    ensures Link(db.accounts, b).Some? && b.opening >= 0
    ensures var d := WithBox(db, b).(accounts := Link(db.accounts, b).value);
      CreateBox(db, b).0 == (if b.opening == 0 then d else Record(d, OpeningSpec(b)).0) && (b.opening > 0 ==> !Record(d, OpeningSpec(b)).1.Rejected?)
  {
    hide Link, WithBox, Record, OpeningSpec;
  }

  /** A created cashbox holds its opening balance, and nothing else holds anything new: the
      balance comes in one row, against capital (31), on the day given. */
  lemma CreateBoxBooks(db: Db, b: NewBox, account: AccountId, asOf: int) returns (cash: AccountId, capital: AccountId)
    requires NewRows(db, b) && CreateBox(db, b).1
    ensures var d := CreateBox(db, b).0;
      && d.boxes == db.boxes[b.id := Cashbox(b.kind, b.opening)] && d.locked == db.locked
      && if b.opening == 0 then d.cash == db.cash && d.entries == db.entries
         else
           && Written.BooksTo(d, b.id, cash) && Written.FirstWithCode(d.accounts, "31", capital)
           && d.cash == db.cash + [CashTxn(b.id, In, b.opening, "opening", "cashbox", Document(b.id), b.opening, b.now, false)]
           && d.entries == db.entries + [Entry("cashbox_opening", Document(b.id), b.date,
                                               [Line(cash, b.opening, 0, Some(b.id), None), Line(capital, 0, b.opening, None, None)], None, false)]
  {
    CreatedAs(db, b);
    var d := WithBox(db, b).(accounts := Link(db.accounts, b).value);
    hide Link, CreateBox, MapToEntityType, Record;
    cash, capital := "", "";
    if b.opening > 0 {
      OpeningPosts(d, b);
      var s := OpeningSpec(b);
      Corrections.AskedTwo(s, s.lines[0], s.lines[1]);
      AcceptedPosts(d, s);
      RecipeEntities();
      cash, capital := RecipeBooks.OneLegBooks(d, s, "cashbox_opening", "cashbox", Document(b.id), b.date, b.now, ByCode("31"), b.id, In, b.opening,
                                               "opening", account, b.id, asOf);
      Written.BooksToIff(d, b.id, cash);
      RecipeBooks.CodeAccount(d, "31", capital);
      OpenedBox(db, b, d, Record(d, s).0);
      SameBooksTo(d, Record(d, s).0, b.id, cash);
    }
  }

  lemma OpenedBox(db: Db, b: NewBox, d: Db, after: Db)
    requires b.id !in db.boxes && d.boxes == db.boxes[b.id := Cashbox(b.kind, 0)] && d.cash == db.cash
    requires var moves := [Alignment.Movement(b.id, In, b.opening, "opening")];
      Written.AddsRows(d, after, moves, "cashbox", Document(b.id), b.now) && Written.MovesBalances(d, after, moves)
    ensures after.boxes == db.boxes[b.id := Cashbox(b.kind, b.opening)]
    ensures after.cash == db.cash + [CashTxn(b.id, In, b.opening, "opening", "cashbox", Document(b.id), b.opening, b.now, false)]
  {
    var m := Alignment.Movement(b.id, In, b.opening, "opening");
    forall c: CashboxId ensures Sums.Sum(Alignment.MoveOn(c), [m]) == if c == b.id then b.opening else 0 {
      Corrections.OneMove(c, m);
    }
    assert [m][..1] == [m];
    assert after.cash == after.cash[..|db.cash|] + [after.cash[|db.cash|]];
  }

  lemma SameBooksTo(d: Db, after: Db, box: CashboxId, id: AccountId)
    requires d.accounts == after.accounts && d.boxes.Keys == after.boxes.Keys && forall c :: c in d.boxes ==> after.boxes[c].kind == d.boxes[c].kind
    ensures Written.BooksTo(d, box, id) <==> Written.BooksTo(after, box, id)
  {
  }

  // ----- how many cashboxes there can be -----

  lemma {:induction false} MaxSeqMarked(accounts: seq<Account>, mark: Option<AccountId>, parent: AccountId)
    ensures MaxSeq(Chart.MarkParent(accounts, mark), parent) == MaxSeq(accounts, parent)
  {
    if |accounts| > 0 {
      var n := |accounts| - 1;
      assert Chart.MarkParent(accounts, mark)[..n] == Chart.MarkParent(accounts[..n], mark);
      MaxSeqMarked(accounts[..n], mark, parent);
    }
  }

  /** After a sub-account is made the next number counts from its whole code, which is the
      parent's code and the number together. */
  lemma MaxAfter(db: Db, b: NewBox) returns (n: nat)
    requires Makes(db.accounts, b)
    ensures var parent := db.accounts[FindCode(db.accounts, CASH_PARENT).value].id; var v := 111 * Pow10(|Padded(n)|) + n;
      && NextSeq(db.accounts, parent) == Some(n)
      && MaxSeq(Link(db.accounts, b).value, parent) == if v > INT_MAX then None else Some(v)
  {
    n := MadeAccount(db, b);
    var parent := db.accounts[FindCode(db.accounts, CASH_PARENT).value].id;
    MaxOfLonger(db.accounts, b, parent, n);
    hide Link, SubCode, Makes, MaxSeq, Pow10, Padded;
  }

  lemma MaxOfLonger(accounts: seq<Account>, b: NewBox, parent: AccountId, n: nat)
    requires NextSeq(accounts, parent) == Some(n)
    ensures var v := 111 * Pow10(|Padded(n)|) + n;
      MaxSeq(Chart.MarkParent(accounts, Some(parent)) + [SubAccount(accounts, b, parent, n)], parent) == if v > INT_MAX then None else Some(v)
  {
    hide SubCode, Padded, Pow10, TrailingDigits, Value, Chart.MarkParent, MaxSeq;
    var marked, last := Chart.MarkParent(accounts, Some(parent)), SubAccount(accounts, b, parent, n);
    MaxSeqMarked(accounts, Some(parent), parent);
    SubCodeValue(n);
    SubCodeUnwatched(n);
    Pow10Grows(|Padded(n)|);
    MaxSnoc(marked, last, parent);
  }

  lemma MaxSnoc(accounts: seq<Account>, a: Account, parent: AccountId)
    requires a.parent == Some(parent) && TrailingDigits(a.code) != "" && MaxSeq(accounts, parent).Some?
    ensures var v, m := Value(TrailingDigits(a.code)), MaxSeq(accounts, parent).value;
      MaxSeq(accounts + [a], parent) == if v > INT_MAX then None else Some(if v > m then v else m)
  {
    hide TrailingDigits, Value;
    assert (accounts + [a])[..|accounts|] == accounts;
  }

  lemma {:induction false} Pow10Grows(n: nat)
    ensures Pow10(n) >= 1
  {
    if n > 0 {
      Pow10Grows(n - 1);
    }
  }

  /** The parent stays where it is found. */
  lemma {:induction false} MarkedFind(accounts: seq<Account>, mark: Option<AccountId>, code: string)
    ensures FindCode(Chart.MarkParent(accounts, mark), code) == FindCode(accounts, code)
  {
    if |accounts| > 0 {
      var n := |accounts| - 1;
      assert Chart.MarkParent(accounts, mark)[..n] == Chart.MarkParent(accounts[..n], mark);
      MarkedFind(accounts[..n], mark, code);
    }
  }

  /** Once a number is out of range no cashbox can be created again. */
  lemma OutOfRange(db: Db, b: NewBox)
    requires FindCode(db.accounts, CASH_PARENT).Some? && !HasLink(db.accounts, b.id)
    requires NextSeq(db.accounts, db.accounts[FindCode(db.accounts, CASH_PARENT).value].id).None?
    ensures CreateBox(db, b) == (db, false)
  {
  }

  /** The cash accounts under 111 as they are seeded: 1111 to 1115, with no longer codes. */
  ghost predicate Seeded(accounts: seq<Account>) {
    && FindCode(accounts, CASH_PARENT).Some?
    && MaxSeq(accounts, accounts[FindCode(accounts, CASH_PARENT).value].id) == Some(1115)
    && forall i :: 0 <= i < |accounts| ==> |accounts[i].code| <= 4
  }

  /** The chart after some sub-accounts: the parent, the greatest number, and codes no longer
      than the last one made. */
  ghost predicate GrownTo(accounts: seq<Account>, at: nat, max: nat, length: nat) {
    && FindCode(accounts, CASH_PARENT) == Some(at)
    && MaxSeq(accounts, accounts[at].id) == Some(max)
    && forall i :: 0 <= i < |accounts| ==> |accounts[i].code| <= length
  }

  /** A further sub-account: its code is longer than any other, so it is never taken. */
  lemma GrowOnce(db: Db, b: NewBox, at: nat, max: nat, length: nat)
    requires GrownTo(db.accounts, at, max, length) && max < INT_MAX && |SubCode(max + 1)| > length
    requires !HasLink(db.accounts, b.id) && Valid(b) && b.id !in db.boxes && b.opening == 0
    ensures var d := CreateBox(db, b).0; var v := 111 * Pow10(|Padded(max + 1)|) + max + 1;
      && CreateBox(db, b).1 && Makes(db.accounts, b) && d.accounts == Link(db.accounts, b).value
      && FindCode(d.accounts, CASH_PARENT) == Some(at)
      && (v <= INT_MAX ==> GrownTo(d.accounts, at, v, |SubCode(max + 1)|))
      && (v > INT_MAX ==> NextSeq(d.accounts, d.accounts[at].id).None?)
  {
    hide Link, MaxSeq, SubCode, Makes, Pow10, FindCode, HasLink, Padded, Record, OpeningSpec, Valid, NextSeq, Decimal;
    LinkGrows(db, b, at, max, length);
    var n := MaxAfter(db, b);
    NoNext(Link(db.accounts, b).value, db.accounts[at].id);
  }

  lemma NoNext(accounts: seq<Account>, parent: AccountId)
    ensures MaxSeq(accounts, parent).None? ==> NextSeq(accounts, parent).None?
  {
  }

  lemma LinkGrows(db: Db, b: NewBox, at: nat, max: nat, length: nat)
    requires GrownTo(db.accounts, at, max, length) && max < INT_MAX && |SubCode(max + 1)| > length
    requires !HasLink(db.accounts, b.id)
    ensures var linked := Link(db.accounts, b);
      && Makes(db.accounts, b) && NextSeq(db.accounts, db.accounts[at].id) == Some(max + 1) && linked.Some?
      && FindCode(linked.value, CASH_PARENT) == Some(at) && linked.value[at].id == db.accounts[at].id
      && forall i :: 0 <= i < |linked.value| ==> |linked.value[i].code| <= |SubCode(max + 1)|
  {
    hide MaxSeq, SubCode, HasLink, Padded;
    var parent := db.accounts[at].id;
    SubCodeUnwatched(max + 1);
    MarkedFind(db.accounts, Some(parent), CASH_PARENT);
    var marked, last := Chart.MarkParent(db.accounts, Some(parent)), SubAccount(db.accounts, b, parent, max + 1);
    assert FindCode(db.accounts, SubCode(max + 1)).None?;
    assert |marked + [last]| == |db.accounts| + 1;
    assert Link(db.accounts, b) == Some(marked + [last]);
    hide Link, FindCode;
    FindSnoc(marked, last, CASH_PARENT);
  }

  lemma FindSnoc(accounts: seq<Account>, a: Account, code: string)
    requires a.code != code
    ensures FindCode(accounts + [a], code) == FindCode(accounts, code)
  {
    assert (accounts + [a])[..|accounts|] == accounts;
  }

  lemma SeedNumbers()
    ensures |Decimal(1116)| == 4 && |Decimal(1111117)| == 7 && |Decimal(1111111118)| == 10
    ensures Pow10(4) == 10000 && Pow10(7) == 10000000 && Pow10(10) == 10000000000
  {
    assert |Decimal(1)| == 1 && |Decimal(11)| == 2 && |Decimal(111)| == 3 && |Decimal(1116)| == 4;
    assert |Decimal(1111)| == 4 && |Decimal(11111)| == 5 && |Decimal(111111)| == 6 && |Decimal(1111117)| == 7;
    assert |Decimal(1111111)| == 7 && |Decimal(11111111)| == 8 && |Decimal(111111111)| == 9 && |Decimal(1111111118)| == 10;
    assert Pow10(1) == 10 && Pow10(2) == 100 && Pow10(3) == 1000 && Pow10(4) == 10000;
    assert Pow10(5) == 100000 && Pow10(6) == 1000000 && Pow10(7) == 10000000;
    assert Pow10(8) == 100000000 && Pow10(9) == 1000000000;
  }

  /** On the seeded chart three cashboxes can be created and no more: the numbers are 1116,
      1111117 and 1111111118, and the code made from the last one is no 32-bit integer. */
  lemma OnlyThreeCashboxes(db: Db, b1: NewBox, b2: NewBox, b3: NewBox, b4: NewBox)
    requires Seeded(db.accounts) && Valid(b1) && Valid(b2) && Valid(b3) && b1.opening == b2.opening == b3.opening == 0
    requires b1.id != b2.id && b1.id != b3.id && b2.id != b3.id
    requires forall b :: b in {b1, b2, b3, b4} ==> b.id !in db.boxes && !HasLink(db.accounts, b.id)
    requires b4.id !in {b1.id, b2.id, b3.id}
    ensures var d1 := CreateBox(db, b1); var d2 := CreateBox(d1.0, b2); var d3 := CreateBox(d2.0, b3);
      d1.1 && d2.1 && d3.1 && CreateBox(d3.0, b4) == (d3.0, false)
  {
    hide Link, Valid, Pow10, Decimal, CreateBox, FindCode, MaxSeq, NextSeq, HasLink;
    SeedNumbers();
    var at := FindCode(db.accounts, CASH_PARENT).value;
    assert GrownTo(db.accounts, at, 1115, 4);
    GrowOnce(db, b1, at, 1115, 4);
    var d1 := CreateBox(db, b1).0;
    StillUnlinked(db, b1, b2.id);
    StillUnlinked(db, b1, b3.id);
    StillUnlinked(db, b1, b4.id);
    GrowOnce(d1, b2, at, 1111116, 7);
    var d2 := CreateBox(d1, b2).0;
    StillUnlinked(d1, b2, b3.id);
    StillUnlinked(d1, b2, b4.id);
    GrowOnce(d2, b3, at, 1111111117, 10);
    StillUnlinked(d2, b3, b4.id);
    OutOfRange(CreateBox(d2, b3).0, b4);
  }

  lemma StillUnlinked(db: Db, b: NewBox, box: CashboxId)
    requires !HasLink(db.accounts, box) && box != b.id && box !in db.boxes && b.opening == 0
    ensures !HasLink(CreateBox(db, b).0.accounts, box) && box !in CreateBox(db, b).0.boxes
  {
    hide NextSeq, SubCode, FindCode;
  }

  // ----- what creating a cashbox keeps -----

  /** On a chart whose account 111 is an asset at level 3, the sub-account is what the chart
      service would create under it. */
  lemma LinkIsCreate(db: Db, b: NewBox) returns (a: Chart.NewAccount)
    requires NewRows(db, b) && Makes(db.accounts, b) && b.name != ""
    requires var at := FindCode(db.accounts, CASH_PARENT); at.Some? ==> db.accounts[at.value].kind.Asset? && db.accounts[at.value].level == 3
    ensures WithBox(db, b).(accounts := Link(db.accounts, b).value) == Chart.Create(WithBox(db, b), a)
  {
    var n := MadeAccount(db, b);
    var at := FindCode(db.accounts, CASH_PARENT).value;
    var parent := db.accounts[at].id;
    a := Chart.NewAccount(b.account, SubCode(n), b.name, Asset, Some(true), Some(parent), Some(b.id));
    SubCodeUnwatched(n);
    assert FindCode(db.accounts, SubCode(n)).None?;
    var f := Chart.Find(db.accounts, parent);
    assert f == Some(at);
    hide SubCode, NextSeq;
  }

  lemma BoxKeepsInv(db: Db, b: NewBox)
    requires Inv(db) && b.id !in db.boxes
    ensures Inv(WithBox(db, b))
  {
    var d := WithBox(db, b);
    forall c | c in d.boxes ensures d.boxes[c].balance == CashNet(d, c, Everything()) {
      assert CashNet(d, c, Everything()) == CashNet(db, c, Everything());
      if c == b.id {
        Sums.SumZero(CashIn(c, Everything()), db.cash);
      }
    }
    forall e | 0 <= e < |d.entries| ensures EntrySane(d.accounts, d.boxes.Keys, d.entries[e]) {
      assert EntrySane(db.accounts, db.boxes.Keys, db.entries[e]);
      forall l | 0 <= l < |d.entries[e].lines| ensures LineSane(d.accounts, d.boxes.Keys, d.entries[e].lines[l]) {
        assert LineSane(db.accounts, db.boxes.Keys, db.entries[e].lines[l]);
      }
    }
  }

  lemma PostingKeeps(d: Db, s: Spec)
    requires Inv(d)
    ensures Inv(Record(d, s).0) && Record(d, s).0.accounts == d.accounts
  {
    hide Inv, Record;
    RecordKeeps(d, s);
    var _ := RecordCases(d, s);
  }

  lemma LinkKeeps(db: Db, b: NewBox)
    requires NewRows(db, b) && Inv(db) && Chart.Forest(db.accounts) && Valid(b) && Link(db.accounts, b).Some?
    requires var at := FindCode(db.accounts, CASH_PARENT); at.Some? ==> db.accounts[at.value].kind.Asset? && db.accounts[at.value].level == 3
    ensures var d := WithBox(db, b).(accounts := Link(db.accounts, b).value); Inv(d) && Chart.Forest(d.accounts)
  {
    hide Inv, Chart.Forest, Link, FindCode;
    BoxKeepsInv(db, b);
    if Makes(db.accounts, b) {
      var a := LinkIsCreate(db, b);
      Chart.CreateKeepsForest(WithBox(db, b), a);
      Chart.ChartKeepsInv(WithBox(db, b), Chart.DoCreate(a));
    } else {
      NotMade(db.accounts, b);
    }
  }

  lemma CreateCases(db: Db, b: NewBox)
    ensures var after, linked := CreateBox(db, b).0, Link(db.accounts, b);
      || after == db
      || (Valid(b) && b.id !in db.boxes && linked.Some?
          && var d := WithBox(db, b).(accounts := linked.value); after == d || after == Record(d, OpeningSpec(b)).0)
  {
    hide Valid, Link, WithBox, Record, OpeningSpec;
  }

  /** Creating a cashbox keeps the account forest and the invariant of the engine. */
  lemma CreateBoxKeeps(db: Db, b: NewBox)
    requires NewRows(db, b) && Inv(db) && Chart.Forest(db.accounts)
    requires var at := FindCode(db.accounts, CASH_PARENT); at.Some? ==> db.accounts[at.value].kind.Asset? && db.accounts[at.value].level == 3
    ensures Inv(CreateBox(db, b).0) && Chart.Forest(CreateBox(db, b).0.accounts)
  {
    hide Inv, Chart.Forest, Record, Link, NewRows, OpeningSpec, FindCode, Valid, CreateBox, WithBox;
    CreateCases(db, b);
    if CreateBox(db, b).0 != db {
      LinkKeeps(db, b);
      PostingKeeps(WithBox(db, b).(accounts := Link(db.accounts, b).value), OpeningSpec(b));
    }
  }

  // ----- the service as it runs -----

  class CashDesk {
    const engine: FinancialEngine

    constructor (engine: FinancialEngine)
      ensures this.engine == engine
    {
      this.engine := engine;
    }

    method LinkOrCreateGLSubAccount(b: NewBox) returns (ok: bool)
      modifies engine`accounts
      ensures ok == Link(old(engine.accounts), b).Some?
      ensures engine.accounts == if ok then Link(old(engine.accounts), b).value else old(engine.accounts)
    {
      if HasLink(engine.accounts, b.id) {
        return true;
      }
      var at := FindCode(engine.accounts, CASH_PARENT);
      if at.None? {
        return true;
      }
      var parent := engine.accounts[at.value].id;
      var next := NextSeq(engine.accounts, parent);
      if next.None? {
        return false;
      }
      if FindCode(engine.accounts, SubCode(next.value)).None? {
        engine.accounts := Chart.MarkParent(engine.accounts, Some(parent)) + [SubAccount(engine.accounts, b, parent, next.value)];
      }
      return true;
    }

    method CreateCashbox(b: NewBox) returns (ok: bool)
      modifies engine
      ensures (engine.Snapshot(), ok) == CreateBox(old(engine.Snapshot()), b)
    {
      if !Valid(b) || b.id in engine.boxes {
        return false;
      }
      hide Link, Record;
      var saved := engine.Snapshot();
      engine.boxes := engine.boxes[b.id := Cashbox(b.kind, 0)];
      ok := LinkOrCreateGLSubAccount(b);
      if ok && b.opening > 0 {
        var o := engine.RecordTransaction(OpeningSpec(b), true);
        ok := !o.Rejected?;
      }
      if !ok {
        engine.Restore(saved);
      }
    }
  }
}
