/**
 What one accepted call leaves behind, written out field by field: the cash rows and the
 balances, the entry with its date and its lines, and the figures of every report.
 */
module Postings {
  import opened Sums
  import opened Ledger
  import opened Alignment
  import opened Engine
  import opened Runs
  import opened Recipes
  import opened Reversal
  import BalanceSheet

  // ----- which account a line names -----

  /** The first active account carrying the code. */
  ghost predicate FirstWithCode(accounts: seq<Account>, code: string, id: AccountId) {
    exists i :: 0 <= i < |accounts| && accounts[i].id == id && accounts[i].code == code && accounts[i].isActive
      && forall j :: 0 <= j < i ==> !(accounts[j].code == code && accounts[j].isActive)
  }

  ghost predicate FirstLinked(accounts: seq<Account>, box: CashboxId, id: AccountId) {
    exists i :: 0 <= i < |accounts| && accounts[i].id == id && accounts[i].cashbox == Some(box) && accounts[i].isActive
      && forall j :: 0 <= j < i ==> !(accounts[j].cashbox == Some(box) && accounts[j].isActive)
  }

  lemma {:induction false} FirstWithCodeIff(accounts: seq<Account>, code: string, id: AccountId)
    ensures AccountByCode(accounts, code) == Some(id) <==> FirstWithCode(accounts, code, id)
  {
    if |accounts| > 0 && !(accounts[0].code == code && accounts[0].isActive) {
      var rest := accounts[1..];
      FirstWithCodeIff(rest, code, id);
      if FirstWithCode(rest, code, id) {
        var i :| 0 <= i < |rest| && rest[i].id == id && rest[i].code == code && rest[i].isActive
          && forall j :: 0 <= j < i ==> !(rest[j].code == code && rest[j].isActive);
        assert accounts[i + 1] == rest[i];
        forall j | 0 <= j < i + 1 ensures !(accounts[j].code == code && accounts[j].isActive) {
          if j > 0 { assert accounts[j] == rest[j - 1]; }
        }
      }
      if FirstWithCode(accounts, code, id) {
        var i :| 0 <= i < |accounts| && accounts[i].id == id && accounts[i].code == code && accounts[i].isActive
          && forall j :: 0 <= j < i ==> !(accounts[j].code == code && accounts[j].isActive);
        assert rest[i - 1] == accounts[i];
        forall j | 0 <= j < i - 1 ensures !(rest[j].code == code && rest[j].isActive) {
          assert rest[j] == accounts[j + 1];
        }
      }
    }
  }

  lemma {:induction false} FirstLinkedIff(accounts: seq<Account>, box: CashboxId, id: AccountId)
    ensures LinkedAccount(accounts, box) == Some(id) <==> FirstLinked(accounts, box, id)
  {
    if |accounts| > 0 && !(accounts[0].cashbox == Some(box) && accounts[0].isActive) {
      var rest := accounts[1..];
      FirstLinkedIff(rest, box, id);
      if FirstLinked(rest, box, id) {
        var i :| 0 <= i < |rest| && rest[i].id == id && rest[i].cashbox == Some(box) && rest[i].isActive
          && forall j :: 0 <= j < i ==> !(rest[j].cashbox == Some(box) && rest[j].isActive);
        assert accounts[i + 1] == rest[i];
        forall j | 0 <= j < i + 1 ensures !(accounts[j].cashbox == Some(box) && accounts[j].isActive) {
          if j > 0 { assert accounts[j] == rest[j - 1]; }
        }
      }
      if FirstLinked(accounts, box, id) {
        var i :| 0 <= i < |accounts| && accounts[i].id == id && accounts[i].cashbox == Some(box) && accounts[i].isActive
          && forall j :: 0 <= j < i ==> !(accounts[j].cashbox == Some(box) && accounts[j].isActive);
        assert rest[i - 1] == accounts[i];
        forall j | 0 <= j < i - 1 ensures !(rest[j].cashbox == Some(box) && rest[j].isActive) {
          assert rest[j] == accounts[j + 1];
        }
      }
    }
  }

  /** The code a cashbox without a link books to. */
  ghost function CodeOfKind(db: Db, box: CashboxId): string {
    var kind := if box in db.boxes then db.boxes[box].kind else "cash";
    if kind == "bank" then "1113" else if kind == "ewallet" then "1114" else if kind == "check" then "1115" else "1111"
  }

  /** The account a cashbox books to: its first active link, else the first active account with
      the code of its kind. */
  ghost predicate BooksTo(db: Db, box: CashboxId, id: AccountId) {
    if exists i :: 0 <= i < |db.accounts| && db.accounts[i].cashbox == Some(box) && db.accounts[i].isActive
    then FirstLinked(db.accounts, box, id)
    else FirstWithCode(db.accounts, CodeOfKind(db, box), id)
  }

  lemma {:induction false} LinkedWhenAny(accounts: seq<Account>, box: CashboxId)
    ensures LinkedAccount(accounts, box).Some? <==> exists i :: 0 <= i < |accounts| && accounts[i].cashbox == Some(box) && accounts[i].isActive
  {
    if |accounts| > 0 {
      LinkedWhenAny(accounts[1..], box);
      assert forall i :: 1 <= i < |accounts| ==> accounts[1..][i - 1] == accounts[i];
      if LinkedAccount(accounts[1..], box).Some? {
        var i :| 0 <= i < |accounts| - 1 && accounts[1..][i].cashbox == Some(box) && accounts[1..][i].isActive;
        assert accounts[i + 1].cashbox == Some(box) && accounts[i + 1].isActive;
      }
    }
  }

  /** `cashboxAccountId`. */
  lemma BooksToIff(db: Db, box: CashboxId, id: AccountId)
    ensures CashboxAccount(db, box) == Some(id) <==> BooksTo(db, box, id)
  {
    LinkedWhenAny(db.accounts, box);
    FirstLinkedIff(db.accounts, box, id);
    FirstWithCodeIff(db.accounts, CodeOfKind(db, box), id);
    hide LinkedAccount, AccountByCode, FirstLinked, FirstWithCode;
  }

  /** The account a requested line names. */
  ghost predicate Names(db: Db, g: GlLine, id: AccountId) {
    if g.accountId.Some? && g.accountId.value != "" then id == g.accountId.value
    else if g.accountCode.Some? && g.accountCode.value != "" then FirstWithCode(db.accounts, g.accountCode.value, id)
    else g.resolveFrom.Some? && g.resolveFrom.value != "" && BooksTo(db, g.resolveFrom.value, id)
  }

  /** What is written for a requested line: its account, its amounts and employee, and the
      cashbox it is tagged with or else resolved from. */
  lemma ResolveIff(db: Db, g: GlLine, l: Line)
    ensures Resolve(db, g) == Some(l) <==>
      && Names(db, g, l.account) && l.debit == g.debit && l.credit == g.credit && l.employee == g.employee
      && l.cashbox == if g.cashbox.Some? then g.cashbox else g.resolveFrom
  {
    if g.accountCode.Some? {
      FirstWithCodeIff(db.accounts, g.accountCode.value, l.account);
    }
    if g.resolveFrom.Some? {
      BooksToIff(db, g.resolveFrom.value, l.account);
    }
    hide AccountByCode, CashboxAccount, FirstWithCode, BooksTo;
  }

  // ----- the cash side -----

  /** One row for each movement, in order, each with the balance of its cashbox after it. */
  ghost predicate AddsRows(db: Db, d: Db, moves: seq<Movement>, entity: string, refId: RefId, now: int) {
    && |d.cash| == |db.cash| + |moves| && d.cash[..|db.cash|] == db.cash
    && forall k :: 0 <= k < |moves| ==>
         && moves[k].cashbox in db.boxes
         && d.cash[|db.cash| + k] == CashTxn(moves[k].cashbox, moves[k].direction, moves[k].amount, moves[k].category, entity, refId,
                                             db.boxes[moves[k].cashbox].balance + Sum(MoveOn(moves[k].cashbox), moves[..k + 1]), now, false)
  }

  /** Each balance moves by the movements of its cashbox. */
  ghost predicate MovesBalances(db: Db, d: Db, moves: seq<Movement>) {
    d.boxes.Keys == db.boxes.Keys
    && forall b :: b in db.boxes ==> d.boxes[b] == db.boxes[b].(balance := db.boxes[b].balance + Sum(MoveOn(b), moves))
  }

  lemma PayAdds(front: Db, db: Db, moves: seq<Movement>, m: Movement, entity: string, refId: RefId, now: int)
    requires AddsRows(db, front, moves, entity, refId, now) && MovesBalances(db, front, moves) && m.cashbox in db.boxes
    ensures AddsRows(db, Pay(front, m, entity, refId, now), moves + [m], entity, refId, now)
    ensures MovesBalances(db, Pay(front, m, entity, refId, now), moves + [m])
  {
    var d, all := Pay(front, m, entity, refId, now), moves + [m];
    forall b | b in db.boxes ensures Sum(MoveOn(b), all) == Sum(MoveOn(b), moves) + MoveOn(b)(m) {
      SumSnoc(MoveOn(b), moves, m);
    }
    hide Sum;
    forall k | 0 <= k < |moves| ensures all[..k + 1] == moves[..k + 1] && all[k] == moves[k] {}
    assert all[..|moves| + 1] == all;
  }

  lemma {:induction false} PayAllAdds(db: Db, moves: seq<Movement>, entity: string, refId: RefId, now: int)
    requires PayAll(db, moves, entity, refId, now).1
    ensures var d := PayAll(db, moves, entity, refId, now).0;
      AddsRows(db, d, moves, entity, refId, now) && MovesBalances(db, d, moves)
  {
    if |moves| > 0 {
      var n := |moves| - 1;
      PayAllAdds(db, moves[..n], entity, refId, now);
      assert moves == moves[..n] + [moves[n]];
      PayAdds(PayAll(db, moves[..n], entity, refId, now).0, db, moves[..n], moves[n], entity, refId, now);
    }
  }

  // ----- the whole call -----

  /** The entries before the call, the one it reverses flagged void and nothing else changed. */
  ghost predicate OnlyVoids(older: seq<Entry>, newer: seq<Entry>, original: Option<nat>) {
    |older| <= |newer| && forall i :: 0 <= i < |older| ==>
      newer[i] == if original == Some(i) then older[i].(isVoid := true) else older[i]
  }

  /** An accepted call, table by table: its movements become live cash rows that carry the
      mapped type, the reference and the moment of the call, its lines become one live entry
      that carries the type itself, the reference and the date asked for, and the entry it
      reverses is flagged. */
  lemma PostedExactly(db: Db, s: Spec) returns (lines: seq<Line>)
    requires Record(db, s).1.Posted?
    ensures |lines| == |s.lines| && forall i :: 0 <= i < |lines| ==> Resolve(db, s.lines[i]) == Some(lines[i])
    ensures var d := Record(db, s).0; var n := |db.entries|;
      && Record(db, s).1.entry == n && Record(db, s).1.cashIds == Range(|db.cash|, |s.movements|)
      && d.accounts == db.accounts && d.locked == db.locked
      && AddsRows(db, d, s.movements, MapToEntityType(s.refType), s.refId, s.now) && MovesBalances(db, d, s.movements)
      && |d.entries| == n + 1 && OnlyVoids(db.entries, d.entries, s.reversalOf)
      && d.entries[n].refType == s.refType && d.entries[n].refId == s.refId && d.entries[n].date == s.date
      && d.entries[n].reversalOf == s.reversalOf && !d.entries[n].isVoid
      && d.entries[n].lines == Keep((l: Line) => l.debit != 0 || l.credit != 0, lines)
  {
    hide Record, Judge, ValidateSpec, MapToEntityType, LineKeys, PayAll, Resolve, MovesBalances, FindLive, Post, OnlyVoids, AddsRows, Sum, Keep;
    var paid;
    paid, lines := PostedFacts(db, s);
    ResolveAllFrame(db, paid, s.lines);
    PayAllAdds(db, s.movements, MapToEntityType(s.refType), s.refId, s.now);
    EntryWritten(paid, s, lines);
    SameMoves(db, paid, Post(paid, s, lines), s.movements, MapToEntityType(s.refType), s.refId, s.now);
  }

  lemma EntryWritten(paid: Db, s: Spec, lines: seq<Line>)
    ensures var d, n := Post(paid, s, lines), |paid.entries|;
      && d == paid.(entries := d.entries) && |d.entries| == n + 1
      && d.entries[n] == Entry(s.refType, s.refId, s.date, Keep((l: Line) => l.debit != 0 || l.credit != 0, lines), s.reversalOf, false)
      && OnlyVoids(paid.entries, d.entries, s.reversalOf)
  {
    KeepSame(IsNonzero(), (l: Line) => l.debit != 0 || l.credit != 0, lines);
    hide Keep;
  }

  lemma {:induction false} KeepSame<T>(p: T -> bool, q: T -> bool, s: seq<T>)
    requires forall x :: p(x) == q(x)
    ensures Keep(p, s) == Keep(q, s)
  {
    if |s| > 0 {
      KeepSame(p, q, s[..|s| - 1]);
    }
  }

  lemma SameMoves(db: Db, paid: Db, d: Db, moves: seq<Movement>, entity: string, refId: RefId, now: int)
    requires d.boxes == paid.boxes && MovesBalances(db, paid, moves) && d.cash == paid.cash && AddsRows(db, paid, moves, entity, refId, now)
    ensures MovesBalances(db, d, moves) && AddsRows(db, d, moves, entity, refId, now)
  {
  }

  /** A cash-only movement: one row and its balance, and no entry, whatever is locked or posted. */
  lemma MovedExactly(db: Db, m: Movement, refType: string, refId: RefId, now: int)
    ensures MoveOnly(db, m, refType, refId, now).1.Moved? <==> m.amount > 0 && m.cashbox in db.boxes
    ensures var (d, o) := MoveOnly(db, m, refType, refId, now);
      if o.Moved? then
        && o.cashId == |db.cash| && AddsRows(db, d, [m], MapToEntityType(refType), refId, now) && MovesBalances(db, d, [m])
        && d.accounts == db.accounts && d.entries == db.entries && d.locked == db.locked
      else d == db
  {
    hide MapToEntityType;
    if m.amount > 0 && m.cashbox in db.boxes {
      assert MovesBalances(db, db, []) && AddsRows(db, db, [], MapToEntityType(refType), refId, now);
      PayAdds(db, db, [], m, MapToEntityType(refType), refId, now);
      assert [] + [m] == [m];
    }
  }

  // ----- when a call posts, and when it replays -----

  ghost predicate Given(o: Option<string>) { o.Some? && o.value != "" }

  /** One side at most, no negative amount, and exactly one way of naming the account. */
  ghost predicate ProperLine(l: GlLine) {
    && l.debit >= 0 && l.credit >= 0 && (l.debit == 0 || l.credit == 0)
    && (Given(l.accountCode) || Given(l.accountId) || Given(l.resolveFrom))
    && !(Given(l.accountCode) && Given(l.accountId)) && !(Given(l.accountCode) && Given(l.resolveFrom))
    && !(Given(l.accountId) && Given(l.resolveFrom))
  }

  ghost predicate Proper(s: Spec) {
    && s.refType != "" && s.refId != Document("") && s.description != "" && |s.lines| >= 2
    && (forall i :: 0 <= i < |s.lines| ==> ProperLine(s.lines[i]))
    && forall i :: 0 <= i < |s.movements| ==> s.movements[i].cashbox != "" && s.movements[i].amount > 0
  }

  ghost predicate LiveDocument(entries: seq<Entry>, i: nat, refType: string, refId: RefId) {
    i < |entries| && !entries[i].isVoid && entries[i].refType == refType && entries[i].refId == refId
  }

  /** A line the database takes: known account and cashbox, and an employee on 213 and 1123. */
  ghost predicate Storable(db: Db, l: Line) {
    && (exists i :: 0 <= i < |db.accounts| && db.accounts[i].id == l.account)
    && (l.cashbox.Some? ==> l.cashbox.value in db.boxes)
    && (CodeOf(db.accounts, l.account) in {"213", "1123"} ==> l.employee.Some?)
  }

  /** Cash and liquid lines agree: every line on 1111, 1113, 1114 or 1115 names a cashbox, and
      their signed amounts per cashbox are, as a bag, the movements. */
  ghost predicate CashAgrees(db: Db, lines: seq<Line>, moves: seq<Movement>) {
    var liquid := Keep((l: Line) => CodeOf(db.accounts, l.account) in ["1111", "1113", "1114", "1115"], lines);
    && (forall i :: 0 <= i < |liquid| ==> Given(liquid[i].cashbox))
    && multiset(Image((l: Line) => (l.cashbox, l.debit - l.credit), liquid))
       == multiset(Image((m: Movement) => (Some(m.cashbox), if m.direction.In? then m.amount else -m.amount), moves))
  }

  /** What a caller can check before asking for a posting. */
  ghost predicate Postable(db: Db, s: Spec) {
    && Proper(s) && !db.locked && (forall i: nat :: !LiveDocument(db.entries, i, s.refType, s.refId))
    && (forall i :: 0 <= i < |s.movements| ==> s.movements[i].cashbox in db.boxes)
    && Abs(Sum(AskedDebit(), s.lines) - Sum(AskedCredit(), s.lines)) <= 1 && Sum(AskedDebit(), s.lines) >= 1
    && (s.reversalOf.Some? ==> s.reversalOf.value < |db.entries|)
    && var lines := ResolveAll(db, s.lines);
       && lines.Some? && (s.accountingOnly || CashAgrees(db, lines.value, s.movements))
       && forall i :: 0 <= i < |lines.value| && (lines.value[i].debit != 0 || lines.value[i].credit != 0) ==> Storable(db, lines.value[i])
  }

  lemma ProperIff(s: Spec)
    ensures ValidateSpec(s).None? <==> Proper(s)
  {
    forall l: GlLine ensures LineError(l).None? <==> ProperLine(l) {}
    hide LineError, ProperLine;
  }

  function AsTuple(p: Pair): (Option<CashboxId>, Cents) { (p.cashbox, p.signed) }

  function AsPair(t: (Option<CashboxId>, Cents)): Pair { Pair(t.0, t.1) }

  lemma ImageTwice<A, B, C>(f: A -> B, g: B -> C, h: A -> C, s: seq<A>)
    requires forall x :: h(x) == g(f(x))
    ensures Image(g, Image(f, s)) == Image(h, s)
  {
  }

  lemma SameBags(a: seq<Pair>, b: seq<Pair>)
    ensures multiset(a) == multiset(b) <==> multiset(Image(AsTuple, a)) == multiset(Image(AsTuple, b))
  {
    if multiset(a) == multiset(b) {
      ImagePermuted(AsTuple, a, b);
    }
    if multiset(Image(AsTuple, a)) == multiset(Image(AsTuple, b)) {
      ImagePermuted(AsPair, Image(AsTuple, a), Image(AsTuple, b));
      assert Image(AsPair, Image(AsTuple, a)) == a && Image(AsPair, Image(AsTuple, b)) == b;
    }
  }

  lemma CashAgreesIff(db: Db, lines: seq<Line>, moves: seq<Movement>)
    ensures CashAgrees(db, lines, moves) <==> Agree(db.accounts, lines, moves)
  {
    var watched := (l: Line) => CodeOf(db.accounts, l.account) in ["1111", "1113", "1114", "1115"];
    KeepSame(OnLiquid(db.accounts), watched, lines);
    var liquid := LiquidLines(db.accounts, lines);
    assert liquid == Keep(watched, lines);
    var need, offer := (l: Line) => (l.cashbox, l.debit - l.credit),
                       (m: Movement) => (Some(m.cashbox), if m.direction.In? then m.amount else -m.amount);
    ImageTwice(NeedOf, AsTuple, need, liquid);
    ImageTwice(OfferOf, AsTuple, offer, moves);
    SameBags(Needs(liquid), Offers(moves));
  }

  lemma RecordPostsWhen(db: Db, s: Spec)
    ensures var paid := PaySpec(db, s).0;
      Record(db, s).1.Posted? <==>
        ValidateSpec(s).None? && !db.locked && FindLive(db.entries, s.refType, s.refId).None? && PaySpec(db, s).1
        && Book(paid, s, Range(|db.cash|, |s.movements|)).1.Posted?
  {
    hide ValidateSpec, FindLive, PaySpec, Book;
  }

  lemma BookPostsWhen(paid: Db, s: Spec, ids: seq<nat>)
    ensures Book(paid, s, ids).1.Posted? <==>
      && ResolveAll(paid, s.lines).Some? && Abs(Sum(AskedDebit(), s.lines) - Sum(AskedCredit(), s.lines)) <= 1
      && Sum(AskedDebit(), s.lines) >= 1
      && var lines := ResolveAll(paid, s.lines).value;
         Passes(Judge(paid.accounts, lines, s.movements, s.accountingOnly)) && KeysExist(paid, s.reversalOf, Kept(lines))
  {
    if ResolveAll(paid, s.lines).Some? {
      AskedIsResolved(paid, s.lines);
      AskedCreditIsResolved(paid, s.lines);
    }
    hide ResolveAll, Judge, KeysExist;
  }

  lemma GuardIff(db: Db, lines: seq<Line>, s: Spec)
    ensures Passes(Judge(db.accounts, lines, s.movements, s.accountingOnly)) <==> s.accountingOnly || CashAgrees(db, lines, s.movements)
  {
    CashAgreesIff(db, lines, s.movements);
    GuardDecidesAgreement(db.accounts, lines, s.movements);
    BypassPasses(db.accounts, lines, s.movements);
    hide Judge, CashAgrees, Agree;
  }

  lemma KeysIff(db: Db, paid: Db, original: Option<nat>, lines: seq<Line>)
    requires SameBooks(db, paid)
    ensures KeysExist(paid, original, Kept(lines)) <==>
      && (original.Some? ==> original.value < |db.entries|)
      && forall i :: 0 <= i < |lines| && (lines[i].debit != 0 || lines[i].credit != 0) ==> Storable(db, lines[i])
  {
    StorableIff(paid, lines);
    SameStorable(db, paid, lines);
    hide LineKeys, Storable, Kept;
  }

  lemma PaidFacts(db: Db, s: Spec)
    ensures var (paid, ok) := PaySpec(db, s);
      && SameBooks(db, paid) && ResolveAll(paid, s.lines) == ResolveAll(db, s.lines)
      && (ok <==> forall i :: 0 <= i < |s.movements| ==> s.movements[i].cashbox in db.boxes)
  {
    hide MapToEntityType, Resolve;
    PayAllFrame(db, s.movements, MapToEntityType(s.refType), s.refId, s.now);
    ResolveAllFrame(db, PaySpec(db, s).0, s.lines);
  }

  /** A call posts exactly when every one of its checks holds beforehand. */
  lemma PostsExactlyWhen(db: Db, s: Spec)
    ensures Record(db, s).1.Posted? <==> Postable(db, s)
  {
    var paid := PaySpec(db, s).0;
    hide PaySpec, MapToEntityType, ValidateSpec, Proper, CashAgrees, Storable, LiveDocument, Record, ResolveAll, Judge, KeysExist, Book, Sum, FindLive;
    ProperIff(s);
    PaidFacts(db, s);
    LiveIff(db, s);
    RecordPostsWhen(db, s);
    BookPostsWhen(paid, s, Range(|db.cash|, |s.movements|));
    if ResolveAll(db, s.lines).Some? {
      var lines := ResolveAll(db, s.lines).value;
      GuardIff(db, lines, s);
      KeysIff(db, paid, s.reversalOf, lines);
    }
  }

  lemma BypassPasses(accounts: seq<Account>, lines: seq<Line>, moves: seq<Movement>)
    ensures Passes(Judge(accounts, lines, moves, true))
  {
  }

  lemma LiveIff(db: Db, s: Spec)
    ensures FindLive(db.entries, s.refType, s.refId).None? <==> forall i: nat :: !LiveDocument(db.entries, i, s.refType, s.refId)
  {
    if FindLive(db.entries, s.refType, s.refId).Some? {
      assert LiveDocument(db.entries, FindLive(db.entries, s.refType, s.refId).value, s.refType, s.refId);
    }
  }

  lemma StorableIff(db: Db, lines: seq<Line>)
    ensures (forall i :: 0 <= i < |Kept(lines)| ==> LineKeys(db.accounts, db.boxes.Keys, Kept(lines)[i])) <==>
      forall i :: 0 <= i < |lines| && (lines[i].debit != 0 || lines[i].credit != 0) ==> Storable(db, lines[i])
  {
    forall l: Line ensures LineKeys(db.accounts, db.boxes.Keys, l) <==> Storable(db, l) {}
    hide LineKeys, Storable;
    KeptMembers(lines);
    forall i | 0 <= i < |lines| && (lines[i].debit != 0 || lines[i].credit != 0)
      ensures exists k :: 0 <= k < |Kept(lines)| && Kept(lines)[k] == lines[i]
    {
      assert lines[i] in Kept(lines);
    }
    forall k | 0 <= k < |Kept(lines)| ensures exists i :: 0 <= i < |lines| && lines[i] == Kept(lines)[k] && (lines[i].debit != 0 || lines[i].credit != 0) {
      assert Kept(lines)[k] in Kept(lines) && IsNonzero()(Kept(lines)[k]);
    }
  }

  lemma {:induction false} KeptMembers(lines: seq<Line>)
    ensures forall l :: l in lines && (l.debit != 0 || l.credit != 0) ==> l in Kept(lines)
  {
    if |lines| > 0 {
      KeptMembers(lines[..|lines| - 1]);
    }
  }

  lemma SameStorable(db: Db, d: Db, lines: seq<Line>)
    requires SameBooks(db, d)
    ensures forall l: Line :: Storable(d, l) <==> Storable(db, l)
  {
  }

  /** A call replays exactly when it is proper, nothing is locked and its document has a live
      entry, which it then returns; a document whose entries are all void is posted again. */
  lemma ReplaysIff(db: Db, s: Spec)
    ensures Record(db, s).1.Replayed? <==> Proper(s) && !db.locked && exists i: nat :: LiveDocument(db.entries, i, s.refType, s.refId)
    ensures Record(db, s).1.Replayed? ==>
      LiveDocument(db.entries, Record(db, s).1.entry, s.refType, s.refId) && Record(db, s).0 == db
  {
    ProperIff(s);
    LiveIff(db, s);
    hide ValidateSpec, Proper, PaySpec, Judge, ResolveAll;
  }

  // ----- the figures of the reports -----

  /** A posting counts in every figure from its own date on, and takes the original it reverses
      out of them from that entry's date on. */
  lemma PostedAsOf(db: Db, s: Spec, account: AccountId, asOf: int) returns (lines: seq<Line>)
    requires Record(db, s).1.Posted?
    ensures ResolveAll(db, s.lines) == Some(lines) && (s.reversalOf.Some? ==> s.reversalOf.value < |db.entries|)
    ensures var (d, o) := Record(db, s); o.entry < |d.entries| && d.entries[o.entry].date == s.date
    ensures BalanceSheet.NetAsOf(Record(db, s).0, account, asOf)
         == BalanceSheet.NetAsOf(db, account, asOf) + (if s.date <= asOf then Sum(NetOn(account), lines) else 0)
          - (if s.reversalOf.Some? then BalanceSheet.NetAsOfEntry(account, asOf)(db.entries[s.reversalOf.value]) else 0)
  {
    hide Record, Judge, ValidateSpec, PaySpec;
    var paid;
    paid, lines := PostedFacts(db, s);
    ResolveAllFrame(db, paid, s.lines);
    var f := BalanceSheet.NetAsOfEntry(account, asOf);
    if s.reversalOf.Some? {
      var o := s.reversalOf.value;
      SumSet(f, paid.entries, o, paid.entries[o].(isVoid := true));
    }
    SumSnoc(f, VoidOriginal(paid.entries, s.reversalOf), NewEntry(s, lines));
    SumKeep(NetOn(account), IsNonzero(), lines);
  }

  // ----- why a call is refused -----

  /** Proper, unlocked, not posted yet, and every cashbox known: the cash is moved. */
  ghost predicate PaysCash(db: Db, s: Spec) {
    && Proper(s) && !db.locked && (forall i: nat :: !LiveDocument(db.entries, i, s.refType, s.refId))
    && forall i :: 0 <= i < |s.movements| ==> s.movements[i].cashbox in db.boxes
  }

  ghost predicate NamesOne(db: Db, g: GlLine) { exists id :: Names(db, g, id) }

  ghost predicate NamesAccounts(db: Db, s: Spec) { forall i :: 0 <= i < |s.lines| ==> NamesOne(db, s.lines[i]) }

  ghost predicate Even(s: Spec) { -1 <= Sum(AskedDebit(), s.lines) - Sum(AskedCredit(), s.lines) <= 1 }

  ghost predicate Aligns(db: Db, s: Spec) {
    s.accountingOnly || (ResolveAll(db, s.lines).Some? && CashAgrees(db, ResolveAll(db, s.lines).value, s.movements))
  }

  lemma NamesIff(db: Db, s: Spec)
    ensures ResolveAll(db, s.lines).Some? <==> NamesAccounts(db, s)
  {
    hide NamesOne, Resolve;
    forall i | 0 <= i < |s.lines| ensures Resolve(db, s.lines[i]).Some? <==> NamesOne(db, s.lines[i]) {
      NamesOneIff(db, s.lines[i]);
    }
  }

  lemma NamesOneIff(db: Db, g: GlLine)
    ensures Resolve(db, g).Some? <==> NamesOne(db, g)
  {
    hide Names, Resolve;
    if Resolve(db, g).Some? {
      ResolveIff(db, g, Resolve(db, g).value);
    }
    if id :| Names(db, g, id) {
      ResolveIff(db, g, Line(id, g.debit, g.credit, if g.cashbox.Some? then g.cashbox else g.resolveFrom, g.employee));
    }
  }

  lemma RecordPays(db: Db, s: Spec)
    ensures PaysCash(db, s) ==> Record(db, s) == Book(PaySpec(db, s).0, s, Range(|db.cash|, |s.movements|)) && PaySpec(db, s).1
    ensures !PaysCash(db, s) ==> !Record(db, s).1.Posted? && !Record(db, s).1.ZeroValue?
    ensures Record(db, s).1 == Rejected(LockedDown) <==> Proper(s) && db.locked
    ensures (Record(db, s).1.Rejected? && Record(db, s).1.error.Invalid?) <==> !Proper(s)
    ensures Record(db, s).1 == Rejected(CashboxNotFound) <==>
      && Proper(s) && !db.locked && (forall i: nat :: !LiveDocument(db.entries, i, s.refType, s.refId))
      && exists i :: 0 <= i < |s.movements| && s.movements[i].cashbox !in db.boxes
    ensures !PaysCash(db, s) && Record(db, s).1.Rejected? ==>
      Record(db, s).1.error.Invalid? || Record(db, s).1.error.LockedDown? || Record(db, s).1.error.CashboxNotFound?
  {
    ProperIff(s);
    LiveIff(db, s);
    PaidFacts(db, s);
    BookOutcomes(PaySpec(db, s).0, s, Range(|db.cash|, |s.movements|));
    hide ValidateSpec, Proper, FindLive, PaySpec, Book, LiveDocument;
  }

  lemma BookOutcomes(paid: Db, s: Spec, ids: seq<nat>)
    ensures var o := Book(paid, s, ids).1;
      && !o.Replayed? && !o.Moved? && (o.Rejected? ==> !o.error.Invalid? && !o.error.LockedDown? && !o.error.CashboxNotFound?)
  {
    hide ResolveAll, Judge, KeysExist, Sum;
  }

  lemma BookRefuses(paid: Db, s: Spec, ids: seq<nat>)
    ensures var o := Book(paid, s, ids).1; var resolved := ResolveAll(paid, s.lines);
      var debits, even := Sum(AskedDebit(), s.lines), Even(s);
      && (o == Rejected(AccountUnresolved) <==> resolved.None?)
      && (o == Rejected(Unbalanced) <==> resolved.Some? && !even)
      && (o.ZeroValue? <==> resolved.Some? && even && debits < 1)
      && (o.Rejected? && o.error.Misaligned? <==>
            resolved.Some? && even && debits >= 1 && !Passes(Judge(paid.accounts, resolved.value, s.movements, s.accountingOnly)))
  {
    if ResolveAll(paid, s.lines).Some? {
      AskedIsResolved(paid, s.lines);
      AskedCreditIsResolved(paid, s.lines);
    }
    hide ResolveAll, Judge, KeysExist;
  }

  /** Each refusal has its condition, in the order the checks are made: an improper request, the
      lockdown, an unknown cashbox, an account that is not found, more than a cent between the
      sides, cash and liquid lines that disagree, and last what the database refuses. */
  lemma RefusedExactlyWhen(db: Db, s: Spec)
    ensures var o := Record(db, s).1; var refused := (e: EngineError) => o == Rejected(e);
      && (o.Rejected? && o.error.Invalid? <==> !Proper(s))
      && (refused(LockedDown) <==> Proper(s) && db.locked)
      && (refused(CashboxNotFound) <==>
            Proper(s) && !db.locked && (forall i: nat :: !LiveDocument(db.entries, i, s.refType, s.refId))
            && exists i :: 0 <= i < |s.movements| && s.movements[i].cashbox !in db.boxes)
      && (refused(AccountUnresolved) <==> PaysCash(db, s) && !NamesAccounts(db, s))
      && (refused(Unbalanced) <==> PaysCash(db, s) && NamesAccounts(db, s) && !Even(s))
      && (o.ZeroValue? <==> PaysCash(db, s) && NamesAccounts(db, s) && Even(s) && Sum(AskedDebit(), s.lines) < 1)
      && (o.Rejected? && o.error.Misaligned? <==>
            PaysCash(db, s) && NamesAccounts(db, s) && Even(s) && Sum(AskedDebit(), s.lines) >= 1 && !Aligns(db, s))
      && (refused(KeyMissing) <==>
            PaysCash(db, s) && NamesAccounts(db, s) && Even(s) && Sum(AskedDebit(), s.lines) >= 1 && Aligns(db, s) && !Postable(db, s))
  {
    hide Record, Book, PaySpec, Judge, ResolveAll, Sum, Proper, LiveDocument, CashAgrees, NamesOne, KeysExist, Postable, Even;
    var paid, ids := PaySpec(db, s).0, Range(|db.cash|, |s.movements|);
    RecordPays(db, s);
    PaidFacts(db, s);
    NamesIff(db, s);
    PostsExactlyWhen(db, s);
    PostableNeeds(db, s);
    BookOutcomes(paid, s, ids);
    BookRefuses(paid, s, ids);
    if ResolveAll(db, s.lines).Some? {
      GuardIff(db, ResolveAll(db, s.lines).value, s);
    }
  }

  lemma PostableNeeds(db: Db, s: Spec)
    ensures Postable(db, s) ==> PaysCash(db, s) && ResolveAll(db, s.lines).Some? && Even(s) && Sum(AskedDebit(), s.lines) >= 1 && Aligns(db, s)
  {
    hide ResolveAll, Sum, Proper, LiveDocument, CashAgrees, Storable;
  }

  // ----- an accepted reversal -----

  ghost predicate CanBeReversed(e: Entry, refType: string, refId: RefId) {
    !e.isVoid && e.refType == refType && e.refId == refId && e.reversalOf == None
  }

  /** What is reversed is the earliest live entry of the document that reverses nothing itself. */
  lemma {:induction false} OriginalIff(entries: seq<Entry>, refType: string, refId: RefId)
    ensures var found := FindOriginal(entries, refType, refId);
      if found.Some? then
        && found.value < |entries| && CanBeReversed(entries[found.value], refType, refId)
        && forall i :: 0 <= i < found.value ==> !CanBeReversed(entries[i], refType, refId)
      else forall i :: 0 <= i < |entries| ==> !CanBeReversed(entries[i], refType, refId)
  {
    if |entries| > 0 {
      OriginalIff(entries[..|entries| - 1], refType, refId);
    }
  }

  /** An accepted reversal writes a live entry on the original's date, keyed by the original, with
      its lines swapped and their cashboxes kept; it flags the original; and it pays the live cash
      rows found under the document's own type back, in their order. */
  lemma ReversedExactly(db: Db, refType: string, refId: RefId, o: nat, now: int)
    requires Inv(db) && o < |db.entries| && Record(db, ReversalSpec(db, refType, refId, o, now)).1.Posted?
    ensures var d, n, original := Record(db, ReversalSpec(db, refType, refId, o, now)).0, |db.entries|, db.entries[o];
      var rows := Keep((t: CashTxn) => !t.isVoid && t.entity == refType && t.refId == refId, db.cash);
      && |d.entries| == n + 1 && OnlyVoids(db.entries, d.entries, Some(o))
      && d.entries[n].refType == "reversal" && d.entries[n].refId == Journal(o) && d.entries[n].date == original.date
      && d.entries[n].reversalOf == Some(o) && !d.entries[n].isVoid
      && |d.entries[n].lines| == |original.lines|
      && (forall i :: 0 <= i < |original.lines| ==>
            d.entries[n].lines[i] == original.lines[i].(debit := original.lines[i].credit, credit := original.lines[i].debit, employee := None))
      && PaysBack(db, d, rows, o, now)
  {
    var s := ReversalSpec(db, refType, refId, o, now);
    hide Record, Inv, MapToEntityType, MovesBalances, AddsRows, PaysBack, Keep, OnlyVoids;
    ReversalsAreOther();
    KeepSame(TaggedWith(refType, refId), (t: CashTxn) => !t.isVoid && t.entity == refType && t.refId == refId, db.cash);
    var lines := PostedExactly(db, s);
    MirrorLines(db, refType, refId, o, now, lines);
    KeepNonzero(lines);
    RowsPaidBack(db, Record(db, s).0, RowsOf(db, refType, refId), o, now);
  }

  /** Each row the other way, in its category with a prefix, cut to forty characters. */
  ghost predicate PaysBack(db: Db, d: Db, rows: seq<CashTxn>, o: nat, now: int) {
    && |d.cash| == |db.cash| + |rows| && d.cash[..|db.cash|] == db.cash
    && forall k :: 0 <= k < |rows| ==>
         && var t := d.cash[|db.cash| + k];
         && t.cashbox == rows[k].cashbox && t.amount == rows[k].amount && t.direction != rows[k].direction
         && t.category == "reversal_" + (if |rows[k].category| <= 31 then rows[k].category else rows[k].category[..31])
         && t.entity == "other" && t.refId == Journal(o) && t.createdAt == now && !t.isVoid
  }

  lemma RowsPaidBack(db: Db, d: Db, rows: seq<CashTxn>, o: nat, now: int)
    requires AddsRows(db, d, Image(FlipRow, rows), "other", Journal(o), now)
    ensures PaysBack(db, d, rows, o, now)
  {
    forall k | 0 <= k < |rows| ensures d.cash[|db.cash| + k].category == "reversal_" + (if |rows[k].category| <= 31 then rows[k].category else rows[k].category[..31]) {
      assert Image(FlipRow, rows)[k] == FlipRow(rows[k]);
      Prefixed(rows[k].category);
    }
  }

  lemma Prefixed(text: string)
    ensures Cut("reversal_" + text) == "reversal_" + (if |text| <= 31 then text else text[..31])
  {
    assert |"reversal_"| == 9;
    if |text| > 31 {
      assert ("reversal_" + text)[..40] == "reversal_" + text[..31];
    }
  }

  lemma MirrorLines(db: Db, refType: string, refId: RefId, o: nat, now: int, lines: seq<Line>)
    requires Inv(db) && o < |db.entries| && |lines| == |db.entries[o].lines|
    requires forall i :: 0 <= i < |lines| ==> Resolve(db, ReversalSpec(db, refType, refId, o, now).lines[i]) == Some(lines[i])
    ensures forall i :: 0 <= i < |lines| ==> var l := db.entries[o].lines[i];
      lines[i] == l.(debit := l.credit, credit := l.debit, employee := None) && (lines[i].debit != 0 || lines[i].credit != 0)
  {
    assert EntrySane(db.accounts, db.boxes.Keys, db.entries[o]);
    forall i | 0 <= i < |lines|
      ensures var l := db.entries[o].lines[i]; lines[i] == l.(debit := l.credit, credit := l.debit, employee := None) && (lines[i].debit != 0 || lines[i].credit != 0)
    {
      assert LineSane(db.accounts, db.boxes.Keys, db.entries[o].lines[i]);
    }
  }

  lemma {:induction false} KeepNonzero(lines: seq<Line>)
    requires forall i :: 0 <= i < |lines| ==> lines[i].debit != 0 || lines[i].credit != 0
    ensures Keep((l: Line) => l.debit != 0 || l.credit != 0, lines) == lines
  {
    if |lines| > 0 {
      var n := |lines| - 1;
      assert lines == lines[..n] + [lines[n]];
      KeepNonzero(lines[..n]);
    }
  }
}
