/**
 * The account store of the mock bank, as a value.
 *
 * The bank keeps a dictionary from card number to the card's PIN and its
 * list of accounts; Python dictionaries iterate in insertion order, so the
 * store is a sequence of card entries. Every balance lookup and update walks
 * the entries in that order and stops at the first account with the wanted
 * number. This module defines that search (`Locate`), the balance read
 * (`BalanceOf`) and the two updates (`Debit`, `Credit`) that the bank's
 * methods are proved against, and the facts the controller relies on: an
 * update changes one balance and nothing else, and a credit undoes a debit.
 */
module Ledger {
  import opened Wrappers

  datatype Account = Account(number: string, balance: int)
  datatype CardEntry = CardEntry(cardNumber: string, pin: string, accounts: seq<Account>)
  type Store = seq<CardEntry>

  /** The place of one account: the card entry and the slot in its account list. */
  datatype Pos = Pos(entry: nat, slot: nat)

  /** The answer of a balance update: whether it succeeded and the store afterwards. */
  datatype Update = Update(ok: bool, store: Store)

  predicate ValidPos(s: Store, p: Pos) {
    p.entry < |s| && p.slot < |s[p.entry].accounts|
  }

  function At(s: Store, p: Pos): Account
    requires ValidPos(s, p)
  {
    s[p.entry].accounts[p.slot]
  }

  /** `p` is visited before `q` by the nested loops over entries and slots. */
  predicate Before(p: Pos, q: Pos) {
    p.entry < q.entry || (p.entry == q.entry && p.slot < q.slot)
  }

  ghost predicate HasAccount(s: Store, n: string) {
    exists p :: ValidPos(s, p) && At(s, p).number == n
  }

  predicate HasNumber(accounts: seq<Account>, n: string) {
    exists k :: 0 <= k < |accounts| && accounts[k].number == n
  }

  predicate UniqueCards(s: Store) {
    forall i, j :: 0 <= i < |s| && 0 <= j < |s| && s[i].cardNumber == s[j].cardNumber ==> i == j
  }

  ghost predicate UniqueAccounts(s: Store) {
    forall p, q :: ValidPos(s, p) && ValidPos(s, q) && At(s, p).number == At(s, q).number ==> p == q
  }

  ghost predicate NonNegative(s: Store) {
    forall p :: ValidPos(s, p) ==> At(s, p).balance >= 0
  }

  /** Card numbers are dictionary keys, account numbers do not repeat, and no balance is negative. */
  ghost predicate WellFormed(s: Store) {
    UniqueCards(s) && UniqueAccounts(s) && NonNegative(s)
  }

  /** Two stores that differ at most in their balances. */
  ghost predicate SameShape(s: Store, t: Store) {
    |s| == |t| &&
    (forall i :: 0 <= i < |s| ==>
       s[i].cardNumber == t[i].cardNumber && s[i].pin == t[i].pin && |s[i].accounts| == |t[i].accounts|) &&
    (forall p :: ValidPos(s, p) ==> At(s, p).number == At(t, p).number)
  }

  // ---------------------------------------------------------------------------
  // Card lookup (the dictionary's `card_number in self.accounts`)
  // ---------------------------------------------------------------------------

  function CardIndexFrom(s: Store, card: string, i: nat): (r: Option<nat>)
    requires i <= |s|
    decreases |s| - i
    ensures r.Some? ==> i <= r.value < |s| && s[r.value].cardNumber == card
    ensures r.Some? ==> forall k :: i <= k < r.value ==> s[k].cardNumber != card
    ensures r.None? ==> forall k :: i <= k < |s| ==> s[k].cardNumber != card
  {
    if i == |s| then None
    else if s[i].cardNumber == card then Some(i)
    else CardIndexFrom(s, card, i + 1)
  }

  /** The entry of `card`, if the card is known to the bank. */
  function CardIndex(s: Store, card: string): (r: Option<nat>)
    ensures r.Some? ==> r.value < |s| && s[r.value].cardNumber == card
    ensures r.None? <==> forall k :: 0 <= k < |s| ==> s[k].cardNumber != card
    ensures UniqueCards(s) ==> forall k :: 0 <= k < |s| && s[k].cardNumber == card ==> r == Some(k)
  {
    CardIndexFrom(s, card, 0)
  }

  /** The account list of `card`; the empty list for an unknown card. */
  function AccountsOf(s: Store, card: string): seq<Account> {
    match CardIndex(s, card)
    case None => []
    case Some(i) => s[i].accounts
  }

  // ---------------------------------------------------------------------------
  // Account search (the nested loops over `self.accounts.values()`)
  // ---------------------------------------------------------------------------

  function SlotFrom(accounts: seq<Account>, n: string, j: nat): (r: Option<nat>)
    requires j <= |accounts|
    decreases |accounts| - j
    ensures r.Some? ==> j <= r.value < |accounts| && accounts[r.value].number == n
    ensures r.Some? ==> forall k :: j <= k < r.value ==> accounts[k].number != n
    ensures r.None? ==> forall k :: j <= k < |accounts| ==> accounts[k].number != n
  {
    if j == |accounts| then None
    else if accounts[j].number == n then Some(j)
    else SlotFrom(accounts, n, j + 1)
  }

  function LocateFrom(s: Store, n: string, i: nat): (r: Option<Pos>)
    requires i <= |s|
    decreases |s| - i
    ensures r.Some? ==> i <= r.value.entry && ValidPos(s, r.value) && At(s, r.value).number == n
    ensures r.Some? ==> forall q :: ValidPos(s, q) && i <= q.entry && Before(q, r.value) ==> At(s, q).number != n
    ensures r.None? ==> forall q :: ValidPos(s, q) && i <= q.entry ==> At(s, q).number != n
  {
    if i == |s| then None
    else match SlotFrom(s[i].accounts, n, 0)
      case Some(j) => Some(Pos(i, j))
      case None => LocateFrom(s, n, i + 1)
  }

  /** The first account numbered `n` in iteration order, if there is one. */
  function Locate(s: Store, n: string): (r: Option<Pos>)
    ensures r.Some? ==> ValidPos(s, r.value) && At(s, r.value).number == n
    ensures r.Some? ==> forall q :: ValidPos(s, q) && Before(q, r.value) ==> At(s, q).number != n
    ensures r.None? <==> !HasAccount(s, n)
  {
    LocateFrom(s, n, 0)
  }

  /** What `get_balance` answers: the balance of the first account numbered `n`, or 0. */
  function BalanceOf(s: Store, n: string): int {
    match Locate(s, n)
    case None => 0
    case Some(p) => At(s, p).balance
  }

  /** The first matching account is the one the nested loops stop at. */
  lemma LocateFirst(s: Store, n: string, p: Pos)
    requires ValidPos(s, p) && At(s, p).number == n
    requires forall q :: ValidPos(s, q) && Before(q, p) ==> At(s, q).number != n
    ensures Locate(s, n) == Some(p)
  {
  }

  /** With unique account numbers any matching account is the located one. */
  lemma LocateUnique(s: Store, n: string, p: Pos)
    requires UniqueAccounts(s)
    requires ValidPos(s, p) && At(s, p).number == n
    ensures Locate(s, n) == Some(p)
  {
  }

  /** The search depends on account numbers only, never on balances. */
  lemma LocateShape(s: Store, t: Store, n: string)
    requires SameShape(s, t)
    ensures Locate(s, n) == Locate(t, n)
  {
  }

  /** A store whose balances changed knows the same cards, PINs and account lists. */
  lemma AccountsOfShape(s: Store, t: Store, card: string, n: string)
    requires SameShape(s, t)
    ensures CardIndex(s, card) == CardIndex(t, card)
    ensures |AccountsOf(s, card)| == |AccountsOf(t, card)|
    ensures forall k :: 0 <= k < |AccountsOf(s, card)| ==> AccountsOf(s, card)[k].number == AccountsOf(t, card)[k].number
    ensures HasNumber(AccountsOf(s, card), n) <==> HasNumber(AccountsOf(t, card), n)
  {
    if CardIndex(s, card).Some? {
      var i := CardIndex(s, card).value;
      forall k | 0 <= k < |s[i].accounts|
        ensures s[i].accounts[k].number == t[i].accounts[k].number
      {
        assert ValidPos(s, Pos(i, k));
      }
      if HasNumber(AccountsOf(s, card), n) {
        var k :| 0 <= k < |s[i].accounts| && s[i].accounts[k].number == n;
        assert ValidPos(s, Pos(i, k));
      }
      if HasNumber(AccountsOf(t, card), n) {
        var k :| 0 <= k < |t[i].accounts| && t[i].accounts[k].number == n;
        assert ValidPos(s, Pos(i, k));
      }
    }
  }

  /** An account listed for a card is an account of the store. */
  lemma AccountsOfHasAccount(s: Store, card: string, n: string)
    requires HasNumber(AccountsOf(s, card), n)
    ensures HasAccount(s, n)
  {
    var i := CardIndex(s, card).value;
    var k :| 0 <= k < |s[i].accounts| && s[i].accounts[k].number == n;
    assert ValidPos(s, Pos(i, k)) && At(s, Pos(i, k)).number == n;
  }

  // ---------------------------------------------------------------------------
  // Balance updates (`account["balance"] -= amount`, `+= amount`)
  // ---------------------------------------------------------------------------

  /** The store with the balance at `p` replaced by `v`. */
  function SetBalance(s: Store, p: Pos, v: int): (r: Store)
    requires ValidPos(s, p)
    ensures SameShape(s, r)
    ensures ValidPos(r, p) && At(r, p).balance == v
    ensures forall q :: ValidPos(s, q) && q != p ==> At(r, q) == At(s, q)
  {
    var e := s[p.entry];
    s[p.entry := e.(accounts := e.accounts[p.slot := e.accounts[p.slot].(balance := v)])]
  }

  /** Setting one balance changes what `get_balance` answers for that account only. */
  lemma SetBalanceEffect(s: Store, p: Pos, v: int)
    requires ValidPos(s, p)
    requires Locate(s, At(s, p).number) == Some(p)
    ensures BalanceOf(SetBalance(s, p, v), At(s, p).number) == v
    ensures forall m :: m != At(s, p).number ==> BalanceOf(SetBalance(s, p, v), m) == BalanceOf(s, m)
    ensures WellFormed(s) && v >= 0 ==> WellFormed(SetBalance(s, p, v))
  {
  }

  /** The bank's `withdraw`: debit `amount` from the first account numbered `n`. */
  function Debit(s: Store, n: string, amount: int): (r: Update)
    ensures r.ok <==> amount > 0 && HasAccount(s, n) && BalanceOf(s, n) >= amount
    ensures !r.ok ==> r.store == s
    ensures r.ok ==> BalanceOf(r.store, n) == BalanceOf(s, n) - amount
    ensures forall m :: m != n ==> BalanceOf(r.store, m) == BalanceOf(s, m)
    ensures SameShape(s, r.store)
    ensures WellFormed(s) ==> WellFormed(r.store)
  {
    if amount <= 0 then Update(false, s)
    else match Locate(s, n)
      case None => Update(false, s)
      case Some(p) =>
        var b := At(s, p).balance;
        if b >= amount then
          SetBalanceEffect(s, p, b - amount);
          Update(true, SetBalance(s, p, b - amount))
        else Update(false, s)
  }

  /** The bank's `deposit`: credit `amount` to the first account numbered `n`. */
  function Credit(s: Store, n: string, amount: int): (r: Update)
    ensures r.ok <==> amount > 0 && HasAccount(s, n)
    ensures !r.ok ==> r.store == s
    ensures r.ok ==> BalanceOf(r.store, n) == BalanceOf(s, n) + amount
    ensures forall m :: m != n ==> BalanceOf(r.store, m) == BalanceOf(s, m)
    ensures SameShape(s, r.store)
    ensures WellFormed(s) ==> WellFormed(r.store)
  {
    if amount <= 0 then Update(false, s)
    else match Locate(s, n)
      case None => Update(false, s)
      case Some(p) =>
        var b := At(s, p).balance;
        SetBalanceEffect(s, p, b + amount);
        assert BalanceOf(s, n) == b && BalanceOf(SetBalance(s, p, b + amount), n) == b + amount;
        Update(true, SetBalance(s, p, b + amount))
  }

  /** Writing back the old balance undoes a balance update. */
  lemma SetBalanceRestore(s: Store, p: Pos, v: int)
    requires ValidPos(s, p)
    ensures SetBalance(SetBalance(s, p, v), p, At(s, p).balance) == s
  {
    var e := s[p.entry];
    var t := SetBalance(s, p, v);
    var a := t[p.entry].accounts;
    assert a[p.slot := a[p.slot].(balance := At(s, p).balance)] == e.accounts;
    assert t[p.entry].(accounts := e.accounts) == e;
  }

  /** The compensating deposit after a failed dispense succeeds and restores the store exactly. */
  lemma DebitThenCreditRestores(s: Store, n: string, amount: int)
    requires Debit(s, n, amount).ok
    ensures Credit(Debit(s, n, amount).store, n, amount) == Update(true, s)
  {
    var p := Locate(s, n).value;
    var b := At(s, p).balance;
    var t := SetBalance(s, p, b - amount);
    assert Debit(s, n, amount).store == t;
    LocateShape(s, t, n);
    assert Locate(t, n) == Some(p) && At(t, p).balance + amount == b;
    assert Credit(t, n, amount) == Update(true, SetBalance(t, p, b));
    SetBalanceRestore(s, p, b - amount);
  }
}
