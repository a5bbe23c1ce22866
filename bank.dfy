/**
 * The mock bank: a dictionary of cards, each with a PIN and a list of
 * accounts, whose balances `withdraw` and `deposit` update in place.
 */
module Bank {
  import opened Wrappers
  import opened Ledger

  /** The data the mock bank starts with. */
  function MockAccounts(): Store {
    [ CardEntry("1234567890", "1234", [Account("1001", 1000), Account("1002", 5000)]),
      CardEntry("0987654321", "4321", [Account("2001", 2500)]) ]
  }

  lemma MockAccountsWellFormed()
    ensures WellFormed(MockAccounts())
  {
  }

  class MockBankSystem {
    var accounts: Store

    ghost predicate Valid()
      reads this
    {
      WellFormed(accounts)
    }

    constructor ()
      ensures Valid() && accounts == MockAccounts()
    {
      accounts := MockAccounts();
      MockAccountsWellFormed();
    }

    /** True exactly when the card is known and its PIN is `pin`. */
    function VerifyPin(cardNumber: string, pin: string): (r: bool)
      reads this
      requires Valid()
      ensures r <==> exists i :: 0 <= i < |accounts| && accounts[i].cardNumber == cardNumber && accounts[i].pin == pin
    {
      match CardIndex(accounts, cardNumber)
      case None => false
      case Some(i) => accounts[i].pin == pin
    }

    /** The account list of the card, or the empty list for an unknown card. */
    function GetAccounts(cardNumber: string): (r: seq<Account>)
      reads this
      requires Valid()
      ensures (forall i :: 0 <= i < |accounts| ==> accounts[i].cardNumber != cardNumber) ==> r == []
      ensures forall i :: 0 <= i < |accounts| && accounts[i].cardNumber == cardNumber ==> r == accounts[i].accounts
    {
      AccountsOf(accounts, cardNumber)
    }

    /** The balance of the first account with this number in iteration order, or 0 when there is none. */
    method GetBalance(accountNumber: string) returns (balance: int)
      ensures balance == BalanceOf(accounts, accountNumber)
      ensures !HasAccount(accounts, accountNumber) ==> balance == 0
      ensures UniqueAccounts(accounts) ==>
                forall p :: ValidPos(accounts, p) && At(accounts, p).number == accountNumber ==> balance == At(accounts, p).balance
    {
      var i := 0;
      while i < |accounts|
        invariant 0 <= i <= |accounts|
        invariant forall q :: ValidPos(accounts, q) && q.entry < i ==> At(accounts, q).number != accountNumber
      {
        var list := accounts[i].accounts;
        var j := 0;
        while j < |list|
          invariant 0 <= j <= |list|
          invariant forall k :: 0 <= k < j ==> list[k].number != accountNumber
        {
          if list[j].number == accountNumber {
            LocateFirst(accounts, accountNumber, Pos(i, j));
            return list[j].balance;
          }
          j := j + 1;
        }
        i := i + 1;
      }
      return 0;
    }

    /**
     * Debits `amount` from the account; fails for a non-positive amount, an
     * unknown account or insufficient funds.
     */
    method Withdraw(accountNumber: string, amount: int) returns (ok: bool)
      requires Valid()
      modifies this
      ensures Valid()
      ensures Update(ok, accounts) == Debit(old(accounts), accountNumber, amount)
    {
      if amount <= 0 {
        return false;
      }
      var i := 0;
      while i < |accounts|
        invariant 0 <= i <= |accounts|
        invariant accounts == old(accounts)
        invariant forall q :: ValidPos(accounts, q) && q.entry < i && At(accounts, q).number == accountNumber ==>
                    At(accounts, q).balance < amount
      {
        var list := accounts[i].accounts;
        var j := 0;
        while j < |list|
          invariant 0 <= j <= |list|
          invariant forall k :: 0 <= k < j && list[k].number == accountNumber ==> list[k].balance < amount
        {
          if list[j].number == accountNumber {
            if list[j].balance >= amount {
              LocateUnique(accounts, accountNumber, Pos(i, j));
              accounts := SetBalance(accounts, Pos(i, j), list[j].balance - amount);
              return true;
            }
          }
          j := j + 1;
        }
        i := i + 1;
      }
      return false;
    }

    /** Credits `amount` to the account; fails for a non-positive amount or an unknown account. */
    method Deposit(accountNumber: string, amount: int) returns (ok: bool)
      requires Valid()
      modifies this
      ensures Valid()
      ensures Update(ok, accounts) == Credit(old(accounts), accountNumber, amount)
    {
      if amount <= 0 {
        return false;
      }
      var i := 0;
      while i < |accounts|
        invariant 0 <= i <= |accounts|
        invariant accounts == old(accounts)
        invariant forall q :: ValidPos(accounts, q) && q.entry < i ==> At(accounts, q).number != accountNumber
      {
        var list := accounts[i].accounts;
        var j := 0;
        while j < |list|
          invariant 0 <= j <= |list|
          invariant forall k :: 0 <= k < j ==> list[k].number != accountNumber
        {
          if list[j].number == accountNumber {
            LocateFirst(accounts, accountNumber, Pos(i, j));
            accounts := SetBalance(accounts, Pos(i, j), list[j].balance + amount);
            return true;
          }
          j := j + 1;
        }
        i := i + 1;
      }
      return false;
    }
  }
}
