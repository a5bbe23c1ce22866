/**
 * The ATM controller: the session state machine that authenticates a card,
 * selects an account and runs balance inquiries, withdrawals and deposits
 * against the bank, coordinating the cash hardware and logging every
 * transaction attempt.
 */
module Controller {
  import opened Wrappers
  import opened Ledger
  import opened Bank
  import opened Hardware

  datatype AtmState = Idle | CardInserted | PinVerified | AccountSelected | TransactionCompleted

  datatype TransactionType = BalanceInquiry | Withdrawal | Deposit

  datatype TransactionRecord = TransactionRecord(kind: TransactionType, account: string, amount: int, success: bool)

  /** Python truthiness of an optional string: `None` and `""` both count as absent. */
  predicate Truthy(o: Option<string>) {
    o.Some? && o.value != ""
  }

  /**
   * Which session fields are present in which state. A verified PIN belongs to
   * a card the bank knows, a selected account is one of that card's accounts,
   * and `TransactionCompleted` is never entered.
   */
  predicate SessionInvariant(state: AtmState, card: Option<string>, account: Option<string>, s: Store) {
    match state
    case Idle => card.None? && account.None?
    case CardInserted => card.Some? && account.None?
    case PinVerified => Truthy(card) && account.None? && CardIndex(s, card.value).Some?
    case AccountSelected =>
      Truthy(card) && account.Some? && HasNumber(AccountsOf(s, card.value), account.value)
    case TransactionCompleted => false
  }

  /** Changing balances never breaks the session invariant. */
  lemma SessionInvariantShape(state: AtmState, card: Option<string>, account: Option<string>, s: Store, t: Store)
    requires SameShape(s, t)
    requires SessionInvariant(state, card, account, s)
    ensures SessionInvariant(state, card, account, t)
  {
    if card.Some? && account.Some? {
      AccountsOfShape(s, t, card.value, account.value);
    } else if card.Some? {
      AccountsOfShape(s, t, card.value, "");
    }
  }

  class AtmController {
    const bank: MockBankSystem
    var state: AtmState
    var currentCard: Option<string>
    var selectedAccount: Option<string>
    var transactionHistory: seq<TransactionRecord>
    /** The calls made into the hardware interface, oldest first. */
    ghost var hardwareCalls: seq<HardwareCall>

    ghost predicate Valid()
      reads this, bank
    {
      bank.Valid() && SessionInvariant(state, currentCard, selectedAccount, bank.accounts)
    }

    constructor (bank: MockBankSystem)
      requires bank.Valid()
      ensures Valid()
      ensures this.bank == bank && bank.accounts == old(bank.accounts)
      ensures state == Idle && currentCard == None && selectedAccount == None
      ensures transactionHistory == [] && hardwareCalls == []
    {
      this.bank := bank;
      state := Idle;
      currentCard := None;
      selectedAccount := None;
      transactionHistory := [];
      hardwareCalls := [];
    }

    /** Accepts a card only when idle; otherwise nothing changes. */
    method InsertCard(cardNumber: string) returns (ok: bool)
      requires Valid()
      modifies this
      ensures Valid()
      ensures ok <==> old(state) == Idle
      ensures ok ==> state == CardInserted && currentCard == Some(cardNumber)
      ensures !ok ==> state == old(state) && currentCard == old(currentCard)
      ensures selectedAccount == old(selectedAccount)
      ensures transactionHistory == old(transactionHistory) && hardwareCalls == old(hardwareCalls)
    {
      if state != Idle {
        return false;
      }
      currentCard := Some(cardNumber);
      state := CardInserted;
      return true;
    }

    /** Moves to `PinVerified` exactly when a non-empty card is inserted and the bank accepts the PIN. */
    method EnterPin(pin: string) returns (ok: bool)
      requires Valid()
      modifies this
      ensures Valid()
      ensures ok <==> old(state) == CardInserted && Truthy(old(currentCard)) && bank.VerifyPin(old(currentCard).value, pin)
      ensures ok ==> state == PinVerified
      ensures !ok ==> state == old(state)
      ensures currentCard == old(currentCard) && selectedAccount == old(selectedAccount)
      ensures transactionHistory == old(transactionHistory) && hardwareCalls == old(hardwareCalls)
    {
      if state != CardInserted || !Truthy(currentCard) {
        return false;
      }
      if bank.VerifyPin(currentCard.value, pin) {
        state := PinVerified;
        return true;
      }
      return false;
    }

    /** The accounts of the current card once the PIN is verified, and the empty list before. */
    function GetAvailableAccounts(): (r: seq<Account>)
      reads this, bank
      requires Valid()
      ensures state != PinVerified || !Truthy(currentCard) ==> r == []
      ensures state == PinVerified && Truthy(currentCard) ==>
                forall i :: 0 <= i < |bank.accounts| && bank.accounts[i].cardNumber == currentCard.value ==>
                  r == bank.accounts[i].accounts
      ensures state == PinVerified ==> r == AccountsOf(bank.accounts, currentCard.value)
    {
      if state != PinVerified || !Truthy(currentCard) then []
      else bank.GetAccounts(currentCard.value)
    }

    /** Selects an account of the current card after PIN verification; otherwise nothing changes. */
    method SelectAccount(accountNumber: string) returns (ok: bool)
      requires Valid()
      modifies this
      ensures Valid()
      ensures ok <==> old(state) == PinVerified && HasNumber(AccountsOf(bank.accounts, old(currentCard).value), accountNumber)
      ensures ok ==> state == AccountSelected && selectedAccount == Some(accountNumber)
      ensures !ok ==> state == old(state) && selectedAccount == old(selectedAccount)
      ensures currentCard == old(currentCard)
      ensures transactionHistory == old(transactionHistory) && hardwareCalls == old(hardwareCalls)
    {
      if state != PinVerified {
        return false;
      }
      var accounts := GetAvailableAccounts();
      var i := 0;
      while i < |accounts|
        invariant 0 <= i <= |accounts|
        invariant forall k :: 0 <= k < i ==> accounts[k].number != accountNumber
      {
        if accounts[i].number == accountNumber {
          selectedAccount := Some(accountNumber);
          state := AccountSelected;
          return true;
        }
        i := i + 1;
      }
      return false;
    }

    /** Reads the selected account's balance and logs a successful inquiry; outside a selected account, nothing. */
    method CheckBalance() returns (balance: Option<int>)
      requires Valid()
      modifies this
      ensures Valid()
      ensures state == old(state) && currentCard == old(currentCard) && selectedAccount == old(selectedAccount)
      ensures hardwareCalls == old(hardwareCalls)
      ensures old(state) == AccountSelected && Truthy(old(selectedAccount)) ==>
                balance == Some(BalanceOf(bank.accounts, selectedAccount.value)) &&
                transactionHistory == old(transactionHistory) + [TransactionRecord(BalanceInquiry, selectedAccount.value, 0, true)]
      ensures !(old(state) == AccountSelected && Truthy(old(selectedAccount))) ==>
                balance == None && transactionHistory == old(transactionHistory)
    {
      if state != AccountSelected || !Truthy(selectedAccount) {
        return None;
      }
      var b := bank.GetBalance(selectedAccount.value);
      transactionHistory := transactionHistory + [TransactionRecord(BalanceInquiry, selectedAccount.value, 0, true)];
      return Some(b);
    }

    /**
     * Debits the selected account, then dispenses. `dispenseOk` is the
     * dispenser's answer. When dispensing fails the amount is credited back,
     * which restores the balance. Every attempt past the guard logs one record.
     */
    method Withdraw(amount: int, dispenseOk: bool) returns (ok: bool, newBalance: Option<int>)
      requires Valid()
      modifies this, bank
      ensures Valid()
      ensures state == old(state) && currentCard == old(currentCard) && selectedAccount == old(selectedAccount)
      ensures SameShape(old(bank.accounts), bank.accounts)
      ensures newBalance.Some? <==> ok
      ensures !(old(state) == AccountSelected && Truthy(old(selectedAccount)) && amount > 0) ==>
                !ok && bank.accounts == old(bank.accounts) &&
                transactionHistory == old(transactionHistory) && hardwareCalls == old(hardwareCalls)
      ensures old(state) == AccountSelected && Truthy(old(selectedAccount)) && amount > 0 ==>
                var account := selectedAccount.value;
                var before := old(BalanceOf(bank.accounts, account));
                transactionHistory == old(transactionHistory) + [TransactionRecord(Withdrawal, account, amount, ok)] &&
                (ok <==> before >= amount && dispenseOk) &&
                (before < amount ==> bank.accounts == old(bank.accounts) && hardwareCalls == old(hardwareCalls)) &&
                (before >= amount ==> hardwareCalls == old(hardwareCalls) + [DispenseCall(amount)]) &&
                (!ok ==> bank.accounts == old(bank.accounts)) &&
                (ok ==> bank.accounts == Debit(old(bank.accounts), account, amount).store &&
                        BalanceOf(bank.accounts, account) == before - amount &&
                        newBalance == Some(BalanceOf(bank.accounts, account)))
    {
      if state != AccountSelected || !Truthy(selectedAccount) {
        return false, None;
      }
      if amount <= 0 {
        return false, None;
      }
      var account := selectedAccount.value;
      ghost var before := bank.accounts;
      AccountsOfHasAccount(before, currentCard.value, account);
      ok := bank.Withdraw(account, amount);
      SessionInvariantShape(state, currentCard, selectedAccount, before, bank.accounts);
      if ok {
        hardwareCalls := hardwareCalls + [DispenseCall(amount)];
        if !dispenseOk {
          // Compensating action: the debit is reversed. The source ignores the
          // answer of this deposit; it always succeeds.
          var credited := bank.Deposit(account, amount);
          DebitThenCreditRestores(before, account, amount);
          assert credited && bank.accounts == before;
          ok := false;
        }
      }
      transactionHistory := transactionHistory + [TransactionRecord(Withdrawal, account, amount, ok)];
      if ok {
        var b := bank.GetBalance(account);
        newBalance := Some(b);
      } else {
        newBalance := None;
      }
    }

    /**
     * Takes in cash and credits what the acceptor actually took, `accepted`,
     * which may differ from the requested `amount`. Every attempt past the
     * guard logs one record carrying the accepted amount.
     */
    method Deposit(amount: int, accepted: int) returns (ok: bool, newBalance: Option<int>)
      requires Valid()
      modifies this, bank
      ensures Valid()
      ensures state == old(state) && currentCard == old(currentCard) && selectedAccount == old(selectedAccount)
      ensures SameShape(old(bank.accounts), bank.accounts)
      ensures newBalance.Some? <==> ok
      ensures !(old(state) == AccountSelected && Truthy(old(selectedAccount)) && amount > 0) ==>
                !ok && bank.accounts == old(bank.accounts) &&
                transactionHistory == old(transactionHistory) && hardwareCalls == old(hardwareCalls)
      ensures old(state) == AccountSelected && Truthy(old(selectedAccount)) && amount > 0 ==>
                var account := selectedAccount.value;
                var before := old(BalanceOf(bank.accounts, account));
                hardwareCalls == old(hardwareCalls) + [AcceptCall] &&
                transactionHistory == old(transactionHistory) + [TransactionRecord(TransactionType.Deposit, account, accepted, ok)] &&
                (ok <==> accepted > 0) &&
                bank.accounts == Credit(old(bank.accounts), account, accepted).store &&
                (!ok ==> bank.accounts == old(bank.accounts)) &&
                (ok ==> BalanceOf(bank.accounts, account) == before + accepted &&
                        newBalance == Some(BalanceOf(bank.accounts, account)))
    {
      if state != AccountSelected || !Truthy(selectedAccount) {
        return false, None;
      }
      if amount <= 0 {
        return false, None;
      }
      var account := selectedAccount.value;
      ghost var before := bank.accounts;
      AccountsOfHasAccount(before, currentCard.value, account);
      hardwareCalls := hardwareCalls + [AcceptCall];
      var credit := accepted;
      ok := bank.Deposit(account, credit);
      SessionInvariantShape(state, currentCard, selectedAccount, before, bank.accounts);
      transactionHistory := transactionHistory + [TransactionRecord(TransactionType.Deposit, account, credit, ok)];
      if ok {
        var b := bank.GetBalance(account);
        newBalance := Some(b);
      } else {
        newBalance := None;
      }
    }

    /** Ejects the card from any state; when the hardware reports success the session returns to idle. */
    method EjectCard(ejectOk: bool) returns (ok: bool)
      requires Valid()
      modifies this
      ensures Valid()
      ensures ok == ejectOk
      ensures hardwareCalls == old(hardwareCalls) + [EjectCall]
      ensures ok ==> state == Idle && currentCard == None && selectedAccount == None
      ensures !ok ==> state == old(state) && currentCard == old(currentCard) && selectedAccount == old(selectedAccount)
      ensures transactionHistory == old(transactionHistory)
    {
      hardwareCalls := hardwareCalls + [EjectCall];
      ok := ejectOk;
      if ok {
        ResetState();
      }
    }

    /** Cancelling is ejecting. */
    method CancelTransaction(ejectOk: bool) returns (ok: bool)
      requires Valid()
      modifies this
      ensures Valid()
      ensures ok == ejectOk
      ensures hardwareCalls == old(hardwareCalls) + [EjectCall]
      ensures ok ==> state == Idle && currentCard == None && selectedAccount == None
      ensures !ok ==> state == old(state) && currentCard == old(currentCard) && selectedAccount == old(selectedAccount)
      ensures transactionHistory == old(transactionHistory)
    {
      ok := EjectCard(ejectOk);
    }

    /** Back to idle with no card and no account; the transaction history is kept. */
    method ResetState()
      requires bank.Valid()
      modifies this
      ensures Valid()
      ensures state == Idle && currentCard == None && selectedAccount == None
      ensures transactionHistory == old(transactionHistory) && hardwareCalls == old(hardwareCalls)
    {
      state := Idle;
      currentCard := None;
      selectedAccount := None;
    }
  }
}
