/**
 * The repository's test function and demo flow, replayed against the mock bank
 * and the mock hardware's answers. Each method builds fresh objects, so its
 * postcondition states what the run observes, for every execution.
 */
module Scenarios {
  import opened Wrappers
  import opened Ledger
  import opened Bank
  import opened Hardware
  import opened Controller

  /** Card "1234567890" with PIN "1234" holds accounts "1001" and "1002", whatever the balances. */
  lemma MockShape(s: Store)
    requires SameShape(MockAccounts(), s)
    ensures CardIndex(s, "1234567890") == Some(0)
    ensures |AccountsOf(s, "1234567890")| == 2
    ensures HasNumber(AccountsOf(s, "1234567890"), "1001")
  {
    AccountsOfShape(MockAccounts(), s, "1234567890", "1001");
    assert AccountsOf(MockAccounts(), "1234567890")[0].number == "1001";
  }

  lemma MockBalance()
    ensures BalanceOf(MockAccounts(), "1001") == 1000
  {
    assert Locate(MockAccounts(), "1001") == Some(Pos(0, 0));
  }

  /** One pass through card, PIN and account "1001", as each test begins. */
  method Authenticate(atm: AtmController)
    requires atm.Valid() && atm.state == Idle
    requires SameShape(MockAccounts(), atm.bank.accounts)
    modifies atm
    ensures atm.Valid() && atm.state == AccountSelected && atm.selectedAccount == Some("1001")
    ensures atm.bank.accounts == old(atm.bank.accounts)
    ensures atm.transactionHistory == old(atm.transactionHistory)
  {
    MockShape(atm.bank.accounts);
    var ok := atm.InsertCard("1234567890");
    assert ok;
    ok := atm.EnterPin("1234");
    assert ok;
    ok := atm.SelectAccount("1001");
    assert ok;
  }

  /** Test 1: card, PIN, the account list, account "1001", an inquiry, eject. */
  method InquiryTest(atm: AtmController, hardware: MockHardware) returns (listed: nat, balance: Option<int>)
    requires atm.Valid() && atm.state == Idle
    requires SameShape(MockAccounts(), atm.bank.accounts)
    modifies atm, hardware
    ensures atm.Valid() && atm.state == Idle
    ensures atm.bank.accounts == old(atm.bank.accounts)
    ensures listed == 2
    ensures balance == Some(BalanceOf(atm.bank.accounts, "1001"))
  {
    MockShape(atm.bank.accounts);
    var ok := atm.InsertCard("1234567890");
    assert ok;
    ok := atm.EnterPin("1234");
    assert ok;
    var accounts := atm.GetAvailableAccounts();
    listed := |accounts|;
    ok := atm.SelectAccount("1001");
    assert ok;
    balance := atm.CheckBalance();
    var ejected := hardware.EjectCard();
    ok := atm.EjectCard(ejected);
    assert ok;
  }

  /** Tests 2 and 3: a withdrawal from account "1001" with the mock dispenser, then eject. */
  method WithdrawalTest(atm: AtmController, hardware: MockHardware, amount: int) returns (ok: bool, newBalance: Option<int>)
    requires atm.Valid() && atm.state == Idle && amount > 0
    requires SameShape(MockAccounts(), atm.bank.accounts)
    modifies atm, atm.bank, hardware
    ensures atm.Valid() && atm.state == Idle
    ensures SameShape(MockAccounts(), atm.bank.accounts)
    ensures var before := old(BalanceOf(atm.bank.accounts, "1001"));
              (ok <==> before >= amount) &&
              (ok ==> newBalance == Some(before - amount) && BalanceOf(atm.bank.accounts, "1001") == before - amount) &&
              (!ok ==> newBalance == None && BalanceOf(atm.bank.accounts, "1001") == before)
  {
    Authenticate(atm);
    ok, newBalance := atm.Withdraw(amount, hardware.DispenseCash(amount));
    var ejected := hardware.EjectCard();
    var done := atm.EjectCard(ejected);
    assert done;
  }

  /** Test 4: a deposit to account "1001" with the mock acceptor, then eject. */
  method DepositTest(atm: AtmController, hardware: MockHardware, amount: int) returns (ok: bool, newBalance: Option<int>)
    requires atm.Valid() && atm.state == Idle && amount > 0
    requires SameShape(MockAccounts(), atm.bank.accounts)
    modifies atm, atm.bank, hardware
    ensures atm.Valid() && atm.state == Idle
    ensures SameShape(MockAccounts(), atm.bank.accounts)
    ensures ok && newBalance == Some(old(BalanceOf(atm.bank.accounts, "1001")) + 100)
    ensures BalanceOf(atm.bank.accounts, "1001") == old(BalanceOf(atm.bank.accounts, "1001")) + 100
  {
    Authenticate(atm);
    ok, newBalance := atm.Deposit(amount, hardware.AcceptCash());
    var ejected := hardware.EjectCard();
    var done := atm.EjectCard(ejected);
    assert done;
  }

  /** Tests 5 and 6: a wrong PIN keeps the card inserted and eject still works; with no card nothing proceeds. */
  method WrongPinTest(atm: AtmController, hardware: MockHardware)
    returns (wrongPin: bool, wrongPinState: AtmState, pinWithoutCard: bool, selectWithoutCard: bool)
    requires atm.Valid() && atm.state == Idle
    requires SameShape(MockAccounts(), atm.bank.accounts)
    modifies atm, hardware
    ensures atm.Valid() && atm.state == Idle
    ensures !wrongPin && wrongPinState == CardInserted
    ensures !pinWithoutCard && !selectWithoutCard
  {
    MockShape(atm.bank.accounts);
    var ok := atm.InsertCard("1234567890");
    wrongPin := atm.EnterPin("wrong");
    wrongPinState := atm.state;
    var ejected := hardware.EjectCard();
    ok := atm.EjectCard(ejected);
    assert ok && atm.state == Idle;
    pinWithoutCard := atm.EnterPin("1234");
    selectWithoutCard := atm.SelectAccount("1001");
  }

  /**
   * The six tests, in order and on one controller, so that balances carry
   * over: inquiry 1000, withdrawal of 100 leaving 900, a refused withdrawal
   * of 2000, a deposit back to 1000, a wrong PIN, and PIN entry and account
   * selection with no card.
   */
  method TestAtmController()
    returns (listed: nat, inquiry: Option<int>, withdrawn: Option<int>, overdrawn: bool, deposited: Option<int>,
             wrongPin: bool, wrongPinState: AtmState, pinWithoutCard: bool, selectWithoutCard: bool)
    ensures listed == 2 && inquiry == Some(1000)
    ensures withdrawn == Some(900)
    ensures !overdrawn
    ensures deposited == Some(1000)
    ensures !wrongPin && wrongPinState == CardInserted
    ensures !pinWithoutCard && !selectWithoutCard
  {
    var bank := new MockBankSystem();
    var hardware := new MockHardware();
    var atm := new AtmController(bank);
    MockBalance();

    listed, inquiry := InquiryTest(atm, hardware);
    var _, afterWithdrawal := WithdrawalTest(atm, hardware, 100);
    var covered, _ := WithdrawalTest(atm, hardware, 2000);
    var _, afterDeposit := DepositTest(atm, hardware, 100);
    withdrawn, overdrawn, deposited := afterWithdrawal, covered, afterDeposit;

    wrongPin, wrongPinState, pinWithoutCard, selectWithoutCard := WrongPinTest(atm, hardware);
  }

  /** Test 1's account listing shows both accounts of the card. */
  method ListAccountsAfterPin() returns (accounts: seq<Account>)
    ensures |accounts| == 2 && accounts[0].number == "1001" && accounts[1].number == "1002"
  {
    var bank := new MockBankSystem();
    var atm := new AtmController(bank);
    MockShape(bank.accounts);
    var ok := atm.InsertCard("1234567890");
    ok := atm.EnterPin("1234");
    assert ok;
    accounts := atm.GetAvailableAccounts();
  }

  /** Two inquiries with nothing in between answer alike and log two records. */
  method RepeatedInquiry() returns (first: Option<int>, second: Option<int>, logged: nat)
    ensures first == second == Some(1000)
    ensures logged == 2
  {
    var bank := new MockBankSystem();
    var atm := new AtmController(bank);
    MockBalance();
    Authenticate(atm);
    first := atm.CheckBalance();
    second := atm.CheckBalance();
    logged := |atm.transactionHistory|;
  }

  /**
   * The demo: withdraw 100, then ask to deposit 50. The mock acceptor takes
   * 100, so 100 is credited and logged and the balance returns to 1000.
   */
  method Demo() returns (afterWithdrawal: Option<int>, afterDeposit: Option<int>, lastRecord: TransactionRecord)
    ensures afterWithdrawal == Some(900)
    ensures afterDeposit == Some(1000)
    ensures lastRecord == TransactionRecord(TransactionType.Deposit, "1001", 100, true)
  {
    var bank := new MockBankSystem();
    var hardware := new MockHardware();
    var atm := new AtmController(bank);
    MockBalance();
    Authenticate(atm);
    var balance := atm.CheckBalance();
    var ok;
    ok, afterWithdrawal := atm.Withdraw(100, hardware.DispenseCash(100));
    ok, afterDeposit := atm.Deposit(50, hardware.AcceptCash());
    lastRecord := atm.transactionHistory[|atm.transactionHistory| - 1];
    var ejected := hardware.EjectCard();
    ok := atm.EjectCard(ejected);
  }

  /** A dispenser fault after a successful debit: the money is put back and the failure logged. */
  method DispenseFault() returns (ok: bool, newBalance: Option<int>, balance: int, lastRecord: TransactionRecord)
    ensures !ok && newBalance == None
    ensures balance == 1000
    ensures lastRecord == TransactionRecord(Withdrawal, "1001", 100, false)
  {
    var bank := new MockBankSystem();
    var atm := new AtmController(bank);
    MockBalance();
    Authenticate(atm);
    ok, newBalance := atm.Withdraw(100, false);
    balance := bank.GetBalance("1001");
    lastRecord := atm.transactionHistory[|atm.transactionHistory| - 1];
  }
}
