# ATM controller, modelled in Dafny

This project models the control logic of a small ATM (automated teller machine):
`ATMController`, a session state machine, and the two collaborators it drives. The bank
verifies PINs, lists accounts and moves balances. The hardware ejects cards, dispenses cash
and accepts cash. A session goes from idle to card inserted, then PIN verified, then account
selected. In the last state it runs balance inquiries, withdrawals and deposits. Every
transaction attempt that passes the guard appends one record to an append-only history. A
withdrawal debits the account and then dispenses. If dispensing fails, it credits the amount
back. A deposit credits the amount the cash acceptor actually took, which may differ from the
amount asked for.

Modules (one file each):

- `Wrappers` (`wrappers.dfy`): `Option`, for Python's `None`.
- `Ledger` (`ledger.dfy`): the bank's account store as a value. The store is a sequence of
  card entries, in the dictionary's insertion order. Each entry holds a card number, a PIN and
  a list of accounts, and each account a number and a balance. The module defines the search
  the bank's loops perform (`Locate`, `CardIndex`) and the balance updates (`Debit`, `Credit`)
  that the bank's methods are proved against. It also proves that an update changes exactly one
  balance and that a credit undoes a debit.
- `Bank` (`bank.dfy`): `MockBankSystem`, a class whose `accounts` field the methods update in
  place. Its nested `while` loops mirror the nested `for` loops of the source.
- `Hardware` (`hardware.dfy`): `MockHardware`, and `HardwareCall`, which names the calls into
  the hardware interface.
- `Controller` (`controller.dfy`): `AtmController`, a class with the fields `state`,
  `currentCard`, `selectedAccount` and `transactionHistory`. A ghost field `hardwareCalls`
  records the hardware calls made. `Valid()` is the session invariant:
  - idle: no card and no account;
  - card inserted: a card and no account;
  - PIN verified: a non-empty card known to the bank, and no account;
  - account selected: additionally an account that belongs to that card;
  - `TransactionCompleted`: never entered.

  Every method keeps `Valid()`.
- `Scenarios` (`scenarios.dfy`): the repository's test function `test_atm_controller` and demo flow, with the mock
  hardware's answers. Each runs on fresh objects, and its postcondition states what is
  observed.

The bank and the hardware are external calls in the source. The mock bank is modelled
concretely. The hardware's answers (`ejectOk`, `dispenseOk`, `accepted`) are parameters of the
controller's methods, so every branch, including the dispense failure, can be taken.
`MockHardware` supplies those answers in the scenarios: eject always succeeds, dispensing
succeeds for positive amounts, and the acceptor always takes 100.

Python truthiness: the guards `not self.current_card` and `not self.selected_account` treat
`None` and `""` alike, so the model's guard is `Truthy`: present and non-empty.
`insert_card("")` is accepted and leads to a state from which only ejecting helps.

Three behaviours of the code go beyond what its docstrings and state names suggest. The model follows the code:

- `eject_card` has no state guard, so it also works, and resets, when idle.
- The guard failures of `check_balance`, `withdraw` and `deposit` append no record. Only
  attempts past the guard are logged.
- The answer of the compensating deposit is ignored. The model proves that this deposit always
  succeeds (`Ledger.DebitThenCreditRestores`). So no fatal inconsistency path exists to model.

## Model

| member | source | states |
|---|---|---|
| Ledger.CardIndex | atm_controller.py:88-96 | the entry found for a card has that card number; none is found exactly when no entry has it; with unique card keys it is the one entry with it |
| Ledger.Locate | atm_controller.py:99-102 | the position found holds an account with the number, no earlier position in iteration order does, and nothing is found exactly when the store has no such account |
| Ledger.LocateFirst | atm_controller.py:99-102 | a matching account with no match before it is the one the search finds |
| Ledger.LocateUnique | atm_controller.py:109-113 | with unique account numbers, any account with the number is the one found, so the withdraw loop's stop equals the first match |
| Ledger.LocateShape | atm_controller.py:99-102 | the search looks only at account numbers, so changing balances never changes which account it finds |
| Ledger.AccountsOfShape | atm_controller.py:93-96 | changing balances leaves card lookup unchanged, and every card lists the same account numbers in the same order |
| Ledger.AccountsOfHasAccount | atm_controller.py:93-102 | an account listed for a card is one the balance search finds |
| Ledger.SetBalance | atm_controller.py:113 | updating one balance in place changes that account's balance and nothing else: same cards, PINs and account numbers |
| Ledger.SetBalanceEffect | atm_controller.py:113 | after the update the balance read answers the new value for that account and the old value for every other account; the store stays well formed when the value is non-negative |
| Ledger.Debit | atm_controller.py:105-115 | a withdraw succeeds exactly when the amount is positive, the account exists and its balance covers it; on success that balance drops by exactly the amount, every other balance is unchanged, and no balance goes negative; on failure the store is untouched |
| Ledger.Credit | atm_controller.py:117-126 | a deposit succeeds exactly when the amount is positive and the account exists; on success the balance grows by exactly the amount and every other balance is unchanged; on failure the store is untouched |
| Ledger.SetBalanceRestore | atm_controller.py:113-124 | writing the old balance back after an update gives exactly the original store |
| Ledger.DebitThenCreditRestores | atm_controller.py:225-232 | after a successful debit, crediting the same amount to the same account succeeds and gives back exactly the original store |
| Bank.MockAccountsWellFormed | atm_controller.py:72-86 | the mock data has unique card numbers, unique account numbers and non-negative balances |
| Bank.MockBankSystem.constructor | atm_controller.py:71-86 | the bank starts with the mock data, well formed |
| Bank.MockBankSystem.VerifyPin | atm_controller.py:88-91 | true exactly when the card is known and its PIN is the one given |
| Bank.MockBankSystem.GetAccounts | atm_controller.py:93-96 | the card's account list, or the empty list for an unknown card |
| Bank.MockBankSystem.GetBalance | atm_controller.py:98-103 | the balance of the first account with the number, 0 when there is none, and with unique numbers that account's balance |
| Bank.MockBankSystem.Withdraw | atm_controller.py:105-115 | the nested loops, which keep searching past an underfunded match, give exactly `Ledger.Debit`'s outcome and store, and keep the store well formed |
| Bank.MockBankSystem.Deposit | atm_controller.py:117-126 | the nested loops give exactly `Ledger.Credit`'s outcome and store, and keep the store well formed |
| Hardware.MockHardware.constructor | atm_controller.py:131-133 | no card is inserted, and reading the card gives none |
| Hardware.MockHardware.ReadCard | atm_controller.py:135-136 | while a card is inserted the stored card number is returned, and with no card nothing is |
| Hardware.MockHardware.EjectCard | atm_controller.py:138-143 | always reports success and leaves the reader empty |
| Controller.SessionInvariantShape | atm_controller.py:159-161 | balance changes by withdrawals and deposits never break the session invariant |
| Controller.AtmController.constructor | atm_controller.py:156-162 | a new session is idle, with no card, no account, an empty history and no hardware calls |
| Controller.AtmController.InsertCard | atm_controller.py:164-171 | succeeds exactly when idle, storing the card and moving to card inserted; otherwise nothing changes |
| Controller.AtmController.EnterPin | atm_controller.py:173-181 | moves from card inserted to PIN verified exactly when the card is non-empty and the bank verifies the PIN; otherwise state and card are unchanged, also when idle; nothing is logged |
| Controller.AtmController.GetAvailableAccounts | atm_controller.py:183-188 | the current card's accounts when the PIN is verified, and the empty list in every other state |
| Controller.AtmController.SelectAccount | atm_controller.py:190-201 | succeeds exactly when the PIN is verified and the number is among the card's accounts, then records it and moves to account selected; otherwise nothing changes |
| Controller.AtmController.CheckBalance | atm_controller.py:203-215 | with an account selected, returns the ledger balance and appends exactly one successful inquiry record with amount 0; otherwise returns nothing and appends nothing; never changes a balance, the session or the hardware |
| Controller.AtmController.Withdraw | atm_controller.py:217-244 | a guard failure (wrong state, absent account, amount not positive) changes nothing, calls no hardware and logs nothing; otherwise exactly one withdrawal record with the requested amount and final outcome is appended; insufficient funds leave the balance unchanged and dispense nothing; a failed dispense is compensated so the store is exactly as before; success lowers the balance by exactly the amount and returns the re-read balance |
| Controller.AtmController.Deposit | atm_controller.py:246-272 | a guard failure changes nothing, calls no hardware and logs nothing; otherwise the acceptor is called once, the accepted amount, not the requested one, is credited and logged in exactly one record, success holds exactly when that amount is positive, and the returned balance is the old balance plus the accepted amount; a failed credit leaves the store unchanged |
| Controller.AtmController.EjectCard | atm_controller.py:274-279 | from any state, calls the hardware once; on success resets to idle with no card and no account, on failure changes nothing; the history is kept |
| Controller.AtmController.CancelTransaction | atm_controller.py:281-283 | behaves exactly as ejecting the card |
| Controller.AtmController.ResetState | atm_controller.py:285-289 | idle with card and account cleared, history untouched |
| Scenarios.MockShape | atm_controller.py:72-86 | whatever the balances have become, card 1234567890 is the first entry and lists two accounts, among them 1001 |
| Scenarios.MockBalance | atm_controller.py:72-86 | account 1001 starts with balance 1000 |
| Scenarios.InquiryTest | test_atm.py:16-26 | the card lists two accounts, the inquiry on 1001 answers its ledger balance, eject returns to idle, and no balance changes |
| Scenarios.WithdrawalTest | test_atm.py:28-47 | a withdrawal from 1001 with the mock dispenser succeeds exactly when the balance covers it; on success the returned and stored balance is the old one minus the amount, on failure nothing is returned and the balance is unchanged; the session ends idle |
| Scenarios.DepositTest | test_atm.py:49-59 | a deposit to 1001 with the mock acceptor succeeds and raises the returned and stored balance by the 100 taken in; the session ends idle |
| Scenarios.WrongPinTest | test_atm.py:61-75 | a wrong PIN fails and leaves the card inserted, eject still works, and with no card PIN entry and account selection fail |
| Scenarios.Authenticate | test_atm.py:30-32 | inserting card 1234567890, entering PIN 1234 and selecting 1001 always reaches account selected, whatever the balances |
| Scenarios.TestAtmController | test_atm.py:8-75 | on one controller: inquiry gives 1000, withdrawing 100 gives 900, withdrawing 2000 then fails, depositing 100 gives 1000, a wrong PIN fails and leaves the card inserted, and PIN entry and account selection without a card fail |
| Scenarios.ListAccountsAfterPin | test_atm.py:19-21 | after the PIN, the card lists its two accounts, 1001 and 1002 |
| Scenarios.RepeatedInquiry | atm_controller.py:203-215 | two inquiries in a row return the same balance and log two records |
| Scenarios.Demo | demo.py:17-67 | withdrawing 100 gives 900; asking to deposit 50 credits the 100 the mock acceptor takes, giving 1000, and logs 100 |
| Scenarios.DispenseFault | atm_controller.py:225-239 | when the dispenser fails after the debit, the withdrawal reports failure, the balance is back at 1000 and the logged record says failure with the requested amount |

## Left out

- The abstract base classes `BankSystemInterface` and `HardwareInterface` (atm_controller.py:17-66): interface dispatch adds nothing provable. The controller works on the mock bank, and the hardware appears only through its answers.
- The hardware object inside the controller: the controller does not hold a `MockHardware` and does not clear its fields on eject. The answers of `eject_card`, `dispense_cash` and `accept_cash` are parameters, and the ghost `hardwareCalls` trace records which calls the source would make.
- `MockHardware.DispenseCash` and `MockHardware.AcceptCash` carry no contract of their own. They are one-line constants, used as the hardware answers in the scenarios.
- The enumerations' string values and the account `name` field: the states and transaction kinds are datatypes. Records are `TransactionRecord(kind, account, amount, success)`, not dictionaries.
- Bank.MockBankSystem.Withdraw: requires unique account numbers (part of `Valid()`, true of the mock data and kept by every update). With duplicate numbers, the source's loop debits the first funded match, while `Ledger.Debit` debits the first match.
- Console output (`print`), `demo.py`'s printing and the test file's `__main__`: only their control flow is kept, as scenarios.
- Concurrency and persistence: the source has neither.
