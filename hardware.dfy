/**
 * The ATM hardware: card reader, cash dispenser and cash acceptor.
 *
 * The controller does not call a hardware object here: every answer the
 * hardware gives (eject succeeded, dispense succeeded, amount accepted) is a
 * parameter of the controller's methods, so that each branch can be taken.
 * `HardwareCall` names the calls the controller makes, for the ghost trace
 * it keeps. `MockHardware` is the test double whose answers the scenarios use.
 */
module Hardware {
  import opened Wrappers

  /** One call into the hardware interface. */
  datatype HardwareCall = EjectCall | DispenseCall(amount: int) | AcceptCall

  class MockHardware {
    var cardInserted: bool
    var cardNumber: Option<string>

    constructor ()
      ensures !cardInserted && cardNumber == None
      ensures ReadCard() == None
    {
      cardInserted := false;
      cardNumber := None;
    }

    /** The number of the card in the reader, if one is inserted. */
    function ReadCard(): (r: Option<string>)
      reads this
      ensures r.Some? ==> cardInserted && cardNumber == r
      ensures cardInserted ==> r == cardNumber
      ensures !cardInserted ==> r == None
    {
      if cardInserted then cardNumber else None
    }

    /** The mock always reports success and leaves the reader empty. */
    method EjectCard() returns (ok: bool)
      modifies this
      ensures ok
      ensures !cardInserted && cardNumber == None
      ensures ReadCard() == None
    {
      cardInserted := false;
      cardNumber := None;
      return true;
    }

    /** The mock dispenser pays out any positive amount. */
    function DispenseCash(amount: int): bool {
      amount > 0
    }

    /** The mock acceptor always takes in 100, whatever was asked for. */
    function AcceptCash(): int {
      100
    }
  }
}
