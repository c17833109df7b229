/**
 * The transfer ledger of src/operations.py: an object holding a balance and a
 * fee, changed in place by three guarded transfers, each of which answers
 * whether it was carried out.  The ledger keeps no transaction history and
 * amounts are whole numbers.
 */
module Operations {

  /** What a guarded transfer answers, and the balance it leaves behind. */
  datatype Outcome = Outcome(accepted: bool, balance: int)

  /** `incoming_transfer` on a ledger holding `balance`: only a positive amount is credited. */
  function IncomingOutcome(balance: int, amount: int): (o: Outcome)
    ensures o.accepted <==> amount > 0
    ensures o.balance >= balance
    ensures o.accepted ==> o.balance - amount == balance
    ensures !o.accepted ==> o.balance == balance
  {
    if amount > 0 then Outcome(true, balance + amount) else Outcome(false, balance)
  }

  /**
   * `outgoing_transfer` on a ledger holding `balance`: refused for a negative
   * amount or one above the balance, so it never overdraws.
   */
  function OutgoingOutcome(balance: int, amount: int): (o: Outcome)
    ensures o.accepted <==> 0 <= amount <= balance
    ensures o.accepted ==> 0 <= o.balance <= balance && o.balance + amount == balance
    ensures !o.accepted ==> o.balance == balance
  {
    if amount > balance || amount < 0 then Outcome(false, balance)
    else Outcome(true, balance - amount)
  }

  /**
   * `express_transfer` on a ledger holding `balance` with fee `fee`: the
   * amount may exceed the balance by up to the fee, and the fee is charged on
   * top, so an accepted transfer can leave the balance as low as `-2 * fee`.
   */
  function ExpressOutcome(balance: int, fee: int, amount: int): (o: Outcome)
    ensures o.accepted <==> 0 <= amount <= balance + fee
    ensures o.accepted ==> o.balance + amount + fee == balance && o.balance >= -2 * fee
    ensures !o.accepted ==> o.balance == balance
  {
    if amount > balance + fee || amount < 0 then Outcome(false, balance)
    else Outcome(true, balance - (amount + fee))
  }

  /** One call of one of the three transfer methods. */
  datatype Transfer = Incoming(amount: int) | Outgoing(amount: int) | Express(amount: int)

  /** The outcome of one transfer; a refused one leaves the balance as it was. */
  function Apply(balance: int, fee: int, t: Transfer): (o: Outcome)
    ensures o.accepted || o.balance == balance
  {
    match t
    case Incoming(a) => IncomingOutcome(balance, a)
    case Outgoing(a) => OutgoingOutcome(balance, a)
    case Express(a) => ExpressOutcome(balance, fee, a)
  }

  /** The balance after the transfers `ts` are made in order on a ledger whose fee stays `fee`. */
  function Replay(balance: int, fee: int, ts: seq<Transfer>): (b: int)
    decreases |ts|
  {
    if ts == [] then balance else Replay(Apply(balance, fee, ts[0]).balance, fee, ts[1..])
  }

  /** With no fee, an express transfer is an outgoing transfer, accepted or not. */
  lemma ExpressWithoutFeeIsOutgoing(balance: int, amount: int)
    ensures ExpressOutcome(balance, 0, amount) == OutgoingOutcome(balance, amount)
  {
  }

  /** An incoming transfer of the same amount undoes an accepted outgoing transfer of a positive amount. */
  lemma IncomingUndoesOutgoing(balance: int, amount: int)
    requires 0 < amount <= balance
    ensures IncomingOutcome(OutgoingOutcome(balance, amount).balance, amount) == Outcome(true, balance)
  {
  }

  /** From a non-negative balance, an outgoing transfer of the same amount undoes an incoming one. */
  lemma OutgoingUndoesIncoming(balance: int, amount: int)
    requires balance >= 0 && amount > 0
    ensures OutgoingOutcome(IncomingOutcome(balance, amount).balance, amount) == Outcome(true, balance)
  {
  }

  /**
   * Whatever transfers are made, a ledger with a non-negative fee that starts
   * at or above `-2 * fee` (balance 0 included, whatever fee has been set)
   * never drops below it.
   */
  lemma {:induction false} ReplayStaysAboveFloor(balance: int, fee: int, ts: seq<Transfer>)
    requires fee >= 0 && balance >= -2 * fee
    ensures Replay(balance, fee, ts) >= -2 * fee
    decreases |ts|
  {
    if ts != [] {
      ReplayStaysAboveFloor(Apply(balance, fee, ts[0]).balance, fee, ts[1..]);
    }
  }

  /**
   * The floor is reached: on a ledger at balance 0 whose fee has been set to
   * `fee`, two express transfers of 0 leave exactly `-2 * fee`.
   */
  lemma FloorIsReached(fee: int)
    requires fee >= 0
    ensures Replay(0, fee, [Express(0), Express(0)]) == -2 * fee
  {
  }

  /** Only an express transfer can take a non-negative balance below zero. */
  lemma {:induction false} ReplayWithoutExpressStaysNonNegative(balance: int, fee: int, ts: seq<Transfer>)
    requires balance >= 0
    requires forall i :: 0 <= i < |ts| ==> !ts[i].Express?
    ensures Replay(balance, fee, ts) >= 0
    decreases |ts|
  {
    if ts != [] {
      ReplayWithoutExpressStaysNonNegative(Apply(balance, fee, ts[0]).balance, fee, ts[1..]);
    }
  }

  /** The ledger object: `balance` and `fee` are public fields, both starting at 0. */
  class TransferOperations {
    var balance: int
    var fee: int

    constructor ()
      ensures balance == 0 && fee == 0
    {
      balance := 0;
      fee := 0;
    }

    /** Credits a positive amount; anything else is refused and changes nothing. */
    method IncomingTransfer(amount: int) returns (ok: bool)
      modifies this`balance
      ensures ok <==> amount > 0
      ensures Outcome(ok, balance) == IncomingOutcome(old(balance), amount)
      ensures fee == old(fee)
    {
      if amount > 0 {
        balance := balance + amount;
        return true;
      }
      return false;
    }

    /** Debits an amount between 0 and the balance; anything else is refused and changes nothing. */
    method OutgoingTransfer(amount: int) returns (ok: bool)
      modifies this`balance
      ensures ok <==> 0 <= amount <= old(balance)
      ensures Outcome(ok, balance) == OutgoingOutcome(old(balance), amount)
      ensures fee == old(fee)
    {
      if amount > balance || amount < 0 {
        return false;
      }
      balance := balance - amount;
      return true;
    }

    /**
     * Debits the amount and the fee, provided the amount is between 0 and the
     * balance plus the fee; anything else is refused and changes nothing.
     */
    method ExpressTransfer(amount: int) returns (ok: bool)
      modifies this`balance
      ensures ok <==> 0 <= amount <= old(balance) + fee
      ensures Outcome(ok, balance) == ExpressOutcome(old(balance), old(fee), amount)
      ensures fee == old(fee)
    {
      if amount > balance + fee || amount < 0 {
        return false;
      }
      balance := balance - (amount + fee);
      return true;
    }
  }

  /**
   * A fresh ledger whose fee is set to `fee` and whose balance is raised
   * directly by `deposit`, followed by one express transfer of `amount`.
   */
  method BalanceAfterExpress(fee: int, deposit: int, amount: int) returns (ok: bool, after: int)
    ensures ok <==> 0 <= amount <= deposit + fee
    ensures ok ==> after == deposit - amount - fee
    ensures !ok ==> after == deposit
  {
    var ledger := new TransferOperations();
    ledger.fee := fee;
    ledger.balance := ledger.balance + deposit;
    ok := ledger.ExpressTransfer(amount);
    after := ledger.balance;
  }

  /**
   * The express-transfer expectations for a personal fee of 1 and a company
   * fee of 5: a transfer of 100 from 200, one of 200 from 100 (refused), and
   * one of 100 from 100 (accepted, ending one fee below zero).
   */
  method ExpressTransferExpectations()
    returns (personal: int, company: int, personalShort: int, companyShort: int,
             personalLimit: int, companyLimit: int)
    ensures personal == 99 && company == 95
    ensures personalShort == 100 && companyShort == 100
    ensures personalLimit == -1 && companyLimit == -5
  {
    var ok: bool;
    ok, personal := BalanceAfterExpress(1, 200, 100);
    ok, company := BalanceAfterExpress(5, 200, 100);
    ok, personalShort := BalanceAfterExpress(1, 100, 200);
    ok, companyShort := BalanceAfterExpress(5, 100, 200);
    ok, personalLimit := BalanceAfterExpress(1, 100, 100);
    ok, companyLimit := BalanceAfterExpress(5, 100, 100);
  }
}
