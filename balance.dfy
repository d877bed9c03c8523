/**
 * The balance of one client (src/ledger/balance.rs): a running total, the
 * holds placed by disputes keyed by transaction id, and a permanent lock.
 */
module LedgerBalance {
  import opened Wrappers
  import opened Ledger

  datatype Error =
    | InsufficientFunds
    | AccountLocked
    | MultiHoldError(tx: TxId)
    | NoHoldError(tx: TxId)

  /** The read-only projection of a balance that is reported. */
  datatype BalanceSnapshot = BalanceSnapshot(client: ClientId, available: Amount, held: Amount, total: Amount, locked: bool)

  /** The part of a hold that counts as held: positive holds only. */
  function Positive(v: int): nat
  {
    if v > 0 then v else 0
  }

  /** The sum of the positive hold amounts, in no particular key order. */
  ghost function PositiveSum(holds: map<TxId, Amount>): int
    decreases |holds|
  {
    if holds == map[] then 0
    else
      var k :| k in holds;
      Positive(holds[k]) + PositiveSum(holds - {k})
  }

  /** The sum may be taken apart at any key, so its order does not matter. */
  lemma {:induction false} PositiveSumRemove(holds: map<TxId, Amount>, k: TxId)
    requires k in holds
    ensures PositiveSum(holds) == Positive(holds[k]) + PositiveSum(holds - {k})
    decreases |holds|
  {
    var j :| j in holds && PositiveSum(holds) == Positive(holds[j]) + PositiveSum(holds - {j});
    if j != k {
      assert |holds - {j}| < |holds| by { assert (holds - {j}).Keys == holds.Keys - {j}; }
      assert |holds - {k}| < |holds| by { assert (holds - {k}).Keys == holds.Keys - {k}; }
      PositiveSumRemove(holds - {j}, k);
      PositiveSumRemove(holds - {k}, j);
      assert holds - {j} - {k} == holds - {k} - {j};
    }
  }

  /** Nothing held is ever negative: withdrawal holds are left out, not subtracted. */
  lemma {:induction false} PositiveSumNonNegative(holds: map<TxId, Amount>)
    ensures PositiveSum(holds) >= 0
    decreases |holds|
  {
    if holds != map[] {
      var k :| k in holds;
      PositiveSumRemove(holds, k);
      assert |holds - {k}| < |holds| by { assert (holds - {k}).Keys == holds.Keys - {k}; }
      PositiveSumNonNegative(holds - {k});
    }
  }

  /** A new hold adds exactly its positive part to the sum. */
  lemma PositiveSumInsert(holds: map<TxId, Amount>, k: TxId, v: Amount)
    requires k !in holds
    ensures PositiveSum(holds[k := v]) == Positive(v) + PositiveSum(holds)
  {
    PositiveSumRemove(holds[k := v], k);
    assert holds[k := v] - {k} == holds;
  }

  class Balance {
    /** Client which owns this balance. */
    const client: ClientId
    var total: Amount
    var holds: map<TxId, Amount>
    var locked: bool

    /** The funds frozen by open disputes. */
    ghost function HeldAmount(): int
      reads this
    {
      PositiveSum(holds)
    }

    /** The funds that may be drawn on: the total less what is held. */
    ghost function AvailableAmount(): int
      reads this
    {
      total - HeldAmount()
    }

    /** A fresh, unlocked balance with nothing in it. */
    constructor (client: ClientId)
      ensures this.client == client && total == 0 && holds == map[] && !locked
      ensures HeldAmount() == 0 && AvailableAmount() == 0
    {
      this.client := client;
      total := 0;
      holds := map[];
      locked := false;
    }

    /** Sums the positive holds, one hold at a time. */
    method Held() returns (held: Amount)
      ensures held == HeldAmount()
      ensures held >= 0
    {
      PositiveSumNonNegative(holds);
      held := 0;
      var rest := holds;
      while rest != map[]
        invariant held + PositiveSum(rest) == PositiveSum(holds)
        decreases |rest|
      {
        var k :| k in rest;
        PositiveSumRemove(rest, k);
        if rest[k] > 0 {
          held := held + rest[k];
        }
        assert (rest - {k}).Keys == rest.Keys - {k};
        rest := rest - {k};
      }
    }

    /** The total less the held funds; never more than the total. */
    method Available() returns (available: Amount)
      ensures available == AvailableAmount()
      ensures available <= total
    {
      var held := Held();
      available := total - held;
    }

    function Locked(): bool
      reads this
    {
      locked
    }

    /** Freezes the balance for good; nothing else changes. */
    method LockBalance()
      modifies this
      ensures locked
      ensures total == old(total) && holds == old(holds)
    {
      locked := true;
    }

    /** Adds funds, unless the balance is locked. */
    method Deposit(amount: Amount) returns (r: Result<(), Error>)
      modifies this
      ensures holds == old(holds) && locked == old(locked)
      ensures old(locked) ==> r == Failure(AccountLocked) && total == old(total)
      ensures !old(locked) ==> r == Success(()) && total == old(total) + amount
      ensures r.Success? ==> AvailableAmount() == old(AvailableAmount()) + amount
    {
      if locked {
        return Failure(AccountLocked);
      }
      total := total + amount;
      return Success(());
    }

    /**
     * Takes funds out. The funds are checked against the total, not against
     * what is available, and before the lock.
     */
    method Withdraw(amount: Amount) returns (r: Result<(), Error>)
      modifies this
      ensures holds == old(holds) && locked == old(locked)
      ensures old(total) < amount ==> r == Failure(InsufficientFunds) && total == old(total)
      ensures amount <= old(total) && old(locked) ==> r == Failure(AccountLocked) && total == old(total)
      ensures amount <= old(total) && !old(locked) ==> r == Success(()) && total == old(total) - amount
      ensures r.Success? ==> total >= 0
    {
      if total < amount {
        return Failure(InsufficientFunds);
      }
      if locked {
        return Failure(AccountLocked);
      }
      total := total - amount;
      return Success(());
    }

    /**
     * Places a hold of signed `amount` against `tx`, whether or not the
     * balance is locked. Only a positive hold adds to what is held.
     */
    method Hold(tx: TxId, amount: Amount) returns (r: Result<(), Error>)
      modifies this
      ensures total == old(total) && locked == old(locked)
      ensures tx in old(holds) ==> r == Failure(MultiHoldError(tx)) && holds == old(holds)
      ensures tx !in old(holds) ==> r == Success(()) && holds == old(holds)[tx := amount]
      ensures r.Success? ==> HeldAmount() == old(HeldAmount()) + Positive(amount)
    {
      if tx in holds {
        return Failure(MultiHoldError(tx));
      }
      PositiveSumInsert(holds, tx, amount);
      holds := holds[tx := amount];
      return Success(());
    }

    /** Releases the hold on `tx` (a resolved dispute); the total is untouched. */
    method RemoveHold(tx: TxId) returns (r: Result<(), Error>)
      modifies this
      ensures total == old(total) && locked == old(locked)
      ensures tx !in old(holds) ==> r == Failure(NoHoldError(tx)) && holds == old(holds)
      ensures tx in old(holds) ==> r == Success(()) && holds == old(holds) - {tx}
      ensures r.Success? ==> HeldAmount() == old(HeldAmount()) - Positive(old(holds)[tx])
    {
      if tx !in holds {
        return Failure(NoHoldError(tx));
      }
      PositiveSumRemove(holds, tx);
      holds := holds - {tx};
      return Success(());
    }

    /**
     * Settles the hold on `tx` against the total (a chargeback): a deposit's
     * positive hold comes off the total, a withdrawal's negative hold goes
     * back onto it. What was held is no longer held, so a deposit's
     * chargeback leaves the available funds as they were.
     */
    method ApplyHold(tx: TxId) returns (r: Result<(), Error>)
      modifies this
      ensures locked == old(locked)
      ensures tx !in old(holds) ==> r == Failure(NoHoldError(tx)) && total == old(total) && holds == old(holds)
      ensures tx in old(holds) ==> r == Success(()) && total == old(total) - old(holds)[tx] && holds == old(holds) - {tx}
      ensures r.Success? ==> AvailableAmount() == old(AvailableAmount()) + Positive(-old(holds)[tx])
    {
      if tx !in holds {
        return Failure(NoHoldError(tx));
      }
      PositiveSumRemove(holds, tx);
      total := total - holds[tx];
      holds := holds - {tx};
      return Success(());
    }

    /** Reports the balance consistently with its accessors. */
    method Snapshot() returns (s: BalanceSnapshot)
      ensures s.client == client && s.total == total && s.locked == locked
      ensures s.held == HeldAmount() && s.available == AvailableAmount()
      ensures s.available + s.held == s.total && s.held >= 0 && s.available <= s.total
    {
      var available := Available();
      var held := Held();
      s := BalanceSnapshot(client, available, held, total, Locked());
    }
  }

  /** Deposit 100 and withdraw 10: both succeed and 90 is available. */
  method DepositAndWithdraw() returns (deposited: Result<(), Error>, withdrawn: Result<(), Error>, available: Amount)
    ensures deposited == Success(()) && withdrawn == Success(())
    ensures available == 90
  {
    var b := new Balance(0);
    deposited := b.Deposit(100);
    withdrawn := b.Withdraw(10);
    available := b.Available();
  }

  /** A hold on the withdrawal is negative, so it leaves the available funds at 90. */
  method DepositWithdrawHold()
    returns (deposited: Result<(), Error>, withdrawn: Result<(), Error>, held: Result<(), Error>, available: Amount)
    ensures deposited == Success(()) && withdrawn == Success(()) && held == Success(())
    ensures available == 90
  {
    var b := new Balance(0);
    deposited := b.Deposit(100);
    withdrawn := b.Withdraw(10);
    held := b.Hold(2, -10);
    available := b.Available();
  }

  /**
   * Deposit 100 (tx 1), hold it, deposit 50 (tx 2), then charge tx 1 back
   * and lock: 50 is left and available, and a later deposit is refused.
   */
  method ChargeBackAndLock() returns (s: BalanceSnapshot, late: Result<(), Error>)
    ensures s == BalanceSnapshot(7, 50, 0, 50, true)
    ensures late == Failure(AccountLocked)
  {
    var b := new Balance(7);
    var r := b.Deposit(100);
    r := b.Hold(1, 100);
    r := b.Deposit(50);
    r := b.ApplyHold(1);
    b.LockBalance();
    late := b.Deposit(1);
    s := b.Snapshot();
  }
}
