/**
 * `CreateForLargeAmountCommand` as an object whose fields change in place:
 * the educator array (`damagedEducators` with its key order), the current cap
 * `maxTransactionDonationAmount`, and the two effects the command has on the
 * world, the persisted transactions and the donors emailed. Each method is
 * proved to move the object's state exactly as the matching function of
 * AllocationSpec does; what the run guarantees is proved there.
 */
module AllocationCommand {

  import opened AllocationSpec

  class CreateForLargeAmountCommand {
    var maxTransactionDonationAmount: int
    var damagedEducators: map<int, Educator>
    /** The key order of the `damagedEducators` array. */
    var order: seq<int>
    /** The transactions persisted through the entity manager. */
    var transactions: seq<Transaction>
    /** The donors sent the new-transaction email, in sending order. */
    var notified: seq<int>

    /** The object's state as a value. */
    function Model(): State
      reads this
    {
      State(damagedEducators, order, maxTransactionDonationAmount, transactions, notified)
    }

    constructor()
      ensures Model() == InitialState
    {
      maxTransactionDonationAmount := InitialMaxTransactionDonationAmount;
      damagedEducators := map[];
      order := [];
      transactions := [];
      notified := [];
    }

    /** `setMaxTransactionDonationAmount`: the cap for this donor's tier; nothing else changes. */
    method SetMaxTransactionDonationAmount(userDonor: Donor)
      modifies this
      ensures maxTransactionDonationAmount == TierCap(userDonor.amount)
      ensures Model() == old(Model()).(maxTransactionDonationAmount := TierCap(userDonor.amount))
    {
      if userDonor.amount <= 120000 {
        maxTransactionDonationAmount := 25000;
        return;
      }
      if userDonor.amount <= 200000 {
        maxTransactionDonationAmount := 35000;
        return;
      }
      if userDonor.amount <= 300000 {
        maxTransactionDonationAmount := 45000;
        return;
      }
      maxTransactionDonationAmount := MaxDonationAmount;
    }

    /**
     * `createTransaction`: the donor's remainder is passed by reference, so
     * its new value is returned beside the count.
     */
    method CreateTransaction(userDonor: Donor, donorRemainingAmount: int, damagedEducatorId: int)
      returns (newDonorRemainingAmount: int, created: int)
      modifies this
      ensures Created(Model(), newDonorRemainingAmount, created)
           == CreateStep(old(Model()), userDonor, donorRemainingAmount, damagedEducatorId)
    {
      if damagedEducatorId !in damagedEducators
         || damagedEducators[damagedEducatorId].remainingAmount < MinTransactionDonationAmount
      {
        damagedEducators := damagedEducators - {damagedEducatorId};
        order := Remove(order, damagedEducatorId);
        return donorRemainingAmount, 0;
      }
      var damagedEducator := damagedEducators[damagedEducatorId];
      var amount := damagedEducator.remainingAmount;
      if amount > donorRemainingAmount {
        amount := donorRemainingAmount;
      }
      if amount > maxTransactionDonationAmount {
        amount := maxTransactionDonationAmount;
      }
      var transaction := Transaction(userDonor.id, damagedEducatorId, damagedEducator.accountNumber, amount);
      newDonorRemainingAmount := donorRemainingAmount - transaction.amount;
      damagedEducators := damagedEducators[damagedEducatorId :=
        damagedEducator.(remainingAmount := damagedEducator.remainingAmount - transaction.amount)];
      transactions := transactions + [transaction];
      created := 1;
    }

    /**
     * `execute`: the lock and the holiday check, loading the educator array,
     * then every donor in turn over a copy of the array taken when that
     * donor's inner loop starts.
     */
    method Execute(lockAcquired: bool, svc: Services, educators: map<int, Educator>, educatorOrder: seq<int>,
                   userDonors: seq<Donor>)
      returns (exitCode: ExitCode)
      requires IsUserDonorList(userDonors)
      modifies this
      ensures (exitCode, Model()) == Run(lockAcquired, svc, educators, educatorOrder, userDonors, old(Model()))
    {
      if !lockAcquired {
        return Failure;
      }
      if svc.isHoliday {
        return Success;
      }
      damagedEducators := educators;
      order := educatorOrder;
      ghost var start := Model();

      for d := 0 to |userDonors|
        invariant Model() == RunDonors(svc, start, userDonors[..d])
      {
        assert userDonors[..d + 1][..d] == userDonors[..d];
        ProcessDonor(svc, userDonors[d]);
      }
      assert userDonors[..|userDonors|] == userDonors;
      return Success;
    }

    /**
     * The body of the donor loop of `execute`: the cooldown and remainder
     * skips, the cap, the inner loop over a copy of the array, the email.
     */
    method ProcessDonor(svc: Services, userDonor: Donor)
      modifies this
      ensures Model() == DonorStep(svc, old(Model()), userDonor)
    {
      if svc.hasNotPaidTransactionsInLastDays(userDonor, NotPaidDays, transactions) {
        return;
      }

      var sumTransactions := svc.getSumTransactions(userDonor, transactions);
      var donorRemainingAmount := userDonor.amount - sumTransactions;
      if donorRemainingAmount < MinTransactionDonationAmount {
        return;
      }

      SetMaxTransactionDonationAmount(userDonor);

      var snapshot := Entries(order, damagedEducators);
      var totalTransactions;
      donorRemainingAmount, totalTransactions := AllocateToEducators(svc, userDonor, donorRemainingAmount, snapshot);

      if totalTransactions > 0 {
        notified := notified + [userDonor.id];
      }
    }

    /**
     * The inner loop of `execute` over the copy of the educator array: the
     * university filter, the yearly guard, `createTransaction`, and the early
     * stop once the donor has less than the minimum left.
     */
    method AllocateToEducators(svc: Services, userDonor: Donor, donorRemainingAmount: int, snapshot: seq<Educator>)
      returns (remaining: int, totalTransactions: int)
      modifies this
      ensures Pass(Model(), remaining, totalTransactions)
           == DonorPass(svc, userDonor, old(Model()), donorRemainingAmount, 0, snapshot)
    {
      totalTransactions := 0;
      remaining := donorRemainingAmount;
      ghost var goal := DonorPass(svc, userDonor, Model(), remaining, 0, snapshot);
      for i := 0 to |snapshot|
        invariant DonorPass(svc, userDonor, Model(), remaining, totalTransactions, snapshot[i..]) == goal
      {
        var damagedEducator := snapshot[i];
        assert snapshot[i..][1..] == snapshot[i + 1..];
        if userDonor.onlyUniversity && !svc.isUniversity(damagedEducator.schoolType) {
          continue;
        }

        var sumTransactionAmount := svc.sumTransactionsToEducator(userDonor, damagedEducator.accountNumber, transactions);
        sumTransactionAmount := sumTransactionAmount + maxTransactionDonationAmount;
        if sumTransactionAmount >= MaxYearDonationAmount {
          continue;
        }

        var created;
        remaining, created := CreateTransaction(userDonor, remaining, damagedEducator.id);
        totalTransactions := totalTransactions + created;

        if remaining < MinTransactionDonationAmount {
          break;
        }
      }
      assert Pass(Model(), remaining, totalTransactions) == goal;
    }
  }
}
