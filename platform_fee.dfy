/**
 * The platform fee contract: a running fee balance that only the invoice asset
 * contract may raise and only the owner may reset. A failed guard raises, which
 * aborts the invocation with no storage change; here it is a `Failure` naming the
 * guard, with the state unchanged. The calling script hash is a parameter.
 *
 * Nothing in the contract writes the invoice asset hash, and no other contract can
 * write its storage, so on any deployment `record_fee` always fails. `WithStorage`
 * starts from storage that already holds a hash: a state no deployment reaches, kept
 * to show what the guards and the arithmetic do once it is set.
 *
 * The methods are marked safe in the contract's manifest, and a safe method may not
 * write storage or emit events on Neo N3; the model states the writes as written and
 * leaves those call-flag rules out. The owner `_deploy` records is the calling script
 * hash, which the model takes as a parameter.
 */
module PlatformFee {
  datatype FeeError = HashNotConfigured | NotInvoiceAsset | NonPositiveAmount | OwnerNotSet | NotOwner | NothingToWithdraw

  datatype Outcome = Success | Failure(error: FeeError)

  class FeeContract {
    /** The value under `invoice_asset_hash`; empty when unset. */
    var invoiceAssetHash: string
    /** The value under `owner`; empty when unset. */
    var owner: string
    /** The value under `fee_balance`, with unset read as 0. */
    var feeBalance: int

    /** The balance is never negative: it only grows by positive fees and is reset to 0. */
    ghost predicate Valid()
      reads this
    {
      feeBalance >= 0
    }

    /** Empty storage, before `_deploy` runs. */
    constructor ()
      ensures Valid()
      ensures invoiceAssetHash == "" && owner == "" && feeBalance == 0
    {
      invoiceAssetHash, owner, feeBalance := "", "", 0;
    }

    /** Storage that already holds the three keys. */
    constructor WithStorage(invoiceAssetHash: string, owner: string, feeBalance: nat)
      ensures Valid()
      ensures this.invoiceAssetHash == invoiceAssetHash && this.owner == owner && this.feeBalance == feeBalance
    {
      this.invoiceAssetHash, this.owner, this.feeBalance := invoiceAssetHash, owner, feeBalance;
    }

    /** `get_fee_balance`. */
    function GetFeeBalance(): (b: int)
      reads this
      requires Valid()
      ensures b >= 0
    {
      feeBalance
    }

    /**
     * `record_fee`: the hash must be configured, the caller must be that hash and the
     * amount positive, checked in that order; then the balance grows by the amount.
     */
    method RecordFee(caller: string, amount: int) returns (r: Outcome)
      requires Valid()
      modifies this
      ensures Valid()
      ensures r.Success? <==> old(invoiceAssetHash) != "" && caller == old(invoiceAssetHash) && amount > 0
      ensures old(invoiceAssetHash) == "" ==> r == Failure(HashNotConfigured)
      ensures old(invoiceAssetHash) != "" && caller != old(invoiceAssetHash) ==> r == Failure(NotInvoiceAsset)
      ensures old(invoiceAssetHash) != "" && caller == old(invoiceAssetHash) && amount <= 0 ==> r == Failure(NonPositiveAmount)
      ensures feeBalance == if r.Success? then old(feeBalance) + amount else old(feeBalance)
      ensures invoiceAssetHash == old(invoiceAssetHash) && owner == old(owner)
    {
      var hash := invoiceAssetHash;
      if hash == "" {
        return Failure(HashNotConfigured);
      }
      if caller != hash {
        return Failure(NotInvoiceAsset);
      }
      if amount <= 0 {
        return Failure(NonPositiveAmount);
      }
      var currentBalance := feeBalance;
      feeBalance := currentBalance + amount;
      return Success;
    }

    /**
     * `withdraw`: the owner must be set, the caller must be the owner and the balance
     * positive, checked in that order; then the balance is reset to 0. The recipient
     * is not used and nothing is transferred.
     */
    method Withdraw(caller: string, recipient: string) returns (r: Outcome)
      requires Valid()
      modifies this
      ensures Valid()
      ensures r.Success? <==> old(owner) != "" && caller == old(owner) && old(feeBalance) > 0
      ensures old(owner) == "" ==> r == Failure(OwnerNotSet)
      ensures old(owner) != "" && caller != old(owner) ==> r == Failure(NotOwner)
      ensures old(owner) != "" && caller == old(owner) && old(feeBalance) == 0 ==> r == Failure(NothingToWithdraw)
      ensures feeBalance == if r.Success? then 0 else old(feeBalance)
      ensures invoiceAssetHash == old(invoiceAssetHash) && owner == old(owner)
    {
      var currentOwner := owner;
      if currentOwner == "" {
        return Failure(OwnerNotSet);
      }
      if caller != currentOwner {
        return Failure(NotOwner);
      }
      var balance := feeBalance;
      if balance <= 0 {
        return Failure(NothingToWithdraw);
      }
      feeBalance := 0;
      return Success;
    }

    /** `_deploy`: on a first deployment the caller becomes the owner and the balance 0; an update changes nothing. */
    method Deploy(caller: string, update: bool) returns (ok: bool)
      requires Valid()
      modifies this
      ensures Valid()
      ensures ok
      ensures owner == if update then old(owner) else caller
      ensures feeBalance == if update then old(feeBalance) else 0
      ensures invoiceAssetHash == old(invoiceAssetHash)
    {
      if !update {
        owner := caller;
        feeBalance := 0;
      }
      return true;
    }
  }

  /** On a freshly deployed contract no caller can record a fee, and so the owner never has anything to withdraw. */
  method FreshDeploymentRecordsNothing(deployer: string, caller: string, amount: int)
    returns (recorded: Outcome, withdrawn: Outcome, balance: int)
    ensures recorded == Failure(HashNotConfigured)
    ensures deployer != "" ==> withdrawn == Failure(NothingToWithdraw)
    ensures balance == 0
  {
    var contract := new FeeContract();
    var _ := contract.Deploy(deployer, false);
    recorded := contract.RecordFee(caller, amount);
    withdrawn := contract.Withdraw(deployer, deployer);
    balance := contract.GetFeeBalance();
  }

  /** With the hash set from outside: two fees accumulate, the owner withdraws them, and the balance is 0 again. */
  method ConfiguredFeeCycle() returns (first: Outcome, second: Outcome, before: int, withdrawn: Outcome, after: int)
    ensures first == Success && second == Success && before == 30
    ensures withdrawn == Success && after == 0
  {
    var contract := new FeeContract.WithStorage("asset", "", 0);
    var _ := contract.Deploy("ops", false);
    first := contract.RecordFee("asset", 10);
    second := contract.RecordFee("asset", 20);
    before := contract.GetFeeBalance();
    withdrawn := contract.Withdraw("ops", "treasury");
    after := contract.GetFeeBalance();
  }
}
