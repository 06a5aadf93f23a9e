/**
 * The master receivable registry: per invoice id the invoice contract hash, the
 * attached share-ledger hash and a status from a fixed list. `set_status` accepts
 * any listed status whatever the current one is, so a settled invoice can be moved
 * back to ACTIVE; only `settle` looks at the current status.
 */
module ReceivableRegistryV2 {
  import opened Common

  const AllowedStatuses: seq<string> := ["CREATED", "VERIFIED", "ACTIVE", "SETTLED", "CANCELLED"]

  /** `_status_allowed`: a linear search of the status list. */
  method StatusAllowed(status: string) returns (allowed: bool)
    ensures allowed <==> status in AllowedStatuses
  {
    var k := 0;
    while k < |AllowedStatuses|
      invariant 0 <= k <= |AllowedStatuses|
      invariant status !in AllowedStatuses[..k]
    {
      if AllowedStatuses[k] == status {
        return true;
      }
      k := k + 1;
    }
    assert AllowedStatuses[..k] == AllowedStatuses;
    return false;
  }

  class Registry {
    var invoices: map<Id, string>
    var shares: map<Id, string>
    var statuses: map<Id, string>

    /**
     * A status is written exactly for the ids whose registration went through, and it
     * is always one of the listed statuses.
     */
    ghost predicate Valid()
      reads this
    {
      && statuses.Keys == invoices.Keys
      && (forall id :: id in statuses ==> statuses[id] in AllowedStatuses)
    }

    constructor ()
      ensures Valid()
      ensures invoices == map[] && shares == map[] && statuses == map[]
    {
      invoices, shares, statuses := map[], map[], map[];
    }

    /** The contract's test for a registered id: a non-empty stored invoice hash. */
    predicate IsRegistered(id: Id)
      reads this
    {
      Lookup(invoices, id) != ""
    }

    function GetInvoiceContract(id: Id): string
      reads this
    {
      Lookup(invoices, id)
    }

    function GetShareContract(id: Id): string
      reads this
    {
      Lookup(shares, id)
    }

    /** `get_status`: empty for an id that was never registered, a listed status otherwise. */
    function GetStatus(id: Id): (s: string)
      reads this
      requires Valid()
      ensures s == "" <==> id !in invoices
      ensures s != "" ==> s in AllowedStatuses
      ensures IsRegistered(id) ==> s in AllowedStatuses
    {
      Lookup(statuses, id)
    }

    /** `register_invoice`: once per id; stores the hash and the status CREATED. */
    method RegisterInvoice(id: Id, invoiceContractHash: string) returns (ok: bool)
      requires Valid()
      modifies this
      ensures Valid()
      ensures ok <==> !old(IsRegistered(id))
      ensures ok ==> invoices == old(invoices)[id := invoiceContractHash]
      ensures ok ==> statuses == old(statuses)[id := "CREATED"]
      ensures !ok ==> invoices == old(invoices) && statuses == old(statuses)
      ensures shares == old(shares)
    {
      if Lookup(invoices, id) != "" {
        return false;
      }
      invoices := invoices[id := invoiceContractHash];
      statuses := statuses[id := "CREATED"];
      return true;
    }

    /** `attach_investor_share`: for a registered id only, and it writes only the share hash. */
    method AttachInvestorShare(id: Id, shareContractHash: string) returns (ok: bool)
      requires Valid()
      modifies this
      ensures Valid()
      ensures ok <==> old(IsRegistered(id))
      ensures shares == if ok then old(shares)[id := shareContractHash] else old(shares)
      ensures invoices == old(invoices) && statuses == old(statuses)
    {
      if Lookup(invoices, id) == "" {
        return false;
      }
      shares := shares[id := shareContractHash];
      return true;
    }

    /**
     * `set_status`: any listed status for a registered id, whatever the current status,
     * SETTLED and CANCELLED included.
     */
    method SetStatus(id: Id, status: string) returns (ok: bool)
      requires Valid()
      modifies this
      ensures Valid()
      ensures ok <==> status in AllowedStatuses && old(IsRegistered(id))
      ensures statuses == if ok then old(statuses)[id := status] else old(statuses)
      ensures invoices == old(invoices) && shares == old(shares)
    {
      var allowed := StatusAllowed(status);
      if !allowed {
        return false;
      }
      if Lookup(invoices, id) == "" {
        return false;
      }
      statuses := statuses[id := status];
      return true;
    }

    /** `settle`: only from ACTIVE or VERIFIED, and the status becomes SETTLED. */
    method Settle(id: Id) returns (ok: bool)
      requires Valid()
      modifies this
      ensures Valid()
      ensures ok <==> old(Lookup(statuses, id)) in ["ACTIVE", "VERIFIED"]
      ensures old(Lookup(statuses, id)) in ["SETTLED", "CANCELLED", ""] ==> !ok
      ensures statuses == if ok then old(statuses)[id := "SETTLED"] else old(statuses)
      ensures ok ==> GetStatus(id) == "SETTLED"
      ensures invoices == old(invoices) && shares == old(shares)
    {
      var current := Lookup(statuses, id);
      if current == "" {
        return false;
      }
      if current == "SETTLED" || current == "CANCELLED" {
        return false;
      }
      if !(current == "ACTIVE" || current == "VERIFIED") {
        return false;
      }
      statuses := statuses[id := "SETTLED"];
      return true;
    }
  }

  /** Settling twice: the second call is refused and the status stays SETTLED. */
  method SettleTwice() returns (first: bool, second: bool, status: string)
    ensures first && !second && status == "SETTLED"
  {
    var registry := new Registry();
    var _ := registry.RegisterInvoice("inv-1", "0xinvoice");
    var _ := registry.SetStatus("inv-1", "ACTIVE");
    first := registry.Settle("inv-1");
    second := registry.Settle("inv-1");
    status := registry.GetStatus("inv-1");
  }

  /** A settled invoice is moved back to ACTIVE by `set_status`, and can then be settled again. */
  method SettledInvoiceReopens() returns (reopened: bool, status: string, settledAgain: bool)
    ensures reopened && status == "ACTIVE" && settledAgain
  {
    var registry := new Registry();
    var _ := registry.RegisterInvoice("inv-1", "0xinvoice");
    var _ := registry.SetStatus("inv-1", "VERIFIED");
    var settled := registry.Settle("inv-1");
    assert settled;
    reopened := registry.SetStatus("inv-1", "ACTIVE");
    status := registry.GetStatus("inv-1");
    settledAgain := registry.Settle("inv-1");
  }

  /** A cancelled invoice cannot be settled. */
  method CancelledInvoiceStays() returns (settled: bool, status: string)
    ensures !settled && status == "CANCELLED"
  {
    var registry := new Registry();
    var _ := registry.RegisterInvoice("inv-1", "0xinvoice");
    var _ := registry.SetStatus("inv-1", "CANCELLED");
    settled := registry.Settle("inv-1");
    status := registry.GetStatus("inv-1");
  }

  /**
   * Registering with an empty hash writes the status CREATED, yet the id still reads as
   * unregistered: a status exists, attaching a share ledger is refused, and the id can be
   * registered again.
   */
  method EmptyHashRegistration() returns (first: bool, status: string, attached: bool, again: bool)
    ensures first && status == "CREATED" && !attached && again
  {
    var registry := new Registry();
    first := registry.RegisterInvoice("inv-1", "");
    status := registry.GetStatus("inv-1");
    attached := registry.AttachInvestorShare("inv-1", "0xshare");
    again := registry.RegisterInvoice("inv-1", "");
  }
}
