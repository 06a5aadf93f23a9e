/**
 * The invoice asset contract: a register-once marker per invoice id and a status
 * that starts as "issued", can be overwritten by `update_status` and is set to
 * "settled" by `settle_invoice`. The invoice fields passed to registration only go
 * into an event; the stored data is the constant marker "registered".
 *
 * The two operations that change the status test the status key itself, so an
 * invoice whose status was overwritten with the empty string can no longer be
 * updated, settled or registered again.
 */
module InvoiceAsset {
  import opened Common

  const RegisteredMarker: string := "registered"
  const IssuedStatus: string := "issued"
  const SettledStatus: string := "settled"

  class Asset {
    var data: map<Id, string>
    var statuses: map<Id, string>

    /**
     * A status key is written exactly for the registered ids, and the data of a
     * registered id is the marker.
     */
    ghost predicate Valid()
      reads this
    {
      && statuses.Keys == data.Keys
      && (forall id :: id in data ==> data[id] == RegisteredMarker)
    }

    constructor ()
      ensures Valid()
      ensures data == map[] && statuses == map[]
    {
      data, statuses := map[], map[];
    }

    /** `get_invoice`: the marker for a registered id, empty bytes otherwise. */
    function GetInvoice(id: Id): (r: string)
      reads this
      requires Valid()
      ensures r == (if id in data then RegisteredMarker else "")
    {
      Lookup(data, id)
    }

    /** The stored status; empty for an unknown id. */
    function Status(id: Id): string
      reads this
    {
      Lookup(statuses, id)
    }

    /** `register_invoice`: once per id; the data becomes the marker and the status "issued". */
    method RegisterInvoice(id: Id, buyer: string, seller: string, amount: int, currency: string,
                           dueDate: int, meta: string) returns (ok: bool)
      requires Valid()
      modifies this
      ensures Valid()
      ensures ok <==> old(GetInvoice(id)) == ""
      ensures ok ==> data == old(data)[id := RegisteredMarker] && statuses == old(statuses)[id := IssuedStatus]
      ensures !ok ==> data == old(data) && statuses == old(statuses)
      ensures ok ==> GetInvoice(id) == RegisteredMarker && Status(id) == IssuedStatus
    {
      var existing := Lookup(data, id);
      if |existing| > 0 {
        return false;
      }
      data := data[id := RegisteredMarker];
      statuses := statuses[id := IssuedStatus];
      return true;
    }

    /** `update_status`: for an id with a non-empty status, stores the given status as is. */
    method UpdateStatus(id: Id, status: string) returns (ok: bool)
      requires Valid()
      modifies this
      ensures Valid()
      ensures ok <==> old(Status(id)) != ""
      ensures statuses == if ok then old(statuses)[id := status] else old(statuses)
      ensures data == old(data)
    {
      var existing := Lookup(statuses, id);
      if |existing| == 0 {
        return false;
      }
      statuses := statuses[id := status];
      return true;
    }

    /** `settle_invoice`: for an id with a non-empty status, the status becomes "settled". */
    method SettleInvoice(id: Id) returns (ok: bool)
      requires Valid()
      modifies this
      ensures Valid()
      ensures ok <==> old(Status(id)) != ""
      ensures statuses == if ok then old(statuses)[id := SettledStatus] else old(statuses)
      ensures ok ==> Status(id) == SettledStatus
      ensures data == old(data)
    {
      var existing := Lookup(statuses, id);
      if |existing| == 0 {
        return false;
      }
      statuses := statuses[id := SettledStatus];
      return true;
    }
  }

  /** Settling is repeatable: a second `settle_invoice` also succeeds and the status stays "settled". */
  method SettleIsRepeatable() returns (first: bool, second: bool, status: string)
    ensures first && second && status == SettledStatus
  {
    var asset := new Asset();
    var _ := asset.RegisterInvoice("inv-1", "buyer", "seller", 1000, "USD", 0, "");
    first := asset.SettleInvoice("inv-1");
    second := asset.SettleInvoice("inv-1");
    status := asset.Status("inv-1");
  }

  /** A settled invoice can be given any other status again by `update_status`. */
  method SettledInvoiceReissued() returns (updated: bool, status: string)
    ensures updated && status == IssuedStatus
  {
    var asset := new Asset();
    var _ := asset.RegisterInvoice("inv-1", "buyer", "seller", 1000, "USD", 0, "");
    var _ := asset.SettleInvoice("inv-1");
    updated := asset.UpdateStatus("inv-1", IssuedStatus);
    status := asset.Status("inv-1");
  }

  /**
   * An empty status freezes an invoice: afterwards it can be neither updated, settled
   * nor registered again, while `get_invoice` still reports it.
   */
  method EmptyStatusFreezes() returns (cleared: bool, updated: bool, settled: bool, registered: bool, invoice: string)
    ensures cleared && !updated && !settled && !registered && invoice == RegisteredMarker
  {
    var asset := new Asset();
    var _ := asset.RegisterInvoice("inv-1", "buyer", "seller", 1000, "USD", 0, "");
    cleared := asset.UpdateStatus("inv-1", "");
    updated := asset.UpdateStatus("inv-1", "paid");
    settled := asset.SettleInvoice("inv-1");
    registered := asset.RegisterInvoice("inv-1", "buyer", "seller", 1000, "USD", 0, "");
    invoice := asset.GetInvoice("inv-1");
  }
}
