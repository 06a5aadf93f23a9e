/**
 * The due-diligence registry: per exporter a KYC tier, a merkle root of the KYC
 * documents and a KYC status; per invoice a documents status, a document bundle
 * hash and three document flags stored as "1" or "0"; and per exporter and per
 * invoice the name of whoever verified it. Every setter overwrites unconditionally
 * and succeeds. Each value sits under its own key (`prefix + id + field suffix`);
 * StorageKeys.ExporterDdKeyInjective, InvoiceDdKeyInjective and DdKeysDisjoint show
 * these keys never meet, so here each setter writes one record of one map.
 */
module DdRegistry {
  import opened Common

  datatype ExporterDd = ExporterDd(kycTier: string, ddMerkleRoot: string, kycStatus: string)
  datatype InvoiceDd = InvoiceDd(docsStatus: string, docBundleHash: string, bl: string, po: string, ins: string)

  /** The `has_*` reading of a flag value: non-empty and exactly "1". */
  predicate FlagSet(v: string)
  {
    |v| > 0 && v == "1"
  }

  /** The stored form of a document flag, which the `has_*` reading turns back into the flag. */
  function FlagBytes(flag: bool): (s: string)
    ensures |s| == 1
    ensures FlagSet(s) == flag
  {
    if flag then "1" else "0"
  }

  /** The status test of `is_dd_complete`: at least 8 bytes whose first 8 are COMPLETE or VERIFIED. */
  predicate StatusComplete(status: string)
  {
    |status| >= 8 && (status[..8] == "COMPLETE" || status[..8] == "VERIFIED")
  }

  /** The test is a prefix test: any status that begins with COMPLETE or VERIFIED passes, and nothing else. */
  lemma StatusCompleteIsPrefix(status: string)
    ensures StatusComplete(status) <==> "COMPLETE" <= status || "VERIFIED" <= status
  {
    if "COMPLETE" <= status {
      assert status[..8] == "COMPLETE";
    }
    if "VERIFIED" <= status {
      assert status[..8] == "VERIFIED";
    }
  }

  class Registry {
    var exporterDd: map<Id, ExporterDd>
    var invoiceDd: map<Id, InvoiceDd>
    var exporterVerifiers: map<Id, string>
    var invoiceVerifiers: map<Id, string>

    constructor ()
      ensures exporterDd == map[] && invoiceDd == map[]
      ensures exporterVerifiers == map[] && invoiceVerifiers == map[]
    {
      exporterDd, invoiceDd := map[], map[];
      exporterVerifiers, invoiceVerifiers := map[], map[];
    }

    /** The exporter's fields; empty strings for an exporter never set. */
    function ExporterFields(exporterId: Id): ExporterDd
      reads this
    {
      GetOr(exporterDd, exporterId, ExporterDd("", "", ""))
    }

    /** The invoice's fields; empty strings for an invoice never set. */
    function InvoiceFields(invoiceId: Id): InvoiceDd
      reads this
    {
      GetOr(invoiceDd, invoiceId, InvoiceDd("", "", "", "", ""))
    }

    function GetExporterKycTier(exporterId: Id): string
      reads this
    {
      ExporterFields(exporterId).kycTier
    }

    function GetExporterDdMerkle(exporterId: Id): string
      reads this
    {
      ExporterFields(exporterId).ddMerkleRoot
    }

    function GetExporterKycStatus(exporterId: Id): string
      reads this
    {
      ExporterFields(exporterId).kycStatus
    }

    function GetInvoiceDocsStatus(invoiceId: Id): string
      reads this
    {
      InvoiceFields(invoiceId).docsStatus
    }

    function GetInvoiceDocHash(invoiceId: Id): string
      reads this
    {
      InvoiceFields(invoiceId).docBundleHash
    }

    /** `has_bill_of_lading`: false for an invoice never set. */
    function HasBillOfLading(invoiceId: Id): (r: bool)
      reads this
      ensures invoiceId !in invoiceDd ==> !r
    {
      FlagSet(InvoiceFields(invoiceId).bl)
    }

    /** `has_purchase_order`: false for an invoice never set. */
    function HasPurchaseOrder(invoiceId: Id): (r: bool)
      reads this
      ensures invoiceId !in invoiceDd ==> !r
    {
      FlagSet(InvoiceFields(invoiceId).po)
    }

    /** `has_insurance`: false for an invoice never set. */
    function HasInsurance(invoiceId: Id): (r: bool)
      reads this
      ensures invoiceId !in invoiceDd ==> !r
    {
      FlagSet(InvoiceFields(invoiceId).ins)
    }

    function GetExporterVerifier(exporterId: Id): string
      reads this
    {
      Lookup(exporterVerifiers, exporterId)
    }

    function GetInvoiceVerifier(invoiceId: Id): string
      reads this
    {
      Lookup(invoiceVerifiers, invoiceId)
    }

    /** `is_dd_complete`: the documents status begins with COMPLETE or VERIFIED. */
    function IsDdComplete(invoiceId: Id): (r: bool)
      reads this
      ensures r <==> "COMPLETE" <= GetInvoiceDocsStatus(invoiceId) || "VERIFIED" <= GetInvoiceDocsStatus(invoiceId)
      ensures invoiceId !in invoiceDd ==> !r
    {
      StatusCompleteIsPrefix(GetInvoiceDocsStatus(invoiceId));
      StatusComplete(GetInvoiceDocsStatus(invoiceId))
    }

    /** `set_exporter_dd`: overwrites the three fields of one exporter; each getter then returns what was passed. */
    method SetExporterDd(exporterId: Id, kycTier: string, ddMerkleRoot: string, kycStatus: string) returns (ok: bool)
      modifies this
      ensures ok
      ensures exporterDd == old(exporterDd)[exporterId := ExporterDd(kycTier, ddMerkleRoot, kycStatus)]
      ensures GetExporterKycTier(exporterId) == kycTier && GetExporterDdMerkle(exporterId) == ddMerkleRoot
      ensures GetExporterKycStatus(exporterId) == kycStatus
      ensures forall e :: e != exporterId ==> ExporterFields(e) == old(ExporterFields(e))
      ensures invoiceDd == old(invoiceDd)
      ensures exporterVerifiers == old(exporterVerifiers) && invoiceVerifiers == old(invoiceVerifiers)
    {
      exporterDd := exporterDd[exporterId := ExporterDd(kycTier, ddMerkleRoot, kycStatus)];
      return true;
    }

    /**
     * `set_invoice_dd`: overwrites the fields of one invoice; each getter and each
     * `has_*` flag then returns what was passed.
     */
    method SetInvoiceDd(invoiceId: Id, docsStatus: string, docBundleHash: string, hasBl: bool, hasPo: bool, hasIns: bool)
      returns (ok: bool)
      modifies this
      ensures ok
      ensures invoiceDd == old(invoiceDd)[invoiceId :=
        InvoiceDd(docsStatus, docBundleHash, FlagBytes(hasBl), FlagBytes(hasPo), FlagBytes(hasIns))]
      ensures GetInvoiceDocsStatus(invoiceId) == docsStatus && GetInvoiceDocHash(invoiceId) == docBundleHash
      ensures HasBillOfLading(invoiceId) == hasBl && HasPurchaseOrder(invoiceId) == hasPo
      ensures HasInsurance(invoiceId) == hasIns
      ensures IsDdComplete(invoiceId) <==> "COMPLETE" <= docsStatus || "VERIFIED" <= docsStatus
      ensures forall i :: i != invoiceId ==> InvoiceFields(i) == old(InvoiceFields(i))
      ensures exporterDd == old(exporterDd)
      ensures exporterVerifiers == old(exporterVerifiers) && invoiceVerifiers == old(invoiceVerifiers)
    {
      invoiceDd := invoiceDd[invoiceId := InvoiceDd(docsStatus, docBundleHash, FlagBytes(hasBl), FlagBytes(hasPo), FlagBytes(hasIns))];
      return true;
    }

    /** `verify_exporter_dd`: records the verifier, which `get_exporter_verifier` then returns. */
    method VerifyExporterDd(exporterId: Id, verifier: string) returns (ok: bool)
      modifies this
      ensures ok
      ensures exporterVerifiers == old(exporterVerifiers)[exporterId := verifier]
      ensures GetExporterVerifier(exporterId) == verifier
      ensures exporterDd == old(exporterDd) && invoiceDd == old(invoiceDd) && invoiceVerifiers == old(invoiceVerifiers)
    {
      exporterVerifiers := exporterVerifiers[exporterId := verifier];
      return true;
    }

    /** `verify_invoice_dd`: records the verifier, which `get_invoice_verifier` then returns. */
    method VerifyInvoiceDd(invoiceId: Id, verifier: string) returns (ok: bool)
      modifies this
      ensures ok
      ensures invoiceVerifiers == old(invoiceVerifiers)[invoiceId := verifier]
      ensures GetInvoiceVerifier(invoiceId) == verifier
      ensures exporterDd == old(exporterDd) && invoiceDd == old(invoiceDd) && exporterVerifiers == old(exporterVerifiers)
    {
      invoiceVerifiers := invoiceVerifiers[invoiceId := verifier];
      return true;
    }
  }
}
