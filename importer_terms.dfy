/**
 * The importer terms contract: register-once importer profiles, register-once
 * financing terms per invoice (a `currency|jurisdiction` record, a maximum yield in
 * basis points and the importer that set them), yield updates, and a confirm-once
 * payable commitment.
 *
 * The yield is stored as an integer, so storage holds its Neo byte form
 * (`NeoInteger.Encode`). `get_terms_yield` reads that back as a single unsigned
 * byte, which is the integer only for 0..127; `GetTermsYieldDecoded` is the reading
 * that gives back every stored yield.
 */
module ImporterTerms {
  import opened Common
  import Text
  import NeoInteger

  /**
   * The two-field record both registrations store: `company_name|country` for an
   * importer and `currency|jurisdiction` for terms.
   */
  function PipePair(first: string, second: string): (s: string)
    ensures |s| > 0
    ensures '|' !in first ==> Text.SplitOnce(s, '|') == Some((first, second))
  {
    Text.Join(first, '|', second)
  }

  class Terms {
    var importers: map<Id, string>
    var terms: map<Id, string>
    /** The integer last put under each yield key; storage holds `NeoInteger.Encode` of it. */
    var maxYields: map<Id, int>
    var termsImporters: map<Id, string>
    var confirmations: map<Id, string>

    /**
     * Every stored profile and terms record is non-empty, so a stored key reads as
     * present, and only invoices with terms carry a confirmation.
     */
    ghost predicate Valid()
      reads this
    {
      && (forall id :: id in importers ==> importers[id] != "")
      && (forall id :: id in terms ==> terms[id] != "")
      && (forall id :: id in confirmations ==> id in terms)
    }

    constructor ()
      ensures Valid()
      ensures importers == map[] && terms == map[] && maxYields == map[]
      ensures termsImporters == map[] && confirmations == map[]
    {
      importers, terms, maxYields := map[], map[], map[];
      termsImporters, confirmations := map[], map[];
    }

    function GetImporter(importerId: Id): string
      reads this
    {
      Lookup(importers, importerId)
    }

    /** `is_importer_registered`: true exactly for the ids a registration went through for. */
    function IsImporterRegistered(importerId: Id): (r: bool)
      reads this
      requires Valid()
      ensures r <==> importerId in importers
    {
      |Lookup(importers, importerId)| > 0
    }

    function GetTerms(invoiceId: Id): string
      reads this
    {
      Lookup(terms, invoiceId)
    }

    function GetTermsImporter(invoiceId: Id): string
      reads this
    {
      Lookup(termsImporters, invoiceId)
    }

    /** The bytes under the yield key of an invoice; empty when nothing (or 0) was put. */
    function StoredYield(invoiceId: Id): seq<byte>
      reads this
    {
      NeoInteger.Encode(GetOr(maxYields, invoiceId, 0))
    }

    /**
     * `get_terms_yield` as written: 0 for an empty value, the byte itself for a
     * one-byte value, and 0 for anything longer. It is the stored yield exactly when
     * that lies in 0..127; a yield of -128..-1 reads 256 higher, and any other reads 0.
     */
    function GetTermsYield(invoiceId: Id): (r: int)
      reads this
      ensures var y := GetOr(maxYields, invoiceId, 0);
        r == (if 0 <= y < 128 then y else if -128 <= y < 0 then y + 256 else 0)
      ensures r == GetOr(maxYields, invoiceId, 0) <==> 0 <= GetOr(maxYields, invoiceId, 0) < 128
    {
      var raw := StoredYield(invoiceId);
      NeoInteger.SingleByteValueOfEncode(GetOr(maxYields, invoiceId, 0));
      if |raw| == 0 then 0
      else if |raw| == 1 then raw[0]
      else 0
    }

    /** The stored yield decoded in full: always the integer last put, 0 when none. */
    function GetTermsYieldDecoded(invoiceId: Id): (r: int)
      reads this
      ensures r == GetOr(maxYields, invoiceId, 0)
    {
      NeoInteger.EncodeDecode(GetOr(maxYields, invoiceId, 0));
      NeoInteger.Decode(StoredYield(invoiceId))
    }

    /**
     * `is_confirmed`: a non-empty confirmer is stored. Only an invoice that has terms
     * can be confirmed.
     */
    function IsConfirmed(invoiceId: Id): (r: bool)
      reads this
      ensures r <==> GetConfirmer(invoiceId) != ""
      ensures Valid() && r ==> GetTerms(invoiceId) != ""
    {
      |Lookup(confirmations, invoiceId)| > 0
    }

    /** `get_confirmer`: the importer recorded by the confirmation, empty for none. */
    function GetConfirmer(invoiceId: Id): (c: string)
      reads this
      ensures c != "" ==> invoiceId in confirmations && c == confirmations[invoiceId]
      ensures Valid() && c != "" ==> GetTerms(invoiceId) != ""
    {
      Lookup(confirmations, invoiceId)
    }

    /** `register_importer`: once per id, storing `company_name|country`. */
    method RegisterImporter(importerId: Id, companyName: string, country: string) returns (ok: bool)
      requires Valid()
      modifies this
      ensures Valid()
      ensures ok <==> !old(IsImporterRegistered(importerId))
      ensures importers == if ok then old(importers)[importerId := PipePair(companyName, country)] else old(importers)
      ensures ok ==> IsImporterRegistered(importerId)
      ensures terms == old(terms) && maxYields == old(maxYields)
      ensures termsImporters == old(termsImporters) && confirmations == old(confirmations)
    {
      var existing := Lookup(importers, importerId);
      if |existing| > 0 {
        return false;
      }
      importers := importers[importerId := PipePair(companyName, country)];
      return true;
    }

    /**
     * `register_terms`: once per invoice, storing the terms record, the yield and the
     * importer. The importer need not be registered.
     */
    method RegisterTerms(invoiceId: Id, importerId: Id, maxYieldBps: int, currency: string, jurisdiction: string)
      returns (ok: bool)
      requires Valid()
      modifies this
      ensures Valid()
      ensures ok <==> old(GetTerms(invoiceId)) == ""
      ensures ok ==> terms == old(terms)[invoiceId := PipePair(currency, jurisdiction)]
      ensures ok ==> maxYields == old(maxYields)[invoiceId := maxYieldBps]
      ensures ok ==> termsImporters == old(termsImporters)[invoiceId := importerId]
      ensures ok ==> GetTermsYieldDecoded(invoiceId) == maxYieldBps && GetTermsImporter(invoiceId) == importerId
      ensures !ok ==> terms == old(terms) && maxYields == old(maxYields) && termsImporters == old(termsImporters)
      ensures importers == old(importers) && confirmations == old(confirmations)
    {
      var existing := Lookup(terms, invoiceId);
      if |existing| > 0 {
        return false;
      }
      terms := terms[invoiceId := PipePair(currency, jurisdiction)];
      maxYields := maxYields[invoiceId := maxYieldBps];
      termsImporters := termsImporters[invoiceId := importerId];
      return true;
    }

    /** `update_terms`: only the yield of existing terms changes. */
    method UpdateTerms(invoiceId: Id, maxYieldBps: int) returns (ok: bool)
      requires Valid()
      modifies this
      ensures Valid()
      ensures ok <==> old(GetTerms(invoiceId)) != ""
      ensures maxYields == if ok then old(maxYields)[invoiceId := maxYieldBps] else old(maxYields)
      ensures ok ==> GetTermsYieldDecoded(invoiceId) == maxYieldBps
      ensures importers == old(importers) && terms == old(terms)
      ensures termsImporters == old(termsImporters) && confirmations == old(confirmations)
    {
      var existing := Lookup(terms, invoiceId);
      if |existing| == 0 {
        return false;
      }
      maxYields := maxYields[invoiceId := maxYieldBps];
      return true;
    }

    /**
     * `confirm_payable`: needs terms and no earlier confirmation, and records the
     * confirming importer, which is not compared with the importer of the terms.
     * Confirming with an empty importer id succeeds yet leaves the invoice unconfirmed.
     * No confirmation already made is changed.
     */
    method ConfirmPayable(invoiceId: Id, importerId: Id) returns (ok: bool)
      requires Valid()
      modifies this
      ensures Valid()
      ensures ok <==> old(GetTerms(invoiceId)) != "" && !old(IsConfirmed(invoiceId))
      ensures confirmations == if ok then old(confirmations)[invoiceId := importerId] else old(confirmations)
      ensures ok ==> (IsConfirmed(invoiceId) <==> importerId != "")
      ensures forall i :: old(IsConfirmed(i)) ==> IsConfirmed(i) && GetConfirmer(i) == old(GetConfirmer(i))
      ensures importers == old(importers) && terms == old(terms)
      ensures maxYields == old(maxYields) && termsImporters == old(termsImporters)
    {
      var existing := Lookup(terms, invoiceId);
      if |existing| == 0 {
        return false;
      }
      var already := Lookup(confirmations, invoiceId);
      if |already| > 0 {
        return false;
      }
      confirmations := confirmations[invoiceId := importerId];
      return true;
    }
  }

  /**
   * The documented example yield of 850 basis points, registered and read back:
   * `get_terms_yield` gives 0 while the full decoding gives 850.
   */
  method ExampleYieldReadsZero() returns (registered: bool, asWritten: int, decoded: int)
    ensures registered && asWritten == 0 && decoded == 850
  {
    var t := new Terms();
    registered := t.RegisterTerms("inv-1", "imp-1", 850, "USD", "CH");
    asWritten := t.GetTermsYield("inv-1");
    decoded := t.GetTermsYieldDecoded("inv-1");
  }

  /** A confirmation with an empty importer id is accepted, but the invoice is still unconfirmed and can be confirmed again. */
  method EmptyConfirmerScenario() returns (first: bool, confirmed: bool, second: bool)
    ensures first && !confirmed && second
  {
    var t := new Terms();
    var _ := t.RegisterTerms("inv-1", "imp-1", 100, "USD", "CH");
    first := t.ConfirmPayable("inv-1", "");
    confirmed := t.IsConfirmed("inv-1");
    second := t.ConfirmPayable("inv-1", "imp-2");
  }
}
