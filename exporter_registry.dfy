/**
 * The exporter registry: a register-once `company_name|country|sector` profile per
 * exporter id, whole-record updates of existing profiles, and links from an
 * exporter to invoice ids. A link is a stored "1" under
 * `prefix + exporter + ":" + invoice`; here the links are a set of pairs, which is
 * the same store when exporter ids hold no ':' (StorageKeys.LinkKeyInjective).
 */
module ExporterRegistry {
  import opened Common
  import Text

  /** `company_name|country|sector`. */
  function ProfileRecord(companyName: string, country: string, sector: string): (s: string)
    ensures s == companyName + "|" + country + "|" + sector
    ensures |s| >= 2
  {
    var rest := Text.Join(country, '|', sector);
    assert companyName + "|" + country + "|" + sector == companyName + ['|'] + rest;
    Text.Join(companyName, '|', rest)
  }

  /** The three fields of a profile record, cut at its first two separators. */
  function ParseProfile(s: string): Option<(string, string, string)>
  {
    match Text.SplitOnce(s, '|')
    case None => None
    case Some(p) =>
      match Text.SplitOnce(p.1, '|')
      case None => None
      case Some(q) => Some((p.0, q.0, q.1))
  }

  /** A profile whose name and country hold no '|' reads back as its three fields. */
  lemma ParseProfileRecord(companyName: string, country: string, sector: string)
    requires '|' !in companyName && '|' !in country
    ensures ParseProfile(ProfileRecord(companyName, country, sector)) == Some((companyName, country, sector))
  {
    var rest := Text.Join(country, '|', sector);
    assert ProfileRecord(companyName, country, sector) == Text.Join(companyName, '|', rest);
  }

  class Registry {
    var profiles: map<Id, string>
    var links: set<(Id, Id)>

    /** Every stored profile is non-empty, and only registered exporters have links. */
    ghost predicate Valid()
      reads this
    {
      && (forall e :: e in profiles ==> profiles[e] != "")
      && (forall e, i :: (e, i) in links ==> e in profiles)
    }

    constructor ()
      ensures Valid()
      ensures profiles == map[] && links == {}
    {
      profiles, links := map[], {};
    }

    /** `get_profile`: the stored record, empty bytes for an unknown exporter. */
    function GetProfile(exporterId: Id): (r: string)
      reads this
      requires Valid()
      ensures r == "" <==> exporterId !in profiles
    {
      Lookup(profiles, exporterId)
    }

    /** `is_registered`: a non-empty profile is stored, that is, `get_profile` is not empty. */
    function IsRegistered(exporterId: Id): (r: bool)
      reads this
      ensures Valid() ==> (r <==> exporterId in profiles)
      ensures Valid() ==> (r <==> GetProfile(exporterId) != "")
    {
      |Lookup(profiles, exporterId)| > 0
    }

    /** `is_invoice_linked`: only a registered exporter has linked invoices. */
    function IsInvoiceLinked(exporterId: Id, invoiceId: Id): (r: bool)
      reads this
      ensures Valid() && r ==> IsRegistered(exporterId)
    {
      (exporterId, invoiceId) in links
    }

    /** `register_profile`: once per exporter. */
    method RegisterProfile(exporterId: Id, companyName: string, country: string, sector: string) returns (ok: bool)
      requires Valid()
      modifies this
      ensures Valid()
      ensures ok <==> !old(IsRegistered(exporterId))
      ensures profiles == if ok then old(profiles)[exporterId := ProfileRecord(companyName, country, sector)] else old(profiles)
      ensures ok ==> IsRegistered(exporterId)
      ensures links == old(links)
    {
      var existing := Lookup(profiles, exporterId);
      if |existing| > 0 {
        return false;
      }
      profiles := profiles[exporterId := ProfileRecord(companyName, country, sector)];
      return true;
    }

    /** `update_profile`: replaces the whole record of a registered exporter. */
    method UpdateProfile(exporterId: Id, companyName: string, country: string, sector: string) returns (ok: bool)
      requires Valid()
      modifies this
      ensures Valid()
      ensures ok <==> old(IsRegistered(exporterId))
      ensures profiles == if ok then old(profiles)[exporterId := ProfileRecord(companyName, country, sector)] else old(profiles)
      ensures IsRegistered(exporterId) == old(IsRegistered(exporterId))
      ensures links == old(links)
    {
      var existing := Lookup(profiles, exporterId);
      if |existing| == 0 {
        return false;
      }
      profiles := profiles[exporterId := ProfileRecord(companyName, country, sector)];
      return true;
    }

    /** `link_invoice`: for a registered exporter; linking again changes nothing and succeeds. */
    method LinkInvoice(exporterId: Id, invoiceId: Id) returns (ok: bool)
      requires Valid()
      modifies this
      ensures Valid()
      ensures ok <==> old(IsRegistered(exporterId))
      ensures links == if ok then old(links) + {(exporterId, invoiceId)} else old(links)
      ensures ok ==> IsInvoiceLinked(exporterId, invoiceId)
      ensures old(IsInvoiceLinked(exporterId, invoiceId)) ==> ok && links == old(links)
      ensures profiles == old(profiles)
    {
      var existing := Lookup(profiles, exporterId);
      if |existing| == 0 {
        return false;
      }
      links := links + {(exporterId, invoiceId)};
      return true;
    }
  }
}
