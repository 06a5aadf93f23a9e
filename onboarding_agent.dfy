/**
 * The onboarding agent's participant registry: exporters and investors keyed by
 * wallet address, each inserted only when absent. The JSON file it loads and saves
 * is abstracted as the two in-memory maps, starting empty as the file it creates.
 */
module OnboardingAgent {
  import opened Common

  /** A participant record; `Empty` is the empty dictionary returned for an unknown wallet. */
  datatype Participant =
    | Empty
    | Exporter(walletAddress: string, name: string, country: string, registeredAt: Option<int>)
    | Investor(walletAddress: string, name: string, investorType: string, registeredAt: Option<int>)

  /** The result dictionary of a registration. */
  datatype Registration = Registration(success: bool, message: string, data: Participant)

  const ExporterExists: string := "Exporter already registered"
  const ExporterAdded: string := "Exporter registered successfully"
  const InvestorExists: string := "Investor already registered"
  const InvestorAdded: string := "Investor registered successfully"

  class Registry {
    var exporters: map<string, Participant>
    var investors: map<string, Participant>

    /** Every record is of its map's kind and is stored under its own wallet address. */
    ghost predicate Valid()
      reads this
    {
      && (forall w :: w in exporters ==> exporters[w].Exporter? && exporters[w].walletAddress == w)
      && (forall w :: w in investors ==> investors[w].Investor? && investors[w].walletAddress == w)
    }

    constructor ()
      ensures Valid()
      ensures exporters == map[] && investors == map[]
    {
      exporters, investors := map[], map[];
    }

    /** `get_exporter`: the stored record, or the empty record for an unknown wallet. */
    function GetExporter(walletAddress: string): (p: Participant)
      reads this
      requires Valid()
      ensures p.Empty? <==> walletAddress !in exporters
      ensures p.Exporter? ==> p.walletAddress == walletAddress
    {
      GetOr(exporters, walletAddress, Empty)
    }

    /** `get_investor`: the stored record, or the empty record for an unknown wallet. */
    function GetInvestor(walletAddress: string): (p: Participant)
      reads this
      requires Valid()
      ensures p.Empty? <==> walletAddress !in investors
      ensures p.Investor? ==> p.walletAddress == walletAddress
    {
      GetOr(investors, walletAddress, Empty)
    }

    /**
     * `register_exporter`: always succeeds. A known wallet keeps its record, which is
     * returned; an unknown one is inserted with no registration time. Investors are untouched.
     */
    method RegisterExporter(walletAddress: string, name: string, country: string) returns (r: Registration)
      requires Valid()
      modifies this
      ensures Valid()
      ensures r.success
      ensures walletAddress in old(exporters) ==>
        r == Registration(true, ExporterExists, old(exporters)[walletAddress]) && exporters == old(exporters)
      ensures walletAddress !in old(exporters) ==>
        && r == Registration(true, ExporterAdded, Exporter(walletAddress, name, country, None))
        && exporters == old(exporters)[walletAddress := r.data]
      ensures GetExporter(walletAddress) == r.data
      ensures investors == old(investors)
    {
      if walletAddress in exporters {
        return Registration(true, ExporterExists, exporters[walletAddress]);
      }
      var exporterData := Exporter(walletAddress, name, country, None);
      exporters := exporters[walletAddress := exporterData];
      return Registration(true, ExporterAdded, exporterData);
    }

    /**
     * `register_investor`: always succeeds. A known wallet keeps its record, which is
     * returned; an unknown one is inserted with no registration time. Exporters are untouched.
     */
    method RegisterInvestor(walletAddress: string, name: string, investorType: string) returns (r: Registration)
      requires Valid()
      modifies this
      ensures Valid()
      ensures r.success
      ensures walletAddress in old(investors) ==>
        r == Registration(true, InvestorExists, old(investors)[walletAddress]) && investors == old(investors)
      ensures walletAddress !in old(investors) ==>
        && r == Registration(true, InvestorAdded, Investor(walletAddress, name, investorType, None))
        && investors == old(investors)[walletAddress := r.data]
      ensures GetInvestor(walletAddress) == r.data
      ensures exporters == old(exporters)
    {
      if walletAddress in investors {
        return Registration(true, InvestorExists, investors[walletAddress]);
      }
      var investorData := Investor(walletAddress, name, investorType, None);
      investors := investors[walletAddress := investorData];
      return Registration(true, InvestorAdded, investorData);
    }
  }

  /** A second registration of the same wallet keeps the first name and reports it as already registered. */
  method DuplicateExporterKeepsFirst() returns (first: Registration, second: Registration, stored: Participant)
    ensures first.message == ExporterAdded && second.message == ExporterExists
    ensures second.data == first.data && stored == Exporter("NXwallet", "Cacao Co", "VE", None)
  {
    var registry := new Registry();
    first := registry.RegisterExporter("NXwallet", "Cacao Co", "VE");
    second := registry.RegisterExporter("NXwallet", "Other Name", "CO");
    stored := registry.GetExporter("NXwallet");
  }

  /** The same wallet can be both an exporter and an investor, each in its own map. */
  method WalletInBothRoles() returns (exporter: Participant, investor: Participant)
    ensures exporter == Exporter("NXwallet", "Cacao Co", "VE", None)
    ensures investor == Investor("NXwallet", "Fund One", "fund", None)
  {
    var registry := new Registry();
    var _ := registry.RegisterExporter("NXwallet", "Cacao Co", "VE");
    var _ := registry.RegisterInvestor("NXwallet", "Fund One", "fund");
    exporter := registry.GetExporter("NXwallet");
    investor := registry.GetInvestor("NXwallet");
  }
}
