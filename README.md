# Vabble receivables: a Dafny model of the ledger contracts and two agents

This project models the Neo N3 smart contracts of the Vabble trade-receivables
marketplace, together with two of its off-chain agents. An exporter registers an
invoice. Investors hold fractional shares of it in a share ledger. A master registry
tracks each invoice's status up to settlement. Beside these sit the profile, terms and
due-diligence registries, a platform fee accumulator and a small demonstration store.
The risk agent scores an invoice and prices its yield. The onboarding agent keeps
the off-chain list of participants.

Each contract keeps its whole state in a key-value store. Each value sits under a key
made of a prefix, the ids and sometimes a separator or field suffix. In the model,
each contract is a `class` whose fields hold that store, keyed by the ids themselves:
mostly one map per key prefix. The due-diligence registry keeps one record per
exporter and per invoice, covering all of its field-suffixed keys. The platform fee
contract's three fixed keys are three plain fields. A missing key reads as the empty
string or 0, as `storage.get` does (`Common.Lookup`, `Common.GetOr`). The `StorageKeys`
module shows when keying by ids is the same as the contract's byte keys. It covers the
pair keys of the share ledger and the exporter links, the field-suffixed keys of the
due-diligence and terms registries, and how these meet the other prefixes of the
same contract.

- Pairs joined by a separator need ids without that separator. An allocation key
  needs invoice ids without `|`; a link key needs exporter ids without `:`.
- Within the share ledger, the exporter registry and the due-diligence registry,
  keys with different prefixes or field suffixes never meet (`ShareKeysDisjoint`,
  `ExporterKeysDisjoint`, `DdKeysDisjoint`).
- In the terms registry, the keys under the terms prefix never meet confirmation or
  importer profile keys (`TermsKeysDisjoint`). The keys under the terms prefix can
  alias one another (`TermsKeyCollision`).
- Where keys can collide, a concrete collision is exhibited.

Every contract operation is a method:
- its `modifies` clause names the contract object;
- its `ensures` clauses state the result and the whole new state;
- where the class has a `Valid()` invariant, every operation preserves it. The
  due-diligence registry and the simple store have none: any stored value is
  consistent.

Several scenario methods run a short sequence of calls on a fresh contract (or, in
`PlatformFee.ConfiguredFeeCycle`, on pre-filled storage). Their
ensures state the outcome of that sequence, for example that a settled invoice can be
reopened. The risk evaluation is a set of pure functions with lemmas. The onboarding
agent is a class over two in-memory maps. Modules:

- `Common`: Option, the storage reading defaults, and sums over maps.
- `NeoInteger`: the byte form in which the Neo VM stores an integer (little-endian
  two's complement, fewest bytes, zero as empty), with its decoding and a round trip.
- `Text`: Python's `str(int)` and its inverse, plus cutting and joining records at a
  separator (`split(sep, n)`, `sep.join`).
- `StorageKeys`: the byte keys of the contracts, as listed above.
- `InvestorShare`, `ReceivableRegistryV2`, `InvoiceAsset`, `ImporterTerms`,
  `ExporterRegistry`, `DdRegistry`, `ReceivableRegistryV1`, `PlatformFee`,
  `SimpleStorage`: one module per contract.
- `RiskAgent`, `OnboardingAgent`: the two agents.

Plain getters are functions of the class. They appear through the contracts of the
operations that write what they read:
- `GetInvoiceContract` and `GetShareContract` of the V2 registry;
- `GetTerms`, `GetImporter` and `GetTermsImporter` of the terms contract;
- the due-diligence field getters;
- `ReceivableRegistryV2.Registry.IsRegistered`, the non-empty test on the stored hash.

Where the code and the system's design description disagree, the model follows the
code:
- **Status order.** The design says an invoice's status only moves forward. The V2
  registry's `set_status` accepts any listed status whatever the current one is.
  `ReceivableRegistryV2.SettledInvoiceReopens` shows a settled invoice moved back to
  ACTIVE and settled a second time.
- **Face value.** The design says allocations never exceed the invoice's face value.
  The share ledger has no face value and checks nothing of the kind. Its invariant
  is per investor: redeemed ≤ allocated. It also keeps the totals equal to the sums
  of the per-investor amounts.
- **Missing parts.** The design centres on a settlement orchestrator, a
  deal-economics calculator and an investor-preference matcher. None of them is in
  the modelled code, so none is modelled.

## Model

| member | source | states |
|---|---|---|
| `InvestorShare.Ledger.constructor` | contracts/InvestorShare.py:46-51 | on empty storage every amount and both totals of every invoice read as 0 |
| `InvestorShare.Ledger.Allocate` | contracts/InvestorShare.py:59-67 | succeeds iff amount > 0; then exactly that investor's allocation and the invoice's total allocation grow by the amount; redemptions unchanged; ledger invariant kept |
| `InvestorShare.Ledger.Transfer` | contracts/InvestorShare.py:71-84 | succeeds iff 0 < amount ≤ sender's allocated − redeemed; moves the amount from sender's to receiver's allocation; totals and redemptions unchanged; invariant kept |
| `InvestorShare.Ledger.Redeem` | contracts/InvestorShare.py:88-99 | succeeds iff 0 < amount ≤ allocated − redeemed; raises that redeemed amount and the claimed total by the amount; allocations unchanged; invariant kept |
| `InvestorShare.Ledger.GetShare` | contracts/InvestorShare.py:103-107 | the returned record is exactly `str(alloc)\|str(redeemed)\|str(alloc − redeemed)`, and it parses back to the allocation, the redemption and their difference |
| `InvestorShare.ShareRecord` | contracts/InvestorShare.py:107 | the record is the three decimal numbers joined by `\|`, and it parses back to both amounts and to their difference |
| `InvestorShare.Ledger.TotalAllocated` | contracts/InvestorShare.py:110-112 | on a consistent ledger, the sum of the invoice's per-investor allocations |
| `InvestorShare.Ledger.TotalClaimed` | contracts/InvestorShare.py:115-117 | on a consistent ledger, the sum of the invoice's per-investor redemptions |
| `InvestorShare.ClaimedWithinAllocated` | contracts/InvestorShare.py:110-117 | on a consistent ledger 0 ≤ total_claimed ≤ total_allocated for every invoice |
| `InvestorShare.Add` | contracts/InvestorShare.py:62-64 | a read-add-store changes exactly one (invoice, investor) amount by delta |
| `InvestorShare.AddSum` | contracts/InvestorShare.py:65 | raising one investor's amount raises the sum over the invoice by the same delta |
| `ReceivableRegistryV2.StatusAllowed` | contracts/ReceivableRegistryV2.py:7-45 | the loop reports true iff the status is one of the five listed statuses |
| `ReceivableRegistryV2.Registry.RegisterInvoice` | contracts/ReceivableRegistryV2.py:49-56 | succeeds iff the id reads as unregistered; then stores the hash and status CREATED; shares untouched; a failure changes nothing |
| `ReceivableRegistryV2.Registry.AttachInvestorShare` | contracts/ReceivableRegistryV2.py:60-65 | succeeds iff the id is registered, and writes only its share hash |
| `ReceivableRegistryV2.Registry.SetStatus` | contracts/ReceivableRegistryV2.py:69-76 | succeeds iff the status is listed and the id registered, and then overwrites the status whatever it was |
| `ReceivableRegistryV2.Registry.Settle` | contracts/ReceivableRegistryV2.py:80-91 | succeeds iff the current status is ACTIVE or VERIFIED, and then the status is SETTLED; SETTLED, CANCELLED or no status fail with no change |
| `ReceivableRegistryV2.Registry.GetStatus` | contracts/ReceivableRegistryV2.py:111-115 | empty exactly for an id with no registration, and otherwise a listed status |
| `ReceivableRegistryV2.SettleTwice` | contracts/ReceivableRegistryV2.py:84-85 | a second settle is refused and the status stays SETTLED |
| `ReceivableRegistryV2.SettledInvoiceReopens` | contracts/ReceivableRegistryV2.py:69-76 | a SETTLED invoice is set back to ACTIVE and settled again |
| `ReceivableRegistryV2.CancelledInvoiceStays` | contracts/ReceivableRegistryV2.py:84-85 | a CANCELLED invoice cannot be settled |
| `ReceivableRegistryV2.EmptyHashRegistration` | contracts/ReceivableRegistryV2.py:50-53 | registering an empty hash writes status CREATED, yet the id still reads as unregistered: share attachment is refused and registration succeeds again |
| `InvoiceAsset.Asset.RegisterInvoice` | contracts/InvoiceAsset.py:41-74 | succeeds iff no data is stored for the id; then data is `registered` and status `issued`; a failure changes nothing |
| `InvoiceAsset.Asset.GetInvoice` | contracts/InvoiceAsset.py:77-82 | `registered` for a registered id, empty otherwise |
| `InvoiceAsset.Asset.UpdateStatus` | contracts/InvoiceAsset.py:85-93 | succeeds iff a non-empty status is stored, then stores the given status verbatim; data untouched |
| `InvoiceAsset.Asset.SettleInvoice` | contracts/InvoiceAsset.py:96-104 | succeeds iff a non-empty status is stored, then the status is `settled`; data untouched |
| `InvoiceAsset.SettleIsRepeatable` | contracts/InvoiceAsset.py:96-104 | settling twice succeeds both times and leaves `settled` |
| `InvoiceAsset.SettledInvoiceReissued` | contracts/InvoiceAsset.py:85-93 | a settled invoice accepts a new status |
| `InvoiceAsset.EmptyStatusFreezes` | contracts/InvoiceAsset.py:86-91 | after an update to the empty status, update, settle and re-registration all fail while get_invoice still reports the invoice |
| `ImporterTerms.Terms.RegisterImporter` | contracts/ImporterTerms.py:46-68 | succeeds iff the importer is unregistered; stores `company_name\|country`; afterwards the importer is registered; other maps untouched |
| `ImporterTerms.Terms.IsImporterRegistered` | contracts/ImporterTerms.py:79-83 | true exactly for the importers stored |
| `ImporterTerms.PipePair` | contracts/ImporterTerms.py:64 | an importer profile (and likewise the terms record of line 109) is never empty and, when its first field holds no `\|`, cuts back into its two fields |
| `ImporterTerms.Terms.RegisterTerms` | contracts/ImporterTerms.py:87-121 | succeeds iff no terms exist; stores the record, the yield and the importer, which read back; a failure changes nothing |
| `ImporterTerms.Terms.UpdateTerms` | contracts/ImporterTerms.py:125-147 | succeeds iff terms exist, then changes only the yield, which reads back decoded |
| `ImporterTerms.Terms.GetTermsYield` | contracts/ImporterTerms.py:163-170 | as written: the stored yield y when 0 ≤ y < 128, y + 256 when −128 ≤ y < 0, and 0 otherwise. It equals y iff 0 ≤ y < 128 |
| `ImporterTerms.Terms.GetTermsYieldDecoded` | contracts/ImporterTerms.py:163-170 | corrected reading: always the yield last put, 0 when none |
| `ImporterTerms.Terms.ConfirmPayable` | contracts/ImporterTerms.py:181-211 | succeeds iff terms exist and no confirmation is stored; records the confirmer; never changes an existing confirmation; an empty confirmer leaves the invoice unconfirmed |
| `ImporterTerms.Terms.IsConfirmed` | contracts/ImporterTerms.py:214-219 | true iff a non-empty confirmer is stored; on a consistent contract only an invoice with terms is confirmed |
| `ImporterTerms.Terms.GetConfirmer` | contracts/ImporterTerms.py:222-226 | the confirmer stored for the invoice, empty for none; a non-empty one implies the invoice has terms |
| `ImporterTerms.ExampleYieldReadsZero` | contracts/ImporterTerms.py:94 | terms registered with 850 bps read back as 0 by get_terms_yield and 850 decoded |
| `ImporterTerms.EmptyConfirmerScenario` | contracts/ImporterTerms.py:201-211 | confirming with an empty importer succeeds yet is_confirmed stays false and a second confirmation succeeds |
| `ExporterRegistry.ProfileRecord` | contracts/ExporterRegistry.py:56 | the profile is `name\|country\|sector`, of length at least 2, so never empty |
| `ExporterRegistry.ParseProfileRecord` | contracts/ExporterRegistry.py:55-57 | a profile whose name and country hold no `\|` cuts back into its three fields |
| `ExporterRegistry.Registry.RegisterProfile` | contracts/ExporterRegistry.py:36-60 | succeeds iff unregistered; stores the profile; is_registered then holds; links untouched |
| `ExporterRegistry.Registry.GetProfile` | contracts/ExporterRegistry.py:64-75 | empty exactly for an unknown exporter |
| `ExporterRegistry.Registry.IsRegistered` | contracts/ExporterRegistry.py:106-119 | true iff a profile is stored, that is, iff get_profile is not empty |
| `ExporterRegistry.Registry.IsInvoiceLinked` | contracts/ExporterRegistry.py:149-163 | a pair is linked only when its exporter is registered |
| `ExporterRegistry.Registry.UpdateProfile` | contracts/ExporterRegistry.py:79-103 | succeeds iff registered and replaces the whole record |
| `ExporterRegistry.Registry.LinkInvoice` | contracts/ExporterRegistry.py:123-146 | succeeds iff the exporter is registered; then the pair is linked; relinking succeeds and changes nothing; only registered exporters have links |
| `DdRegistry.Registry.SetExporterDd` | contracts/DDRegistry.py:56-103 | overwrites tier, merkle root and status of one exporter, which the getters then return; no other exporter or map changes |
| `DdRegistry.Registry.SetInvoiceDd` | contracts/DDRegistry.py:107-141 | overwrites one invoice's status, hash and flags; each has_* then returns exactly the flag passed; is_dd_complete follows the status passed; other invoices unchanged |
| `DdRegistry.FlagBytes` | contracts/DDRegistry.py:131-138 | a flag is stored as one byte that the has_* reading turns back into the flag |
| `DdRegistry.Registry.HasBillOfLading` | contracts/DDRegistry.py:159-163 | false for an invoice never set |
| `DdRegistry.Registry.HasPurchaseOrder` | contracts/DDRegistry.py:167-171 | false for an invoice never set |
| `DdRegistry.Registry.HasInsurance` | contracts/DDRegistry.py:175-179 | false for an invoice never set |
| `DdRegistry.StatusCompleteIsPrefix` | contracts/DDRegistry.py:240-243 | the 8-byte test holds iff the status begins with COMPLETE or VERIFIED |
| `DdRegistry.Registry.IsDdComplete` | contracts/DDRegistry.py:235-243 | true iff the stored status begins with COMPLETE or VERIFIED; false for an invoice never set |
| `DdRegistry.Registry.VerifyExporterDd` | contracts/DDRegistry.py:183-198 | records the verifier, which get_exporter_verifier then returns |
| `DdRegistry.Registry.VerifyInvoiceDd` | contracts/DDRegistry.py:202-217 | records the verifier, which get_invoice_verifier then returns |
| `ReceivableRegistryV1.RecordFields` | contracts/ReceivableRegistryV1.py:30-41 | seven fields, the sixth `registered` |
| `ReceivableRegistryV1.Record` | contracts/ReceivableRegistryV1.py:33-41 | the record holds a separator, so it is never empty |
| `ReceivableRegistryV1.ParseRecordRoundTrip` | contracts/ReceivableRegistryV1.py:17-41 | when buyer, seller and currency hold no `\|`, cutting the record into seven parts gives back every input, with `registered` sixth |
| `ReceivableRegistryV1.ParseRecordCutsBuyer` | contracts/ReceivableRegistryV1.py:33-35 | a buyer holding `\|` does not read back. The record parses, if at all, with the buyer cut at its first `\|` |
| `ReceivableRegistryV1.Registry.Register` | contracts/ReceivableRegistryV1.py:9-46 | succeeds iff the id is new; stores the record, which get_record then returns; a failure changes nothing |
| `ReceivableRegistryV1.Registry.GetRecord` | contracts/ReceivableRegistryV1.py:50-60 | empty exactly for an unknown id, the stored record otherwise |
| `PlatformFee.FeeContract.RecordFee` | contracts/PlatformFee.py:20-49 | hash unset, caller not the hash, and amount ≤ 0 each fail with their own error, checked in that order, and change nothing; success raises the balance by exactly the amount |
| `PlatformFee.FeeContract.WithStorage` | contracts/PlatformFee.py:26-39 | a contract over storage already holding the asset hash, owner and a non-negative balance, each read back as given |
| `PlatformFee.FeeContract.GetFeeBalance` | contracts/PlatformFee.py:53-61 | the balance, never negative; 0 when unset |
| `PlatformFee.FeeContract.Withdraw` | contracts/PlatformFee.py:65-92 | owner unset, caller not the owner, and balance 0 each fail with their own error, checked in that order; success sets the balance to 0 and nothing else changes |
| `PlatformFee.FeeContract.Deploy` | contracts/PlatformFee.py:96-106 | a first deployment makes the caller owner and the balance 0; an update changes nothing |
| `PlatformFee.FreshDeploymentRecordsNothing` | contracts/PlatformFee.py:26-28 | on a freshly deployed contract record_fee fails with the hash unset for every caller, and the owner has nothing to withdraw |
| `PlatformFee.ConfiguredFeeCycle` | contracts/PlatformFee.py:39-44 | with the hash set, fees of 10 and 20 accumulate to 30, and the owner's withdrawal resets the balance to 0 |
| `SimpleStorage.Storage.Store` | contracts/SimpleStorage.py:12-16 | fails iff the key is empty; otherwise writes the value, which retrieve returns |
| `SimpleStorage.Storage.Retrieve` | contracts/SimpleStorage.py:20-24 | None exactly for a key never written, else the value last stored |
| `SimpleStorage.Storage.Counter` | contracts/SimpleStorage.py:37-39 | 0 while the counter key was never written, else its value read as an integer |
| `SimpleStorage.Storage.Increment` | contracts/SimpleStorage.py:28-33 | returns the previous counter plus one, which is then the counter; only the counter key changes |
| `SimpleStorage.CounterCounts` | contracts/SimpleStorage.py:28-39 | the counter reads 0, then 1 and 2 after two increments |
| `SimpleStorage.StoreOverwritesCounter` | contracts/SimpleStorage.py:8-16 | storing "A" under `counter` sets the counter to 65 |
| `RiskAgent.DaysUntilDue` | agents/risk_agent.py:47-49 | never negative; the whole days left (floor) before the due date, 0 once fewer than one day remains |
| `RiskAgent.RiskScore` | agents/risk_agent.py:52-73 | always in 1..5 |
| `RiskAgent.Evaluate` | agents/risk_agent.py:22-92 | score in 1..5; yield = 300 + 100·score, so in 400..800 |
| `RiskAgent.RiskScoreIsPoints` | agents/risk_agent.py:52-73 | the cap never bites: score = 1 + amount points (2 above 1,000,000, 1 above 500,000) + term points (2 beyond 90 days, 1 beyond 60) |
| `RiskAgent.CountryIndependent` | agents/risk_agent.py:66-69 | the debtor country never changes the evaluation |
| `RiskAgent.DaysMonotone` | agents/risk_agent.py:49 | a later due date never gives fewer days |
| `RiskAgent.EvaluateMonotone` | agents/risk_agent.py:55-64 | at a fixed time a larger amount or later due date never lowers score or yield |
| `RiskAgent.EvaluateExtremes` | agents/risk_agent.py:52-76 | a small invoice due now scores 1 and yields 400; 2,000,000 due in 100 days scores 5 and yields 800 |
| `OnboardingAgent.Registry.RegisterExporter` | agents/onboarding_agent.py:48-95 | always succeeds; a known wallet keeps its record and gets "Exporter already registered" with it; an unknown one is inserted with no registration time and gets "Exporter registered successfully"; investors untouched |
| `OnboardingAgent.Registry.RegisterInvestor` | agents/onboarding_agent.py:97-144 | the same insert-if-absent behaviour with type in place of country and the investor messages; exporters untouched |
| `OnboardingAgent.Registry.GetExporter` | agents/onboarding_agent.py:146-149 | the empty record exactly for an unknown wallet, else that wallet's record |
| `OnboardingAgent.Registry.GetInvestor` | agents/onboarding_agent.py:151-154 | the empty record exactly for an unknown wallet, else that wallet's record |
| `OnboardingAgent.DuplicateExporterKeepsFirst` | agents/onboarding_agent.py:70-76 | a second registration of a wallet keeps the first record and reports it as already registered |
| `OnboardingAgent.WalletInBothRoles` | agents/onboarding_agent.py:86-135 | one wallet can be both an exporter and an investor, one record in each map |
| `NeoInteger.Encode` | contracts/SimpleStorage.py:31-32 | an integer is stored as the empty value exactly when it is 0 |
| `NeoInteger.EncodeDecode` | contracts/SimpleStorage.py:28-39 | every stored integer reads back as itself |
| `NeoInteger.EncodeLength` | contracts/ImporterTerms.py:163-170 | an integer takes one byte iff it lies in −128..127 and is not 0, and that byte is n or n + 256 |
| `NeoInteger.SingleByteValueRoundTrip` | contracts/ImporterTerms.py:163-170 | the single-byte reading gives back a stored integer iff it lies in 0..127 |
| `NeoInteger.SingleByteValueLoses850` | contracts/ImporterTerms.py:94 | 850 is stored as the bytes 82, 3; the single-byte reading gives 0; the full decoding gives 850 |
| `Text.ParseIntToString` | contracts/InvestorShare.py:107 | decimal `str(n)` parses back to n for every integer |
| `Text.SplitNJoined` | contracts/ReceivableRegistryV1.py:33-41 | cutting a `\|`-joined record as often as it has inner separators gives back the fields when none but the last holds one |
| `StorageKeys.AllocKeyInjective` | contracts/InvestorShare.py:30-35 | without `\|` in invoice ids, allocation keys of two pairs are equal iff the pairs are |
| `StorageKeys.AllocKeyCollision` | contracts/InvestorShare.py:30-35 | the pairs ("a\|b", "c") and ("a", "b\|c") share their allocation and redemption keys |
| `StorageKeys.ShareKeysDisjoint` | contracts/InvestorShare.py:5-8 | allocation, redemption and the two total keys never coincide |
| `StorageKeys.LinkKeyInjective` | contracts/ExporterRegistry.py:142 | without `:` in exporter ids, link keys of two pairs are equal iff the pairs are |
| `StorageKeys.LinkKeyCollision` | contracts/ExporterRegistry.py:142 | the pairs ("a:b", "c") and ("a", "b:c") share one link key |
| `StorageKeys.ExporterKeysDisjoint` | contracts/ExporterRegistry.py:11-12 | profile keys never meet link keys and are one per exporter |
| `StorageKeys.TermsKeyCollision` | contracts/ImporterTerms.py:101-118 | the terms record of invoice `X:yield` is stored where the yield of invoice `X` is, and likewise for `:importer` |
| `StorageKeys.TermsKeysDisjoint` | contracts/ImporterTerms.py:15-17 | a terms, yield or terms-importer key never equals a confirmation key or an importer profile key, and confirmation keys never equal profile keys |
| `StorageKeys.ExporterDdKeyInjective` | contracts/DDRegistry.py:70-78 | every field of every exporter has its own key |
| `StorageKeys.InvoiceDdKeyInjective` | contracts/DDRegistry.py:123-137 | every field of every invoice has its own key |
| `StorageKeys.DdKeysDisjoint` | contracts/DDRegistry.py:18-19 | exporter fields, invoice fields and the two verifier records never share a key |

## Left out

- Contract events (`CreateNewEvent` emissions), `ping` and `_initialize`: they write no storage.
- The byte encoding of stored values is a runtime matter. It is modelled only where a reading depends on it: the Neo integer form behind `get_terms_yield` and the SimpleStorage counter. The share ledger's `serialize`/`deserialize` of amounts is taken as exact. Texts and byte strings are both `string`.
- Caller identity and ids are plain strings; `runtime.calling_script_hash` is a parameter of `RecordFee`, `Withdraw` and `Deploy`.
- The Neo VM's bounds on integers (32-byte stack integers) and on storage keys and values; integers here are unbounded.
- The terms contract's keys under its terms prefix can alias each other (`StorageKeys.TermsKeyCollision`). The model keeps terms, yields and importers in separate maps, so its writes and its guards hold only for invoice ids that do not end in `:yield` or `:importer`. It does not capture a terms record written over another invoice's yield. Nor does it capture the guards reading another invoice's key: `register_terms("X:yield", …)` is refused whenever invoice X's yield is non-zero, and `confirm_payable("X:importer", …)` passes its terms check once X has a non-empty importer.
- Pair keys with a separator inside an id (`StorageKeys.AllocKeyCollision`, `StorageKeys.LinkKeyCollision`). The model's pair-keyed maps are the contracts' stores only for ids without the separator.
- PlatformFee.FeeContract.RecordFee: its success branch is stated as if the write commits. All four PlatformFee methods are marked `@public(safe=True)` (contracts/PlatformFee.py:19, 52, 64, 95). Under Neo N3's call flags a safe method runs without WriteStates or AllowNotify, so the `storage.put` and `FeeRecorded` calls (lines 39-47) would fault the invocation. The call-flag rules of the runtime are not modelled.
- PlatformFee.FeeContract.Withdraw: likewise, the `storage.put` that resets the balance (line 87) runs under a safe method and would fault the invocation, so no withdrawal could commit; the model states the reset as written.
- PlatformFee.FeeContract.Deploy: the `storage.put` calls of lines 103-104 run under a safe method too. Inside `_deploy`, `runtime.calling_script_hash` is the hash of the ContractManagement native contract, not the deployer, so the owner recorded is not the deployer. The model takes the calling hash as a parameter.
- PlatformFee.FeeContract.WithStorage: no other contract can write this contract's storage, so the pre-filled asset hash, and with it `PlatformFee.ConfiguredFeeCycle`, describe a state no deployment reaches. They show what the guards and arithmetic do once the hash is set.
- PlatformFee: the `data` argument of `_deploy` is unused and not modelled. An exception aborting the invocation is a `Failure` result with the state unchanged. The recipient of `withdraw` receives nothing in the code and is unused in the model.
- SimpleStorage: whether the runtime's `get` yields None or empty bytes for a missing key belongs to the runtime. The model follows the code's reading: None for a key never written. Values are their bytes; UTF-8 decoding in `to_str` is not modelled.
- RiskAgent: the rationale string (float and thousands-separator formatting), logging, the `debtor_name` field and the wall clock (a parameter `now`). `str.upper` is modelled for ASCII letters only; the high-risk list is empty, so this never matters.
- OnboardingAgent: loading and saving `data/participants.json`, error swallowing and logging. The file is abstracted as two in-memory maps that start empty, as the file the agent creates.
- The listing, funding, settlement and voice agents, the base agent, the CLI, deployment and test-flow scripts, and the chat agents under `scripts/agent/`: network, file and process plumbing around the contracts.
- The settlement orchestrator, deal-economics calculator and investor-preference matcher of the design description do not exist in the modelled code.

## Findings

| source | as written | input that shows it | evidently intended | confidence | as-written member | corrected member |
|---|---|---|---|---|---|---|
| contracts/ImporterTerms.py:163-170 | `get_terms_yield` reads the stored yield as one unsigned byte, and as 0 when the stored value is longer | `register_terms(inv, imp, 850, "USD", "CH")`: 850 is stored as the bytes 82, 3, so `get_terms_yield(inv)` returns 0. A yield of −5 reads as 251 | return the yield last stored, e.g. 850 for the documented 8.5% | high (the contract's own example value is lost); not executed | `ImporterTerms.Terms.GetTermsYield`, `NeoInteger.SingleByteValueRoundTrip`, `ImporterTerms.ExampleYieldReadsZero` | `ImporterTerms.Terms.GetTermsYieldDecoded`, `NeoInteger.EncodeDecode` |
