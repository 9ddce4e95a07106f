# Atlas connectors: the simulation engine, verified

The simulation engine fabricates batches of financial records together with a ground-truth manifest,
sends them through the same stamping and publishing path as live data, and answers with the manifest
resolved to source hashes. This project models that pipeline in Dafny and proves that the manifest is
true: an observer who only sees the emitted records - a deduplicator, a bank/ERP matcher, a validator
behind an amount bound, a calendar counter, a detection rule - recovers what the generator wrote down,
for every stream of random draws and every parameter value.

The generators, parameter coercion, the stamping and publishing loops, dispatch and the retry loop are
methods that loop and update state as the code does. Each is proved equal to a specification function;
the lemmas then speak about that function.

| file | what it models |
|---|---|
| Text, Decimals | printed integers, zero-padded fields and money; reading them back |
| CanonicalJson | the canonical JSON printer and a parser that undoes it |
| Calendar | Python's `date`: ordinals, weekdays, ISO text, counting days in a window |
| Random | a seeded generator as a cursor over an arbitrary stream of draws |
| Models | the record models: validation, dumping |
| GroundTruth | manifests as trees, and their enrichment with hashes |
| Sequences | counting repeats, first occurrences, positions |
| Params, CoercionTruth | `coerce_params` over typed schemas, and what it makes of what was sent |
| Fabrication | what the presets share |
| Firewall, Reconciliation, Anomaly, Forecasting, Consolidation, Ingestion | the generators |
| FirewallTruth, ReconciliationTruth, AnomalyTruth, ForecastingTruth, ConsolidationTruth | what their manifests are worth |
| FirewallObserved, ReconciliationObserved, AnomalyObserved, ForecastingObserved, ConsolidationObserved, IngestionObserved, Reading | what an observer reads: parameters as sent, labels by their text, records field by field |
| AnomalyDetection, StructuringDetection | detection rules against the labels |
| ForecastingHistory | how long a history there is |
| Emitter, Idempotency, Dispatch, Redelivery, Caps | stamping, publishing, repeated emission, the endpoint, the cap |
| Retry | `with_backoff` |

Check it all with `dafny verify dfyconfig.toml`.

## Findings

Where the code and its own account of itself part ways, the model follows the code.

* The anomaly generator says a re-emitted duplicate's hash does not collide (`finhub_anomaly.py:117-119`).
  It does as soon as two duplicate anomalies pick the same baseline flow, that is, have numbers congruent
  modulo `base_flows`; with the default four types and ten baseline flows, numbers 2 and 22 suffice.
  `AnomalyTruth.NoHashCollisionExactly` gives the exact condition, `CollisionExample` an instance.
* `expected_entities` of the consolidation manifest is the number of entities asked for, but there are only
  five labels: above five the accounts name five (`ConsolidationTruth.EntitiesAreTrueUpToFive`,
  `SixEntitiesExample`).
* The firewall's absurd amount is a decimal string, so the record model alone lets every incoherent record
  with an odd number through (`FirewallTruth.FirewallVerdict`, `AcceptedIncoherentExample`).
* The history is `days` - 5 days long, 85 at the least, thanks to the variable flows. Without them (at
  `recurring_ratio` 1, or a NaN) its length depends on the days of the month at both ends:
  `ForecastingHistory.SpanWithoutCollections` gives it exactly for every window, and
  `HistoryIsLongExactly` says when it is long enough. With seven accounts the rotation starves two of them
  (`ForecastingTruth.SevenAccountsLeaveTwoIdle`).
* A NaN passes the clamp. An infinity sent for a whole number, and an integer beyond the range of floats
  sent for a float, raise an OverflowError that coercion does not catch (`Params.CoerceOneAccepted`,
  `NaNExample`, `OverflowExample`).
* An amount outlier whose twelve medians print as 9500.00 can be taken for a structuring slice
  (`StructuringDetection.FlaggedExactly`, `LookalikeExample`).

## How the model is set up

* A seed is an arbitrary stream of draws in [0, 1), one item per call of `uniform`, `random`, `randint` or
  `choice`; a draw is known only by its range and never assumed different from another.
* Floats are reals; `round` is half to even. The values arithmetic on reals lacks (NaN and the infinities)
  exist in `Params`, where coercion meets them; the forecasting preset prints a NaN.
* Payloads are maps from text to text or null, which is all the record models produce.
* SHA-256 is any function of the bytes. Injectivity is a hypothesis, written out, of the statements
  that need it.
* `today` is any day that leaves room for the longest window before it and three days after it.
* Core is a store keyed by source hash that keeps the first record it accepts.

## Model

| member | source | states |
|---|---|---|
| CanonicalJson.CharRoundTrip | src/atlas_connectors/sim_service/emitter.py:29-31 | Every character, escaped as the printer escapes it (short escapes, `\u00XX`, surrogate pairs; RFC 8259 section 7), is read back whole whatever text follows it |
| CanonicalJson.SortSorted | src/atlas_connectors/sim_service/emitter.py:29-31 | Sorting yields strictly ascending keys |
| CanonicalJson.LessByPosition | src/atlas_connectors/sim_service/emitter.py:29-31 | What ascending means: a proper prefix comes first, otherwise the smaller code point where the keys first differ |
| CanonicalJson.SortedUnique | src/atlas_connectors/sim_service/emitter.py:29-31 | Two strictly sorted entry lists with the same entries are the same list, so insertion order cannot show |
| CanonicalJson.ParsePrint | src/atlas_connectors/sim_service/emitter.py:29-31 | A parser undoes the canonical printer: parsing a printed list of entries gives exactly these entries |
| CanonicalJson.CanonicalBytesIdentify | src/atlas_connectors/sim_service/emitter.py:29-31 | Two dictionaries print to the same canonical bytes if and only if they are equal as mappings, whatever their insertion order |
| CanonicalJson.CanonicalInjective | src/atlas_connectors/sim_service/emitter.py:29-31 | Identical payload if and only if identical bytes, on payloads as maps |
| CanonicalJson.CanonicalAscii | src/atlas_connectors/sim_service/emitter.py:29-31 | The canonical text is pure ASCII, so encoding it as UTF-8 changes nothing |
| CanonicalJson.CanonicalAscends | src/atlas_connectors/sim_service/emitter.py:29-31 | The canonical text of a payload, parsed, lists exactly its entries with each key before the next: a proper prefix of it, or smaller in code point where they first differ |
| CanonicalJson.EscapeForm | src/atlas_connectors/sim_service/emitter.py:29-31 | What each character prints as: the seven short escapes, itself when printable ASCII, otherwise `\u` and four lower-case hexadecimal digits, as a surrogate pair above U+FFFF |
| CanonicalJson.CanonicalExample | src/atlas_connectors/sim_service/emitter.py:29-31 | A payload of two entries with its exact text, separators included |
| Emitter.CanonicalPayloadBytes | src/atlas_connectors/sim_service/emitter.py:29-31 | Printing the entries in whatever order they are taken from the payload gives its canonical bytes, which, parsed, list exactly the payload's entries in ascending order of keys |
| Emitter.StampNext | src/atlas_connectors/sim_service/emitter.py:61-93 | One turn of the loop: the record is stamped with the id of the first record of its key, and the first-seen index stays exact |
| Emitter.BuildCanonicalRecords | src/atlas_connectors/sim_service/emitter.py:42-94 | Builds one stamped record per record, in order; fails if and only if some record type is unknown. Field by field: origin simulation, the request's tenant, trace, batch id, seed, preset and author, source system `sim.` and the batch's format, the hash of the canonical bytes, and the message id of the first record equal to it |
| Emitter.StampsIdentify | src/atlas_connectors/sim_service/emitter.py:54-66 | Message ids are equal exactly when type and payload are; with an injective hash, source hashes are equal exactly when payloads are |
| Emitter.RepeatedHashesOfValid | src/atlas_connectors/sim_service/emitter.py:54-67 | In a batch of valid records an injective hash repeats exactly as often as a record does, which is as often as a message id does |
| Emitter.RepeatedIds | src/atlas_connectors/sim_service/emitter.py:54-66 | The number of records given an earlier record's message id is the number of repeated records |
| Emitter.Publisher.Publish | src/atlas_connectors/kernel/http_push.py:54-63 | A publish is accepted, answered 400 (poison), answered with another error, or not answered at all; in the last two cases Core may or may not have stored the record; it keeps the first record per source hash |
| Emitter.Emit | src/atlas_connectors/sim_service/emitter.py:120-137 | Completes exactly when no transport fault strikes; then counts, hashes in order and the delivered store are exact; otherwise some prefix was handed over and delivered |
| Idempotency.PrefixAbsorbed | src/atlas_connectors/sim_service/emitter.py:120-137 | Delivering any prefix before the whole leaves the same store as the whole |
| Idempotency.ExactlyOnce | src/atlas_connectors/sim_service/emitter.py:42-137 | Any number of emissions broken off anywhere, each under its own ids, then one complete emission, leave Core exactly as one clean emission; poison depends on type and payload only, no assumption on the hash |
| Idempotency.StoreSize | src/atlas_connectors/sim_service/emitter.py:120-137 | A Core that rejects nothing keeps one record for each different source hash |
| Redelivery.EmitUntilDispatched | src/atlas_connectors/sim_service/api.py:170-190 | Dispatching under new ids until one emission completes, however the earlier ones ended, leaves Core as one clean emission would have |
| Idempotency.StoreContents | src/atlas_connectors/sim_service/emitter.py:120-137 | What Core holds in the end: what it held, and under each new hash the first accepted record with that hash |
| GroundTruth.EnrichDict | src/atlas_connectors/sim_service/emitter.py:101-115 | A dictionary gains the hash of its `record_index` or the hashes of its `record_indices` when they are in range, keeps every other entry enriched in its own right, and nothing else |
| GroundTruth.HashesAtLast | src/atlas_connectors/sim_service/emitter.py:110-114 | Each listed index in range contributes its hash, in order, a boolean counting as 0 or 1; anything else contributes nothing |
| GroundTruth.EnrichAt | src/atlas_connectors/sim_service/emitter.py:97-117 | However deep a node lies, the enriched tree holds there that node enriched |
| GroundTruth.EnrichOnlyAdds | src/atlas_connectors/sim_service/emitter.py:97-117 | Erasing the added hashes from the enriched tree gives back the original without its own |
| Dispatch.FailuresExact | src/atlas_connectors/sim_service/api.py:114-127 | A position is reported exactly when its record has no valid model |
| Dispatch.FailuresAscend | src/atlas_connectors/sim_service/api.py:114-129 | The reported positions are in ascending order |
| Dispatch.Collect | src/atlas_connectors/sim_service/api.py:114-127 | The loop returns the failing positions and, when there are none, every dumped record in order |
| Dispatch.ValidateManual | src/atlas_connectors/sim_service/api.py:110-131 | All or nothing: the whole batch as dumped by the models, or every failing position |
| Dispatch.AcceptedUnchanged | src/atlas_connectors/sim_service/api.py:110-131 | Records the models accept unchanged make, sent by hand, a batch of exactly themselves |
| Dispatch.GateShut | src/atlas_connectors/sim_service/api.py:29-35 | The gate is shut exactly when simulation is not enabled or the environment begins with `prod` in any case |
| Dispatch.EmitBatch | src/atlas_connectors/sim_service/api.py:170-190 | The publisher is handed a first part of the batch, each record stamped as simulation with the request's own provenance. Dispatched exactly when no fault strikes; then the answer lines up with the batch record by record and its ground truth carries the hashes of the batch's own payloads whatever Core rejected. A failure leaves a prefix delivered: 502 for an error answer, 500 for any other exception |
| Dispatch.Dispatch | src/atlas_connectors/sim_service/api.py:134-190 | Which of the answers is given, exactly, in the order gate, batch, cap, dry run, publisher; nothing is published short of emission, and a failed emission has delivered a prefix |
| Models.AccountRoundTrip | src/atlas_connectors/sim_service/models.py:32-44 | A valid account survives the trip through its dictionary |
| Models.FlowRoundTrip | src/atlas_connectors/sim_service/models.py:47-65 | A valid cash flow survives the trip through its dictionary, dates and optional fields included |
| Models.ErpRoundTrip | src/atlas_connectors/sim_service/models.py:68-81 | A valid ERP entry survives the trip through its dictionary |
| Models.AccountAccepted | src/atlas_connectors/sim_service/models.py:32-44 | An account is accepted if and only if all fields are texts, the IBAN is two capitals and 12 to 30 capitals or digits, the currency three capitals and the balance a decimal |
| Models.FlowAccepted | src/atlas_connectors/sim_service/models.py:47-65 | A flow is accepted if and only if its required fields are texts, IBAN and currency fit, the amount is a decimal, the direction is `credit` or `debit`, and date and time are printed ones |
| Models.ErpAccepted | src/atlas_connectors/sim_service/models.py:68-81 | The same for an ERP entry |
| Models.PayloadShowsKind | src/atlas_connectors/sim_service/models.py:85-89 | Two valid records with the same payload have the same type |
| Models.ValidateIdempotent | src/atlas_connectors/sim_service/models.py:85-89 | What validation accepts and dumps it accepts again unchanged |
| Decimals.ParseMoney | src/atlas_connectors/sim_service/generators/base.py:164-166 | Printing an amount and reading it back as a decimal gives the printed cents exactly |
| Text.CentsNearest | src/atlas_connectors/sim_service/generators/base.py:164-166 | The printed cents are within half a cent of the amount |
| Text.MoneyForm | src/atlas_connectors/sim_service/generators/base.py:164-166 | An amount prints as a minus sign if negative, the whole units without leading zeros, a point and two digits |
| Fabrication.EntityLabelIdentifies | src/atlas_connectors/sim_service/generators/base.py:169-171 | Two labels are equal exactly when their indices are congruent modulo five |
| Fabrication.TestIban | src/atlas_connectors/sim_service/generators/base.py:159-161 | Draws eighteen digits behind the fixed prefix |
| Fabrication.IbanAtValid | src/atlas_connectors/sim_service/generators/base.py:159-161 | Whatever is drawn, the IBAN satisfies the account model |
| Fabrication.IbanDigits | src/atlas_connectors/sim_service/generators/base.py:159-161 | 27 characters: `FR7699999`, then the eighteen digits in the order drawn |
| Fabrication.EntityLabelText | src/atlas_connectors/sim_service/generators/base.py:169-171 | The five texts labels end with, in turn |
| Params.ClampInRange | src/atlas_connectors/sim_service/generators/base.py:82-87 | The clamp puts everything in range except a NaN, and leaves what is in range, and a NaN, alone |
| Params.CoerceWindow | src/atlas_connectors/sim_service/generators/base.py:90-103 | The window fallback terminates when the default spells a day count, and yields a whole number |
| Params.CoerceParams | src/atlas_connectors/sim_service/generators/base.py:106-137 | The loop computes the coerced value of every entry and only those; it raises if and only if some entry's coercion does (`CoercionTruth` says what the values are) |
| Params.Defaults | src/atlas_connectors/sim_service/generators/base.py:78-79 | Every name with its default |
| Params.CoerceOneAccepted | src/atlas_connectors/sim_service/generators/base.py:82-137 | An entry raises exactly on an infinity where a whole number is wanted and on an integer beyond the floats where a float is; otherwise its value is in range or among the options exactly when no NaN was sent |
| Params.CoerceParamsSound | src/atlas_connectors/sim_service/generators/base.py:106-137 | For every well-formed schema and every input: exactly the schema's names, every value acceptable unless its entry was sent a NaN, and coercing again changes nothing |
| Params.UnknownKeysIgnored | src/atlas_connectors/sim_service/generators/base.py:106-110 | Keys outside the schema make no difference to the result |
| Params.OverflowExample | src/atlas_connectors/sim_service/generators/base.py:116-126 | 2^1024 - 2^970 sent for a ratio raises, one less is clamped; sent for a whole number it is clamped, while an infinity raises |
| Params.NaNExample | src/atlas_connectors/sim_service/generators/base.py:122-126 | The text `nan` sent for a ratio comes out as a NaN |
| Params.CoercedWindow | src/atlas_connectors/sim_service/generators/base.py:90-103 | A window entry ends in its range, at the default number of days when nothing usable was sent |
| CoercionTruth.AbsentKeepsDefault | src/atlas_connectors/sim_service/generators/base.py:111-115 | For every schema: a name not sent keeps the default of its entry, a window its default as days |
| CoercionTruth.UnusableKeepsDefault | src/atlas_connectors/sim_service/generators/base.py:116-136 | So does a whole number or float that does not convert, an enum value that is no option, and a list without an option |
| CoercionTruth.WholeIsSent | src/atlas_connectors/sim_service/generators/base.py:117-121 | A whole number comes out as sent when between the bounds and as the nearer bound otherwise; the default when none was sent or it does not convert |
| CoercionTruth.RatioIsSent | src/atlas_connectors/sim_service/generators/base.py:122-126 | The same for a ratio between 0 and 1, with NaN and the infinities |
| CoercionTruth.DaysAreSent | src/atlas_connectors/sim_service/generators/base.py:90-103 | The same for a window of days |
| CoercionTruth.ListIsSent | src/atlas_connectors/sim_service/generators/base.py:130-134 | A list comes out as the options in it, in the order listed; as the default when there are none |
| CoercionTruth.OptionIsSent | src/atlas_connectors/sim_service/generators/base.py:127-129 | An enum value comes out as sent when it is an option, as the default otherwise |
| CoercionTruth.IntReads | src/atlas_connectors/sim_service/generators/base.py:90-121 | Digits, with or without a sign, read as the number they spell; a window also reads `last-<N>d` |
| CoercionTruth.FloatReads | src/atlas_connectors/sim_service/generators/base.py:122-126 | The text of a printed amount reads as that amount |
| Firewall.FillGood | src/atlas_connectors/sim_service/generators/connect_firewall.py:72-87 | Appends the good flows; the list of good payloads refers to the very dictionaries in the batch |
| Firewall.AppendBad | src/atlas_connectors/sim_service/generators/connect_firewall.py:92-110 | One bad record, made on a copy: every earlier record still shows what it showed |
| Firewall.FillBad | src/atlas_connectors/sim_service/generators/connect_firewall.py:89-110 | All bad records, their counts and their reasons by index |
| Firewall.Run | src/atlas_connectors/sim_service/generators/connect_firewall.py:57-118 | The batch and the manifest are exactly the specified functions of parameters, draws, label and day |
| Firewall.Generate | src/atlas_connectors/sim_service/generators/connect_firewall.py:53-118 | From raw parameters: raises exactly when a conversion overflows or `bad_ratio` is a NaN, otherwise the specified batch for the coerced values (`FirewallObserved` says which these are, how many records are bad and what the reasons say) |
| FirewallTruth.DefectiveIsUnique | src/atlas_connectors/sim_service/generators/connect_firewall.py:100-108 | A record spoiled in another way than by duplication equals no other record of the batch |
| FirewallTruth.DuplicatesAreTrue | src/atlas_connectors/sim_service/generators/connect_firewall.py:92-117 | For every stream, the records given an earlier message id number `expected_duplicates` plus the accidental repeats among the good flows |
| FirewallTruth.FirewallVerdict | src/atlas_connectors/sim_service/generators/connect_firewall.py:72-110 | The record model with an amount bound rejects exactly the quarantined records; without the bound exactly the incoherent ones with odd `k` pass as well |
| FirewallTruth.AcceptedIncoherentExample | src/atlas_connectors/sim_service/generators/connect_firewall.py:92-110 | The second bad record of a ten-flow batch with the default defects is quarantined in the manifest, rejected by the bound and accepted by the record model |
| FirewallTruth.QuarantineIsTrue | src/atlas_connectors/sim_service/generators/connect_firewall.py:112-117 | A Core behind that firewall rejects as many records as `expected_quarantined`, and quarantined and duplicates make up all bad records |
| FirewallTruth.ManifestIsTrue | src/atlas_connectors/sim_service/generators/connect_firewall.py:112-117 | The three figures in the manifest against what an observer counts in the stamped records |
| FirewallTruth.ReasonAt | src/atlas_connectors/sim_service/generators/connect_firewall.py:94-109 | `per_record_reason` has every bad record under its index, with its defect |
| FirewallTruth.ReasonIsBad | src/atlas_connectors/sim_service/generators/connect_firewall.py:94-109 | `per_record_reason` has nothing else |
| FirewallObserved.ParamsAreSent | src/atlas_connectors/sim_service/generators/connect_firewall.py:42-60 | The parameters of a run in terms of what was sent, with the literal defaults and option names |
| FirewallObserved.DefaultParams | src/atlas_connectors/sim_service/generators/connect_firewall.py:42-60 | Nothing sent: 50 flows, ratio 0.3, the three defects in order |
| FirewallObserved.BadIsRoundedShare | src/atlas_connectors/sim_service/generators/connect_firewall.py:60-117 | `expected_bad` is `base_flows` times `bad_ratio` rounded to the nearest, to the even one of two as near |
| FirewallObserved.ReasonIsSent | src/atlas_connectors/sim_service/generators/connect_firewall.py:92-109 | The reason of bad record `k` is the text sent at place `k` of the list, in turn |
| FirewallObserved.ReasonShows | src/atlas_connectors/sim_service/generators/connect_firewall.py:92-110 | What each reason text says of its record: no currency; one of two absurd amounts in turn; or a good payload again |
| FirewallObserved.GoodFlowReads | src/atlas_connectors/sim_service/generators/connect_firewall.py:72-87 | A good flow read back: bounds of amount and date, direction by sign, texts |
| FirewallObserved.AccountReads | src/atlas_connectors/sim_service/generators/connect_firewall.py:62-70 | The account read back |
| FirewallTruth.CoreEndsWithDistinctGood | src/atlas_connectors/sim_service/generators/connect_firewall.py:57-118 | With an injective hash, an empty Core behind the firewall ends with one record for the account and one per distinct good flow |
| FirewallTruth.MoreBadExtends | src/atlas_connectors/sim_service/generators/connect_firewall.py:57-110 | Raising `bad_ratio` only appends records |
| Reconciliation.LegOf | src/atlas_connectors/sim_service/generators/finhub_reconciliation.py:93-97 | The ERP leg's amount and date: off by an extra draw, by three days, or not at all |
| Reconciliation.AppendPair | src/atlas_connectors/sim_service/generators/finhub_reconciliation.py:72-110 | One pair's records and manifest entry, at the cursor left by all earlier pairs |
| Reconciliation.Run | src/atlas_connectors/sim_service/generators/finhub_reconciliation.py:56-116 | The batch and the manifest are exactly the specified functions of parameters, draws, label and day |
| Reconciliation.Generate | src/atlas_connectors/sim_service/generators/finhub_reconciliation.py:52-116 | From raw parameters: raises exactly when a conversion overflows or `mismatch_ratio` is a NaN, otherwise the specified batch (`ReconciliationObserved` says for which values, how many pairs are listed and what the types say) |
| ReconciliationTruth.MatcherFindsUnbroken | src/atlas_connectors/sim_service/generators/finhub_reconciliation.py:71-110 | Matching on reference, printed amount and date finds a partner for a bank flow exactly when its pair is not listed |
| ReconciliationTruth.PartnerIsOwnLeg | src/atlas_connectors/sim_service/generators/finhub_reconciliation.py:71-110 | Whatever leg matches a bank flow is the leg of the same, unbroken pair |
| ReconciliationTruth.MatchesAreTrue | src/atlas_connectors/sim_service/generators/finhub_reconciliation.py:59-115 | Over the whole batch the matcher matches as many flows as there are unbroken pairs |
| ReconciliationTruth.RateIsTrue | src/atlas_connectors/sim_service/generators/finhub_reconciliation.py:112-115 | `expected_auto_match_rate` is the share of pairs the matcher matches, rounded to four places, and still gives the number of matches back for any number of pairs |
| ReconciliationTruth.ListedLegIsTrue | src/atlas_connectors/sim_service/generators/finhub_reconciliation.py:89-110 | Every listed `record_index` is that pair's ERP leg however many legs were left out before it, and its enriched entry carries that leg's hash |
| ReconciliationTruth.MissingLegIsMissing | src/atlas_connectors/sim_service/generators/finhub_reconciliation.py:90-92 | A pair listed without an index has no ERP leg in the batch |
| ReconciliationObserved.ParamsAreSent | src/atlas_connectors/sim_service/generators/finhub_reconciliation.py:46-59 | The parameters of a run in terms of what was sent, with the literal defaults and option names |
| ReconciliationObserved.DefaultParams | src/atlas_connectors/sim_service/generators/finhub_reconciliation.py:46-59 | Nothing sent: 100 pairs, ratio 0.15, the three mismatches in order |
| ReconciliationObserved.ListedIsRoundedShare | src/atlas_connectors/sim_service/generators/finhub_reconciliation.py:59-110 | The listed pairs number `pairs` times `mismatch_ratio` rounded to the nearest, to the even one of two as near |
| ReconciliationObserved.TypeIsSent | src/atlas_connectors/sim_service/generators/finhub_reconciliation.py:71-110 | The type listed for pair `i` is the text sent at place `i` of the list, in turn |
| ReconciliationObserved.TypeShows | src/atlas_connectors/sim_service/generators/finhub_reconciliation.py:89-110 | What each type text says of its pair: no leg at all; a leg one to fifty off on the same date; or a leg of the same amount three days late |
| ReconciliationObserved.BankFlowReads | src/atlas_connectors/sim_service/generators/finhub_reconciliation.py:71-87 | A bank flow read back |
| ReconciliationObserved.LegReads | src/atlas_connectors/sim_service/generators/finhub_reconciliation.py:93-110 | An ERP leg read back, against its bank flow |
| ReconciliationObserved.AccountReads | src/atlas_connectors/sim_service/generators/finhub_reconciliation.py:62-69 | The account read back |
| ReconciliationTruth.NothingRepeats | src/atlas_connectors/sim_service/generators/finhub_reconciliation.py:71-110 | No message id and, with an injective hash, no source hash is handed out twice |
| ReconciliationTruth.EveryRecordValid | src/atlas_connectors/sim_service/generators/finhub_reconciliation.py:62-110 | Every record passes the record models unchanged |
| Anomaly.AppendSlices | src/atlas_connectors/sim_service/generators/finhub_anomaly.py:97-114 | Five slices on one day, listed by index |
| Anomaly.AppendAnomaly | src/atlas_connectors/sim_service/generators/finhub_anomaly.py:92-154 | One anomaly's records and manifest entry |
| Anomaly.Run | src/atlas_connectors/sim_service/generators/finhub_anomaly.py:54-157 | The batch and the manifest are exactly the specified functions of parameters, draws, label and day |
| Anomaly.Generate | src/atlas_connectors/sim_service/generators/finhub_anomaly.py:51-157 | From raw parameters: raises exactly when a conversion overflows, otherwise the specified batch (`AnomalyObserved` says for which values and what the labels say) |
| AnomalyTruth.ManifestPartitions | src/atlas_connectors/sim_service/generators/finhub_anomaly.py:91-156 | The manifest's indices partition the records after the account and the baseline; a batch has at most 2251 records |
| AnomalyTruth.ListedWidth | src/atlas_connectors/sim_service/generators/finhub_anomaly.py:97-113 | A structuring entry lists five consecutive indices, any other entry one |
| AnomalyTruth.EnrichedManifestIsTrue | src/atlas_connectors/sim_service/emitter.py:97-117 | After a complete dispatch, whatever was rejected, each manifest entry carries exactly the hashes of the payloads at its indices |
| AnomalyTruth.RecordsAlike | src/atlas_connectors/sim_service/generators/finhub_anomaly.py:73-154 | Two records are equal exactly when both are duplicates of the same baseline flow |
| AnomalyTruth.NoCollisionExactly | src/atlas_connectors/sim_service/generators/finhub_anomaly.py:115-128 | No message id is handed out twice if and only if no two duplicate anomalies pick the same baseline flow |
| AnomalyTruth.NoHashCollisionExactly | src/atlas_connectors/sim_service/generators/finhub_anomaly.py:115-128 | The claim that a duplicate's source hash does not collide: with an injective hash it holds, and an empty Core that rejects nothing keeps every record, if and only if no two duplicate anomalies pick the same baseline flow |
| AnomalyTruth.FewAnomaliesNeverCollide | src/atlas_connectors/sim_service/generators/finhub_anomaly.py:115-128 | It holds whenever there are no more anomalies than baseline flows |
| AnomalyTruth.CollisionExample | src/atlas_connectors/sim_service/generators/finhub_anomaly.py:115-128 | It fails for eleven duplicates over ten baseline flows |
| AnomalyTruth.DuplicateSharesKey | src/atlas_connectors/sim_service/generators/finhub_anomaly.py:117-125 | A duplicate shares reference, amount and value date with its baseline flow while the payloads differ |
| AnomalyDetection.DuplicatesAreTrue | src/atlas_connectors/sim_service/generators/finhub_anomaly.py:115-128 | The rule "same reference, amount and value date as an earlier record" flags exactly the labelled duplicates |
| AnomalyTruth.OffHoursIsTrue | src/atlas_connectors/sim_service/generators/finhub_anomaly.py:141-154 | The rule "booked before nine" flags exactly the labelled off-hours records |
| AnomalyDetection.OutlierStandsOut | src/atlas_connectors/sim_service/generators/finhub_anomaly.py:129-140 | An outlier as printed is more than eleven times any baseline flow of its counterparty |
| AnomalyObserved.ParamsAreSent | src/atlas_connectors/sim_service/generators/finhub_anomaly.py:45-58 | The parameters of a run in terms of what was sent, with the literal defaults and type names |
| AnomalyObserved.DefaultParams | src/atlas_connectors/sim_service/generators/finhub_anomaly.py:45-58 | Nothing sent: 200 flows, 5 anomalies, the four types in order |
| AnomalyObserved.TypeIsSent | src/atlas_connectors/sim_service/generators/finhub_anomaly.py:92-156 | There is one label per anomaly, and label `k` says the text sent at place `k` of the list, in turn |
| AnomalyObserved.DuplicatesLabelled | src/atlas_connectors/sim_service/generators/finhub_anomaly.py:115-128 | The duplicate rule flags exactly the records whose manifest entry says `duplicate` |
| AnomalyObserved.OffHoursLabelled | src/atlas_connectors/sim_service/generators/finhub_anomaly.py:141-154 | The early-booking rule flags exactly the records whose manifest entry says `off_hours` |
| AnomalyObserved.OutliersLabelled | src/atlas_connectors/sim_service/generators/finhub_anomaly.py:129-140 | A record whose entry says `amount_outlier` is more than eleven times any baseline flow of its counterparty |
| AnomalyObserved.BaselineReads | src/atlas_connectors/sim_service/generators/finhub_anomaly.py:70-89 | A baseline record read back: within a twentieth of its median, counterparties in turn, on the half hour of a working hour |
| AnomalyObserved.InjectedReads | src/atlas_connectors/sim_service/generators/finhub_anomaly.py:92-154 | An injected record read back, by kind; a duplicate is its baseline flow booked seven minutes later |
| AnomalyObserved.AccountReads | src/atlas_connectors/sim_service/generators/finhub_anomaly.py:61-68 | The account read back |
| StructuringDetection.SlicesCounted | src/atlas_connectors/sim_service/generators/finhub_anomaly.py:97-140 | The 9500.00 payments of a day to a counterparty number five per structuring anomaly, plus one per outlier when twelve medians print as 9500.00 |
| StructuringDetection.FlaggedExactly | src/atlas_connectors/sim_service/generators/finhub_anomaly.py:97-140 | The rule "one of at least five 9500.00 payments on a day to a counterparty" flags every record of a structuring anomaly and, besides them, exactly the outliers that look like one |
| StructuringDetection.StructuringIsTrueExactly | src/atlas_connectors/sim_service/generators/finhub_anomaly.py:97-140 | The rule flags exactly the labelled structuring records if and only if no outlier looks like one |
| AnomalyObserved.StructuringLabelled | src/atlas_connectors/sim_service/generators/finhub_anomaly.py:97-140 | The structuring rule flags exactly the records whose manifest entry says `structuring` if and only if no outlier looks like one |
| StructuringDetection.LookalikeExample | src/atlas_connectors/sim_service/generators/finhub_anomaly.py:129-140 | A stream and parameters within the schema for which an outlier does |
| AnomalyTruth.MoreAnomaliesExtend | src/atlas_connectors/sim_service/generators/finhub_anomaly.py:70-154 | Raising `anomaly_count` only appends records |
| AnomalyTruth.EveryRecordValid | src/atlas_connectors/sim_service/generators/finhub_anomaly.py:61-154 | Every record passes the record models unchanged |
| Calendar.OrdinalOfDate | src/atlas_connectors/sim_service/generators/finhub_forecasting.py:92-96 | Stepping day by day through the Gregorian calendar agrees with the closed formula for the ordinal |
| Calendar.ParseIsoOf | src/atlas_connectors/sim_service/generators/finhub_forecasting.py:109-125 | A printed date reads back as the day it prints |
| Calendar.ParseIsoOnly | src/atlas_connectors/sim_service/models.py:54-75 | Only what a day prints as is read as that day |
| Calendar.KnownDays | src/atlas_connectors/sim_service/generators/finhub_forecasting.py:92-96 | 1 January 1970 is a Thursday; the print of 29 February 2024 |
| Calendar.IsoIdentifies | src/atlas_connectors/sim_service/generators/finhub_forecasting.py:109-125 | Two days print alike only when they are the same |
| Calendar.EveryMonthHasIt | src/atlas_connectors/sim_service/generators/finhub_forecasting.py:97-99 | Any 31 days in a row contain each day of the month up to the 28th |
| Calendar.AtMostOnce | src/atlas_connectors/sim_service/generators/finhub_forecasting.py:97-99 | Any 28 days in a row contain it at most once |
| Calendar.BusinessInWindow | src/atlas_connectors/sim_service/generators/finhub_forecasting.py:115-116 | Any window has five business days per full week and all but at most two days of the rest |
| Forecasting.AppendRecurring | src/atlas_connectors/sim_service/generators/finhub_forecasting.py:97-113 | The day's monthly flows, in order, and how many |
| Forecasting.AppendVariable | src/atlas_connectors/sim_service/generators/finhub_forecasting.py:115-131 | The day's collection if there is one, on the account whose turn it is |
| Forecasting.Run | src/atlas_connectors/sim_service/generators/finhub_forecasting.py:67-138 | The batch is exactly the specified function of its inputs, and the manifest counts its flows |
| Forecasting.Generate | src/atlas_connectors/sim_service/generators/finhub_forecasting.py:64-138 | From raw parameters, NaN included: raises exactly when a conversion overflows, otherwise the specified batch |
| ForecastingTruth.SeriesIsMonthly | src/atlas_connectors/sim_service/generators/finhub_forecasting.py:97-113 | Each series occurs once per due date of the window: at least floor(days/31) and at most ceil(days/28) times |
| ForecastingTruth.CollectionsAreDaily | src/atlas_connectors/sim_service/generators/finhub_forecasting.py:115-131 | Collections are the business days of the window, 5 per full week plus between max(0, rest - 2) and min(rest, 5); none at ratio 1 |
| ForecastingTruth.PointsAreTrue | src/atlas_connectors/sim_service/generators/finhub_forecasting.py:91-136 | `expected_history_points` is the number of cash flows in the batch |
| ForecastingObserved.ParamsAreSent | src/atlas_connectors/sim_service/generators/finhub_forecasting.py:56-73 | The parameters of a run in terms of what was sent, with the literal defaults and season names |
| ForecastingObserved.DefaultParams | src/atlas_connectors/sim_service/generators/finhub_forecasting.py:56-73 | Nothing sent: 120 days, 3 accounts, monthly, ratio 0.6, noise 0.1 |
| ForecastingObserved.ManifestSays | src/atlas_connectors/sim_service/generators/finhub_forecasting.py:133-138 | The manifest's days and the names of the four series |
| ForecastingObserved.FlowsAreThese | src/atlas_connectors/sim_service/generators/finhub_forecasting.py:92-131 | Every flow of the batch is a series on a day of the month that is its own, or a collection of its day |
| ForecastingObserved.SeriesReads | src/atlas_connectors/sim_service/generators/finhub_forecasting.py:29-113 | A monthly flow read back: twice the ratio times the base amount of its series, on the first account |
| ForecastingObserved.CollectionReads | src/atlas_connectors/sim_service/generators/finhub_forecasting.py:115-131 | A collection read back: 6000 times what the ratio leaves times the season, within the noise, on the account whose turn it is |
| ForecastingObserved.CollectionIsIncome | src/atlas_connectors/sim_service/generators/finhub_forecasting.py:37-131 | Whatever the sine, a collection lies between three quarters and five quarters of that mass, give or take the noise, and so is never a payment |
| ForecastingObserved.AccountReads | src/atlas_connectors/sim_service/generators/finhub_forecasting.py:75-87 | An account read back |
| ForecastingTruth.EveryAccountCollects | src/atlas_connectors/sim_service/generators/finhub_forecasting.py:115-131 | With variable flows and any number of accounts but seven, every account receives at least five collections |
| ForecastingTruth.SevenAccountsLeaveTwoIdle | src/atlas_connectors/sim_service/generators/finhub_forecasting.py:115-131 | With seven accounts of different IBANs exactly two never receive a collection |
| ForecastingTruth.DatesAreTrue | src/atlas_connectors/sim_service/generators/finhub_forecasting.py:92-131 | The batch has a valid flow dated a given day exactly when the day is in the window and a series or a collection falls due on it |
| ForecastingTruth.SevenIbansExample | src/atlas_connectors/sim_service/generators/finhub_forecasting.py:75-87 | There is a stream whose seven IBANs differ |
| ForecastingHistory.HistoryIsLong | src/atlas_connectors/sim_service/generators/finhub_forecasting.py:92-131 | With variable flows the first and last dated flows are at least `days` - 5 apart, whatever the day |
| ForecastingHistory.WaitExactly | src/atlas_connectors/sim_service/generators/finhub_forecasting.py:97-99 | The closed form for the days until a series next falls due |
| ForecastingHistory.SinceExactly | src/atlas_connectors/sim_service/generators/finhub_forecasting.py:97-99 | The closed form for the days since a series last fell due, across the end of a month |
| ForecastingHistory.SpanWithoutCollections | src/atlas_connectors/sim_service/generators/finhub_forecasting.py:92-113 | Without variable flows two flows at least any given span apart exist if and only if the window, less the wait at its start and the days since the last due day at its end, is that long |
| ForecastingHistory.HistoryIsLongExactly | src/atlas_connectors/sim_service/generators/finhub_forecasting.py:92-131 | The history is `days` - 5 days long if and only if there are variable flows or that wait and those days come to at most four |
| ForecastingHistory.HistoryCanBeShort | src/atlas_connectors/sim_service/generators/finhub_forecasting.py:97-113 | Without variable flows a window opening on a 13th spans at most `days` - 16 |
| ForecastingHistory.ShortHistoryExample | src/atlas_connectors/sim_service/generators/finhub_forecasting.py:92-131 | At ratio 1 the shortest history ending on 11 April 2024 spans less than 85 days |
| ForecastingTruth.NothingRepeats | src/atlas_connectors/sim_service/generators/finhub_forecasting.py:77-131 | No message id and, with an injective hash, no source hash is handed out twice |
| ForecastingTruth.EveryRecordValid | src/atlas_connectors/sim_service/generators/finhub_forecasting.py:75-131 | Every record passes the record models unchanged |
| Consolidation.AppendAccount | src/atlas_connectors/sim_service/generators/finhub_consolidation.py:59-84 | One account, its five flows, and what its printed balance adds to the total |
| Consolidation.AppendEntity | src/atlas_connectors/sim_service/generators/finhub_consolidation.py:57-84 | One entity's accounts, with total and account index carried along |
| Consolidation.Run | src/atlas_connectors/sim_service/generators/finhub_consolidation.py:48-91 | The batch and the manifest are exactly the specified functions of parameters, draws, label and day |
| Consolidation.Generate | src/atlas_connectors/sim_service/generators/finhub_consolidation.py:45-91 | From raw parameters: raises exactly when a conversion overflows, otherwise the specified batch |
| ConsolidationTruth.TotalIsSum | src/atlas_connectors/sim_service/generators/finhub_consolidation.py:55-69 | The running total is the rate-weighted sum of the balances parsed back from the emitted accounts |
| ConsolidationTruth.PrintingIsCheap | src/atlas_connectors/sim_service/generators/finhub_consolidation.py:67-69 | The total differs from that of the balances as drawn by at most half a cent per account, at its rate |
| ConsolidationTruth.EntitiesAreTrueUpToFive | src/atlas_connectors/sim_service/generators/finhub_consolidation.py:57-58 | The accounts name min(`entities`, 5) entities, which is `expected_entities` if and only if that is at most five |
| ConsolidationTruth.SixEntitiesExample | src/atlas_connectors/sim_service/generators/finhub_consolidation.py:86-87 | Six entities asked for and in the manifest, five named by the accounts |
| ConsolidationTruth.ManifestIsTrue | src/atlas_connectors/sim_service/generators/finhub_consolidation.py:86-90 | The manifest's figures against the records: accounts exactly, the total the weighted sum of the printed balances rounded to the cent, entities if and only if at most five |
| ConsolidationTruth.MoreEntitiesExtend | src/atlas_connectors/sim_service/generators/finhub_consolidation.py:57-84 | Raising `entities` only appends records |
| ConsolidationTruth.RecordsValid | src/atlas_connectors/sim_service/generators/finhub_consolidation.py:57-84 | Every record passes the record models unchanged |
| ConsolidationObserved.ParamsAreSent | src/atlas_connectors/sim_service/generators/finhub_consolidation.py:39-52 | The parameters of a run in terms of what was sent, with the literal defaults and codes |
| ConsolidationObserved.DefaultParams | src/atlas_connectors/sim_service/generators/finhub_consolidation.py:39-52 | Nothing sent: 4 entities of 2 accounts in EUR and USD |
| ConsolidationObserved.BlockAt | src/atlas_connectors/sim_service/generators/finhub_consolidation.py:57-84 | Account number `j` and its five flows are the six records from place 6 `j` |
| ConsolidationObserved.AccountReads | src/atlas_connectors/sim_service/generators/finhub_consolidation.py:59-69 | An account read back, in the currency sent at its place of the list, in turn |
| ConsolidationObserved.FlowReads | src/atlas_connectors/sim_service/generators/finhub_consolidation.py:70-84 | A flow read back: on its account and in its currency, direction by sign |
| Ingestion.AppendFlows | src/atlas_connectors/sim_service/generators/connect_ingestion.py:69-82 | One account's flows |
| Ingestion.Run | src/atlas_connectors/sim_service/generators/connect_ingestion.py:48-88 | The batch and the manifest are exactly the specified functions of parameters, draws, label and day |
| Ingestion.Generate | src/atlas_connectors/sim_service/generators/connect_ingestion.py:45-88 | From raw parameters: raises exactly when a conversion overflows, otherwise the specified batch |
| Ingestion.RecordsSize | src/atlas_connectors/sim_service/generators/connect_ingestion.py:58-82 | The batch has accounts times (1 + flows per account) records |
| Ingestion.FlowsIngested | src/atlas_connectors/sim_service/generators/connect_ingestion.py:69-82 | Every flow is on one of the batch's accounts, valid, and dated within the window |
| Ingestion.ManifestIsTrue | src/atlas_connectors/sim_service/generators/connect_ingestion.py:84-87 | `expected_accounts` and `expected_flows` are what an observer counts in the batch |
| IngestionObserved.ParamsAreSent | src/atlas_connectors/sim_service/generators/connect_ingestion.py:37-56 | The parameters of a run in terms of what was sent, with the literal defaults and codes |
| IngestionObserved.DefaultParams | src/atlas_connectors/sim_service/generators/connect_ingestion.py:37-56 | Nothing sent: 3 accounts of 30 flows over 90 days, in EUR, as `psd2` |
| IngestionObserved.AccountReads | src/atlas_connectors/sim_service/generators/connect_ingestion.py:58-67 | An account read back, in the currency sent at its place of the list, in turn |
| IngestionObserved.FlowReads | src/atlas_connectors/sim_service/generators/connect_ingestion.py:69-82 | A flow read back: on its account and in its currency, direction by sign, within the window |
| IngestionObserved.FlowPlace | src/atlas_connectors/sim_service/generators/connect_ingestion.py:69-82 | Flow `g` of account `j` is at its place among the flows |
| Caps.OthersFit | src/atlas_connectors/sim_service/api.py:142-149 | Whatever the parameters, firewall and reconciliation batches have at most 4001 records, anomaly 2251, forecasting 1470, consolidation 900: none reaches the default cap |
| Caps.DispatchIngestion | src/atlas_connectors/sim_service/api.py:134-190 | An ingestion run is refused by the cap exactly when accounts times (1 + flows) exceeds it, and then nothing is published |
| Retry.WithBackoff | src/atlas_connectors/kernel/retry.py:18-38 | Between 1 and `attempts` calls; the first success or first fatal error at once, the last retryable error only after all attempts; one sleep less than calls, each a fresh draw below the capped delay |
| Retry.OverOnce | src/atlas_connectors/kernel/retry.py:28-35 | For every sequence of outcomes there is exactly one number of calls after which the retries are over |
| Retry.DelayDoubles | src/atlas_connectors/kernel/retry.py:34-35 | The delay starts at the base and doubles with every attempt until it reaches the cap |
| Retry.SleepIsShare | src/atlas_connectors/kernel/retry.py:35-36 | A sleep is the drawn share of the delay |
| Retry.TotalSleep | src/atlas_connectors/kernel/retry.py:34-35 | Total sleep is at most the smaller of (`attempts` - 1) times the cap and `base` times (2 to the power `attempts` - 1, less 1) |

## Left out

- FastAPI routing, dependency injection, settings from the environment, the preset listing, the registry lookup by preset id: a request carries its preset's batch.
- UUIDs, event ids, timestamps, mapping version and confidence of a stamped record: none takes part in hashing or deduplication.
- SHA-256 itself and the Mersenne Twister, including how many bits a draw consumes.
- IEEE rounding of the arithmetic, and the sign of a negative zero in print (`-0.00`).
- The sine in the season factor: the batch is specified for any function of day and mode, and bounded for any sine between -1 and 1.
- Retry.TotalSleep: for non-negative delays; the method itself also covers negative ones, on which `time.sleep` refuses. Overflow of the power of two is left out.
- Models.ValidateIdempotent: payload values are text or null, dates and times are in the forms `YYYY-MM-DD` and `YYYY-MM-DDTHH:MM:00`, and decimals have ASCII digits; the models also accept other spellings.
- Dispatch.ValidateManual: gives the failing positions without the error texts, for payloads of text and null.
- Emitter.Publisher.Publish: the two real publishers, their envelopes and headers are reduced to what a call can come to; which answer Core gives is any function of the record and the fault.
- The circuit-breaker preset, the stand-alone simulator, the pull runner, the camt.053 parser and the PSD2 client: fixed-size or single-loop code that would add only easy members.
- Which counterparty names there are, beyond their number and that they differ.
