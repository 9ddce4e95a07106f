/** Which presets can reach the cap on records per run, and what happens to a batch that does. */
module Caps {
  import opened Options
  import opened Fabrication
  import opened Params
  import opened Emitter
  import opened Dispatch
  import Firewall
  import Reconciliation
  import ReconciliationTruth
  import Anomaly
  import AnomalyTruth
  import Forecasting
  import ForecastingTruth
  import Consolidation
  import ConsolidationTruth
  import Ingestion

  /** Whatever its parameters, no preset but ingestion makes a batch that the default cap refuses. */
  lemma OthersFit(x: Inputs, f: Firewall.FirewallParams, r: Reconciliation.ReconParams, a: Anomaly.AnomalyParams,
                  h: Forecasting.ForecastParams, season: Forecasting.SeasonFactor, c: Consolidation.ConsParams)
    requires ValidInputs(x)
    requires Firewall.ValidParams(f) && Reconciliation.ValidParams(r) && Anomaly.ValidParams(a)
    requires Forecasting.ValidParams(h) && Consolidation.ValidParams(c)
    ensures |Firewall.Records(f, x)| <= 4001 && |Reconciliation.Records(r, x)| <= 4001 && |Anomaly.Records(a, x)| <= 2251
    ensures |Forecasting.Records(h, x, season)| <= 1470 && |Consolidation.Records(c, x)| <= 900
    ensures 4001 < DEFAULT_MAX_RECORDS == 5000
  {
    hide Firewall.Records, Reconciliation.Records, Anomaly.Records, Forecasting.Records, Consolidation.Records,
         Firewall.BadCount;
    ReconciliationTruth.RecordsSize(r, x);
    AnomalyTruth.ManifestPartitions(a, x, 0);
    ForecastingTruth.RecordsSize(h, x, season);
    ConsolidationTruth.RecordsSize(c, x);
  }

  /** A dispatch of the ingestion preset. The cap refuses it exactly when accounts times one plus
      the flows per account exceeds it, and then nothing is published. */
  method DispatchIngestion(settings: Settings, params: map<string, Param>, x: Inputs, prov: Provenance, dryRun: bool,
                           publisher: Publisher?, sha: Hasher) returns (r: Response, p: Ingestion.IngestParams)
    requires ValidInputs(x)
    modifies publisher
    ensures WellFormed(Ingestion.Schema())
    ensures r.NotFound? <==> !GateOpen(settings)
    ensures GateOpen(settings) && Overflows(Ingestion.Schema(), params) ==> r.ServerError?
    ensures GateOpen(settings) && !Overflows(Ingestion.Schema(), params) ==>
              && Ingestion.CoercedFrom(params, p)
              && (r.OverCap? <==> p.accounts * (1 + p.flows) > settings.maxRecords)
    ensures r.OverCap? && publisher != null ==> unchanged(publisher)
    ensures r.Dispatched? ==> r.expected == p.accounts * (1 + p.flows) <= settings.maxRecords
  {
    hide Ingestion.Records, Ingestion.Manifest, Overflows, Ingestion.CoercedFrom, WellFormed,
         Ingestion.Schema;
    hide Dispatch.PayloadHashes, Emitter.Stamped, Deliver;
    Ingestion.SchemaWellFormed();
    p := Ingestion.IngestParams(1, 1, 1, [Eur], "psd2");
    if !GateOpen(settings) {
      return NotFound, p;
    }
    var batch: GeneratedBatch?;
    batch, p := Ingestion.Generate(params, x);
    if batch == null {
      return ServerError, p;
    }
    Ingestion.RecordsSize(p, x);
    var sent := Batch(batch.records, batch.groundTruth, p.format);
    var request := Auto(Some(sent), prov, dryRun);
    assert BatchOf(request, sent);
    r := Dispatch.Dispatch(settings, request, publisher, sha);
  }
}
