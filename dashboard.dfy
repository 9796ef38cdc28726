/** The dashboard: severity statistics over the account's scans, the
    ten-item recent list, and the delete, clear and export handlers. */
module Dashboard {
  import opened Wrappers
  import opened Seqs
  import opened Catalogue
  import opened Store

  datatype Stats = Stats(totalScans: nat, highRisk: nat, mediumRisk: nat, lowRisk: nat)

  /** How many scans the recent list shows. */
  const DisplayLimit: nat := 10

  /** The answer of an API call: it threw (network error or a non-2xx
      status), or it returned a body with a `success` flag. */
  datatype ApiResponse = Threw | Answered(success: bool)

  /** The answer of `getScans`, whose body may lack the `scans` field. */
  datatype ScansResponse = ScansThrew | ScansAnswered(success: bool, scans: Option<seq<ScanResult>>)

  datatype ExportOutcome = NothingToExport | Exported | ExportFailed

  predicate TopIs(s: ScanResult, level: Severity) {
    HasSeverity(s.topPrediction.classId, level)
  }

  predicate AllInCatalogue(history: seq<ScanResult>) {
    forall i :: 0 <= i < |history| ==> 0 <= history[i].topPrediction.classId <= 6
  }

  /** The class ids of each tier, written out independently of the catalogue. */
  predicate HighId(s: ScanResult) { s.topPrediction.classId == 4 }
  predicate MediumId(s: ScanResult) { s.topPrediction.classId == 0 || s.topPrediction.classId == 1 }
  predicate LowId(s: ScanResult) {
    var k := s.topPrediction.classId; k == 2 || k == 3 || k == 5 || k == 6
  }

  /** `stats`. Reading `CANCER_CLASSES[id].severity` for an id outside the
      table throws, so the statistics exist only when every top prediction
      names a catalogue class; then the three tiers partition the scans. */
  function ComputeStats(history: seq<ScanResult>): (r: Option<Stats>)
    ensures r.Some? <==> AllInCatalogue(history)
    ensures r.Some? ==> r.value.totalScans == |history|
    ensures r.Some? ==> r.value.highRisk + r.value.mediumRisk + r.value.lowRisk == r.value.totalScans
    ensures r.Some? ==> r.value.highRisk == Count(history, HighId)
    ensures r.Some? ==> r.value.mediumRisk == Count(history, MediumId)
    ensures r.Some? ==> r.value.lowRisk == Count(history, LowId)
  {
    if !AllInCatalogue(history) then None
    else
      var high := (s: ScanResult) => TopIs(s, High);
      var medium := (s: ScanResult) => TopIs(s, Medium);
      var low := (s: ScanResult) => TopIs(s, Low);
      assert forall i :: 0 <= i < |history| ==>
        (if high(history[i]) then 1 else 0) + (if medium(history[i]) then 1 else 0)
          + (if low(history[i]) then 1 else 0) == 1 by {
        forall i | 0 <= i < |history| ensures
          (if high(history[i]) then 1 else 0) + (if medium(history[i]) then 1 else 0)
            + (if low(history[i]) then 1 else 0) == 1
        {
          SeverityExclusive(history[i].topPrediction.classId);
        }
      }
      CountPartition(history, high, medium, low);
      forall i | 0 <= i < |history|
        ensures high(history[i]) == HighId(history[i])
        ensures medium(history[i]) == MediumId(history[i])
        ensures low(history[i]) == LowId(history[i])
      {
        SeverityTiers(history[i].topPrediction.classId);
      }
      FilterCongruent(history, high, HighId);
      FilterCongruent(history, medium, MediumId);
      FilterCongruent(history, low, LowId);
      Some(Stats(|history|, Count(history, high), Count(history, medium), Count(history, low)))
  }

  /** A melanoma at the top of a scan counts as high risk, whatever the other scans are. */
  lemma MelanomaIsHighRisk(history: seq<ScanResult>, s: ScanResult)
    requires s.topPrediction.classId == 4
    requires AllInCatalogue(history)
    ensures ComputeStats(history + [s]).value.highRisk == ComputeStats(history).value.highRisk + 1
  {
    var high := (s: ScanResult) => TopIs(s, High);
    FilterConcat(history, [s], high);
  }

  /** `scanHistory.slice(0, 10)`. */
  function Displayed(history: seq<ScanResult>): (r: seq<ScanResult>)
    ensures |r| <= DisplayLimit
    ensures r <= history
  {
    Take(history, DisplayLimit)
  }

  /** The "Showing 10 of N scans" note appears exactly when the list was cut. */
  lemma NoteIffTruncated(history: seq<ScanResult>)
    ensures |history| > DisplayLimit <==> |Displayed(history)| < |history|
    ensures |history| > DisplayLimit ==> |Displayed(history)| == DisplayLimit
  {
  }

  class DashboardPage {
    var scanHistory: seq<ScanResult>
    var isLoading: bool

    constructor()
      ensures scanHistory == [] && isLoading
    {
      scanHistory := [];
      isLoading := true;
    }

    /** `loadUserAndScans`: a successful answer replaces the list, with a
        missing `scans` field read as the empty list. */
    method LoadScans(response: ScansResponse)
      modifies this
      ensures !isLoading
      ensures scanHistory == (if response.ScansAnswered? && response.success
        then response.scans.GetOr([]) else old(scanHistory))
    {
      if response.ScansAnswered? && response.success {
        scanHistory := response.scans.GetOr([]);
      }
      isLoading := false;
    }

    /** `handleDeleteScan`: nothing happens unless the user confirms and the
        backend reports success; then exactly the scans with that id go. */
    method HandleDeleteScan(id: string, confirmed: bool, response: ApiResponse)
      modifies this
      ensures scanHistory == (if confirmed && response == Answered(true)
        then WithoutId(old(scanHistory), id) else old(scanHistory))
      ensures isLoading == old(isLoading)
    {
      if !confirmed {
        return;
      }
      if response.Answered? && response.success {
        scanHistory := WithoutId(scanHistory, id);
      }
    }

    /** `handleClearHistory`: the list is emptied only on a reported success. */
    method HandleClearHistory(confirmed: bool, response: ApiResponse)
      modifies this
      ensures scanHistory == (if confirmed && response == Answered(true) then [] else old(scanHistory))
      ensures isLoading == old(isLoading)
    {
      if !confirmed {
        return;
      }
      if response.Answered? && response.success {
        scanHistory := [];
      }
    }

    /** `handleExportAll`, with `generated` saying whether the PDF generator
        finished without throwing. An empty history generates nothing. */
    method HandleExportAll(generated: bool) returns (r: ExportOutcome)
      ensures r == NothingToExport <==> scanHistory == []
      ensures r == Exported <==> scanHistory != [] && generated
    {
      if |scanHistory| == 0 {
        return NothingToExport;
      }
      r := if generated then Exported else ExportFailed;
    }
  }
}
