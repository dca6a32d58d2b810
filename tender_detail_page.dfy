/**
 * The tender detail page: the win-probability and threat banding, the key
 * labels, and the `loading`/`analyzing` flags around its requests.
 */
module TenderDetailPage {
  import opened Wrappers
  import opened Text
  import opened Ui

  datatype WinLabel = High | Medium | Low

  /** The label under the win-probability gauge (probability in percent). */
  function WinProbabilityLabel(p: real): (l: WinLabel)
    ensures l == High <==> p >= 60.0
    ensures l == Medium <==> 40.0 <= p < 60.0
    ensures l == Low <==> p < 40.0
  {
    if p >= 60.0 then High else if p >= 40.0 then Medium else Low
  }

  datatype BadgeStyle = Danger | Warning | Success

  /** The badge of a competitor: only the exact strings "high" and "medium" escalate it. */
  function ThreatBadge(threat: string): (b: BadgeStyle)
    ensures b == Danger <==> threat == "high"
    ensures b == Warning <==> threat == "medium"
  {
    if threat == "high" then Danger else if threat == "medium" then Warning else Success
  }

  /** `key.replace('_', ' ')` for specification and factor keys: the first underscore only. */
  function KeyLabel(key: string): (r: string)
    ensures |r| == |key|
    ensures '_' in key ==> r[IndexOf(key, '_')] == ' ' && '_' !in r[..IndexOf(key, '_')]
    ensures forall i | 0 <= i < |key| && i != IndexOf(key, '_') :: r[i] == key[i]
  {
    ReplaceFirstAt(key, '_', ' ');
    var k := IndexOf(key, '_');
    var r := ReplaceFirst(key, '_', ' ');
    assert k < |key| ==> r[..k] == key[..k];
    r
  }

  /** The three analysis buttons. */
  datatype AnalysisKind = TenderAnalysis | CompetitorAnalysis | WinPrediction

  function Endpoint(kind: AnalysisKind): string {
    match kind
    case TenderAnalysis => "/analyze"
    case CompetitorAnalysis => "/competitors"
    case WinPrediction => "/win-prediction"
  }

  function SuccessText(kind: AnalysisKind): string {
    match kind
    case TenderAnalysis => "Analysis completed!"
    case CompetitorAnalysis => "Competitor analysis completed!"
    case WinPrediction => "Win probability calculated!"
  }

  function FailureText(kind: AnalysisKind): string {
    match kind
    case TenderAnalysis => "Analysis failed"
    case CompetitorAnalysis => "Competitor analysis failed"
    case WinPrediction => "Prediction failed"
  }

  /** Response bodies are kept opaque: the page only stores and renders them. */
  class TenderDetailPage {
    const tenderId: string
    var tender: Option<string>
    var analysis: Option<string>
    var competitors: Option<string>
    var winPrediction: Option<string>
    var loading: bool
    var analyzing: bool
    var notices: seq<Notice>
    var navigatedTo: Option<string>

    constructor (id: string)
      ensures tenderId == id
      ensures tender.None? && analysis.None? && competitors.None? && winPrediction.None?
      ensures loading && !analyzing && notices == [] && navigatedTo.None?
    {
      tenderId := id;
      tender, analysis, competitors, winPrediction := None, None, None, None;
      loading, analyzing := true, false;
      notices, navigatedTo := [], None;
    }

    /**
     * `fetchTenderDetails`.  `tenderResponse` and `analysisResponse` are the
     * outcomes of the two GETs; the second is only requested after the
     * first succeeds, and its failure is ignored.
     */
    method FetchTenderDetails(tenderResponse: Option<string>, analysisResponse: Option<string>)
      returns (analysisRequested: bool)
      modifies this
      ensures !loading && analyzing == old(analyzing)
      ensures analysisRequested <==> tenderResponse.Some?
      ensures tenderResponse.None? ==>
        tender == old(tender) && analysis == old(analysis) && navigatedTo == Some("/tenders") &&
        notices == old(notices) + [ErrorNotice("Failed to load tender details")]
      ensures tenderResponse.Some? ==>
        tender == tenderResponse && navigatedTo == old(navigatedTo) && notices == old(notices) &&
        analysis == (if analysisResponse.Some? then analysisResponse else old(analysis))
      ensures competitors == old(competitors) && winPrediction == old(winPrediction)
    {
      if tenderResponse.Some? {
        tender := tenderResponse;
        analysisRequested := true;
        if analysisResponse.Some? {
          analysis := analysisResponse;
        }
      } else {
        analysisRequested := false;
        notices := notices + [ErrorNotice("Failed to load tender details")];
        navigatedTo := Some("/tenders");
      }
      loading := false;
    }

    /** Start of an analysis handler: the busy flag goes up before the request. */
    method BeginAnalysis()
      modifies this
      ensures analyzing
      ensures tender == old(tender) && analysis == old(analysis) && competitors == old(competitors)
      ensures winPrediction == old(winPrediction) && notices == old(notices) && loading == old(loading)
      ensures navigatedTo == old(navigatedTo)
    {
      analyzing := true;
    }

    /** End of an analysis handler: store the result on success; the flag comes down either way. */
    method EndAnalysis(kind: AnalysisKind, response: Option<string>)
      modifies this
      ensures !analyzing && tender == old(tender) && loading == old(loading) && navigatedTo == old(navigatedTo)
      ensures notices == old(notices) + [if response.Some? then SuccessNotice(SuccessText(kind)) else ErrorNotice(FailureText(kind))]
      ensures analysis == (if kind == TenderAnalysis && response.Some? then response else old(analysis))
      ensures competitors == (if kind == CompetitorAnalysis && response.Some? then response else old(competitors))
      ensures winPrediction == (if kind == WinPrediction && response.Some? then response else old(winPrediction))
    {
      if response.Some? {
        match kind {
          case TenderAnalysis => analysis := response;
          case CompetitorAnalysis => competitors := response;
          case WinPrediction => winPrediction := response;
        }
        notices := notices + [SuccessNotice(SuccessText(kind))];
      } else {
        notices := notices + [ErrorNotice(FailureText(kind))];
      }
      analyzing := false;
    }
  
    /**
     * A whole analysis handler (`handleAnalyzeTender`,
     * `handleAnalyzeCompetitors`, `handleWinPrediction`): `path` is the
     * POST target, and `busyDuringRequest` the value of `analyzing` while
     * the request is outstanding.
     */
    method RunAnalysis(kind: AnalysisKind, response: Option<string>) returns (path: string, busyDuringRequest: bool)
      modifies this
      ensures path == "/tenders/" + tenderId + Endpoint(kind)
      ensures busyDuringRequest && !analyzing
      ensures tender == old(tender) && loading == old(loading) && navigatedTo == old(navigatedTo)
      ensures notices == old(notices) + [if response.Some? then SuccessNotice(SuccessText(kind)) else ErrorNotice(FailureText(kind))]
      ensures analysis == (if kind == TenderAnalysis && response.Some? then response else old(analysis))
      ensures competitors == (if kind == CompetitorAnalysis && response.Some? then response else old(competitors))
      ensures winPrediction == (if kind == WinPrediction && response.Some? then response else old(winPrediction))
    {
      BeginAnalysis();
      path := "/tenders/" + tenderId + Endpoint(kind);
      busyDuringRequest := analyzing;
      EndAnalysis(kind, response);
    }
  }
}
