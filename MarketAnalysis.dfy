/** The market lookup page: the same query/submit/delayed-completion machine as
    the company lookup, installing one fixed market record, whose competitor
    table draws each share as a percentage-wide bar with one trend marker. */
module MarketAnalysis {
  import JsString
  import opened Nullable

  datatype Trend = Up | Down | Stable

  datatype Competitor = Competitor(name: string, marketShare: int, funding: string, trend: Trend)

  datatype MarketData = MarketData(
    marketSize: string,
    growthRate: string,
    tam: string,
    sam: string,
    som: string,
    competitors: seq<Competitor>,
    trends: seq<string>,
    risks: seq<string>)

  /** The record every completed lookup shows, whatever was asked for. */
  const MockMarketData := MarketData(
    "$47.2B",
    "23.4%",
    "$156B",
    "$47B",
    "$8.2B",
    [Competitor("DataDog", 28, "$648M", Up),
     Competitor("Splunk", 22, "Public", Stable),
     Competitor("New Relic", 15, "Public", Down),
     Competitor("Dynatrace", 12, "Public", Up),
     Competitor("Others", 23, "-", Stable)],
    ["AI/ML integration becoming table stakes for analytics platforms",
     "Shift towards real-time observability and predictive insights",
     "Growing demand for unified data platforms",
     "Cloud-native architecture becoming mandatory",
     "Privacy-first analytics gaining traction"],
    ["Market consolidation through M&A activity",
     "Pricing pressure from open-source alternatives",
     "Regulatory compliance complexity increasing",
     "Talent shortage in specialized AI/ML roles"])

  /** The "Analyze Market" button is clickable. */
  predicate ButtonEnabled(companyName: string, isAnalyzing: bool) {
    !JsString.IsBlank(companyName) && !isAnalyzing
  }

  /** The full-page loader is rendered. */
  predicate LoaderShown(isAnalyzing: bool) {
    isAnalyzing
  }

  /** The market sections are rendered. */
  predicate ResultsShown(marketData: Nullable<MarketData>, isAnalyzing: bool) {
    marketData.NonNull? && !isAnalyzing
  }

  /** The button is enabled exactly when the query holds a visible character and
      no analysis is running. */
  lemma ButtonEnabledIff(companyName: string, isAnalyzing: bool)
    ensures ButtonEnabled(companyName, isAnalyzing)
            <==> !isAnalyzing && exists i :: 0 <= i < |companyName| && !JsString.IsWhiteSpace(companyName[i])
  {
  }

  /** Sum of the competitors' shares. */
  function TotalShare(cs: seq<Competitor>): int {
    if cs == [] then 0 else cs[0].marketShare + TotalShare(cs[1..])
  }

  /** Every share is a width between 0% and 100%. */
  predicate SharesArePercentages(cs: seq<Competitor>) {
    forall i :: 0 <= i < |cs| ==> 0 <= cs[i].marketShare <= 100
  }

  /** The fixture's shares are percentages that add up to 100. */
  lemma MockSharesFormAWhole()
    ensures SharesArePercentages(MockMarketData.competitors)
    ensures TotalShare(MockMarketData.competitors) == 100
  {
    var cs := MockMarketData.competitors;
    assert cs[1..][1..][1..][1..][1..] == [];
  }

  /** The markers a competitor row renders, one per matching `trend ===` test. */
  function TrendMarkers(t: Trend): (ms: seq<string>)
    ensures |ms| == 1
  {
    (if t == Up then ["TrendingUp"] else [])
    + (if t == Down then ["TrendingDown"] else [])
    + (if t == Stable then ["bar"] else [])
  }

  /** The page component: its three `useState` variables and the completion
      timers it has scheduled and that have not fired yet. */
  class Page {
    var companyName: string
    var isAnalyzing: bool
    var marketData: Nullable<MarketData>
    var pendingCompletions: nat

    /** A running analysis always has a completion on its way. */
    ghost predicate Valid()
      reads this
    {
      isAnalyzing ==> pendingCompletions > 0
    }

    constructor ()
      ensures Valid()
      ensures companyName == "" && !isAnalyzing && marketData == Null && pendingCompletions == 0
    {
      companyName := "";
      isAnalyzing := false;
      marketData := Null;
      pendingCompletions := 0;
    }

    /** The input's `onChange`. */
    method EditQuery(text: string)
      requires Valid()
      modifies this
      ensures Valid()
      ensures companyName == text
      ensures isAnalyzing == old(isAnalyzing) && marketData == old(marketData)
      ensures pendingCompletions == old(pendingCompletions)
    {
      companyName := text;
    }

    /** `handleAnalyze`: a blank query changes nothing; any other query starts an
        analysis and schedules one more completion, running or not. */
    method HandleAnalyze()
      requires Valid()
      modifies this
      ensures Valid()
      ensures companyName == old(companyName) && marketData == old(marketData)
      ensures JsString.IsBlank(companyName) ==>
                isAnalyzing == old(isAnalyzing) && pendingCompletions == old(pendingCompletions)
      ensures !JsString.IsBlank(companyName) ==>
                isAnalyzing && pendingCompletions == old(pendingCompletions) + 1
    {
      if JsString.IsBlank(companyName) {
        return;
      }
      isAnalyzing := true;
      pendingCompletions := pendingCompletions + 1;
    }

    /** The input's `onKeyDown`: Enter submits, whether or not an analysis is running. */
    method KeyDown(key: string)
      requires Valid()
      modifies this
      ensures Valid()
      ensures companyName == old(companyName) && marketData == old(marketData)
      ensures key == "Enter" && !JsString.IsBlank(companyName) ==>
                isAnalyzing && pendingCompletions == old(pendingCompletions) + 1
      ensures key != "Enter" || JsString.IsBlank(companyName) ==>
                isAnalyzing == old(isAnalyzing) && pendingCompletions == old(pendingCompletions)
    {
      if key == "Enter" {
        HandleAnalyze();
      }
    }

    /** A click on the button: swallowed while it is disabled. */
    method ClickAnalyze()
      requires Valid()
      modifies this
      ensures Valid()
      ensures companyName == old(companyName) && marketData == old(marketData)
      ensures old(ButtonEnabled(companyName, isAnalyzing)) ==>
                isAnalyzing && pendingCompletions == old(pendingCompletions) + 1
      ensures !old(ButtonEnabled(companyName, isAnalyzing)) ==>
                isAnalyzing == old(isAnalyzing) && pendingCompletions == old(pendingCompletions)
    {
      if ButtonEnabled(companyName, isAnalyzing) {
        HandleAnalyze();
      }
    }

    /** The oldest scheduled completion fires: the fixed record is installed and
        the running flag cleared, independent of the query. */
    method FireCompletion()
      requires Valid() && pendingCompletions > 0
      modifies this
      ensures Valid()
      ensures marketData == NonNull(MockMarketData) && !isAnalyzing
      ensures pendingCompletions == old(pendingCompletions) - 1
      ensures companyName == old(companyName)
    {
      marketData := NonNull(MockMarketData);
      isAnalyzing := false;
      pendingCompletions := pendingCompletions - 1;
    }
  }

  /** A submit of "   " (white space only) by Enter leaves the page idle. */
  method BlankSubmitScenario() returns (loader: bool, pending: nat)
    ensures !loader && pending == 0
  {
    var page := new Page();
    page.EditQuery("   ");
    JsString.BlankIffAllWhiteSpace("   ");
    page.KeyDown("Enter");
    loader := LoaderShown(page.isAnalyzing);
    pending := page.pendingCompletions;
  }
}
