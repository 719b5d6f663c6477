/** The company lookup page: a query box, a submit button and a simulated
    analysis that, after a delay, installs one fixed company profile. */
module CompanyAnalysis {
  import JsString
  import opened Nullable

  datatype CompanyData = CompanyData(
    name: string,
    industry: string,
    founded: string,
    headquarters: string,
    employees: string,
    revenue: string,
    valuation: string,
    funding: string,
    description: string,
    strengths: seq<string>,
    weaknesses: seq<string>,
    opportunities: seq<string>,
    threats: seq<string>)

  /** The profile every completed lookup shows, whatever was asked for. */
  const MockCompanyData := CompanyData(
    "TechVenture Inc.",
    "Enterprise SaaS",
    "2019",
    "San Francisco, CA",
    "150-200",
    "$12M ARR",
    "$85M",
    "Series B",
    "TechVenture provides AI-powered analytics solutions for enterprise customers, focusing on predictive maintenance and operational efficiency in manufacturing and logistics sectors.",
    ["Strong technical team with PhD-level AI expertise",
     "Proprietary machine learning models with 94% accuracy",
     "Growing customer base with low churn rate (2.3%)",
     "Strategic partnerships with major cloud providers"],
    ["High customer acquisition cost ($45K CAC)",
     "Limited geographic presence",
     "Dependency on key enterprise clients (top 5 = 60% revenue)",
     "Long sales cycle (6-9 months average)"],
    ["Expanding into European markets",
     "New product line for SMB segment",
     "AI regulation creating barriers for competitors",
     "Growing demand for predictive analytics"],
    ["Big tech companies entering the space",
     "Economic downturn affecting enterprise spending",
     "Talent competition in AI/ML sector",
     "Data privacy regulations"])

  /** The "Analyze" button is clickable: the negation of its `disabled` attribute. */
  predicate ButtonEnabled(companyName: string, isAnalyzing: bool) {
    !JsString.IsBlank(companyName) && !isAnalyzing
  }

  /** The full-page loader is rendered. */
  predicate LoaderShown(isAnalyzing: bool) {
    isAnalyzing
  }

  /** The profile sections are rendered. */
  predicate ResultsShown(analysisData: Nullable<CompanyData>, isAnalyzing: bool) {
    analysisData.NonNull? && !isAnalyzing
  }

  /** The button is enabled exactly when the query holds a visible character and
      no analysis is running. */
  lemma ButtonEnabledIff(companyName: string, isAnalyzing: bool)
    ensures ButtonEnabled(companyName, isAnalyzing)
            <==> !isAnalyzing && exists i :: 0 <= i < |companyName| && !JsString.IsWhiteSpace(companyName[i])
  {
  }

  /** The loader and the results are never on screen together, and while the
      loader shows, the button is disabled. */
  lemma LoaderExcludesResults(companyName: string, isAnalyzing: bool, analysisData: Nullable<CompanyData>)
    ensures !(LoaderShown(isAnalyzing) && ResultsShown(analysisData, isAnalyzing))
    ensures LoaderShown(isAnalyzing) ==> !ButtonEnabled(companyName, isAnalyzing)
  {
  }

  /** The page component: its three `useState` variables and the completion
      timers it has scheduled and that have not fired yet. */
  class Page {
    var companyName: string
    var isAnalyzing: bool
    var analysisData: Nullable<CompanyData>
    var pendingCompletions: nat

    /** A running analysis always has a completion on its way. */
    ghost predicate Valid()
      reads this
    {
      isAnalyzing ==> pendingCompletions > 0
    }

    constructor ()
      ensures Valid()
      ensures companyName == "" && !isAnalyzing && analysisData == Null && pendingCompletions == 0
    {
      companyName := "";
      isAnalyzing := false;
      analysisData := Null;
      pendingCompletions := 0;
    }

    /** The input's `onChange`: the query becomes the new text. */
    method EditQuery(text: string)
      requires Valid()
      modifies this
      ensures Valid()
      ensures companyName == text
      ensures isAnalyzing == old(isAnalyzing) && analysisData == old(analysisData)
      ensures pendingCompletions == old(pendingCompletions)
    {
      companyName := text;
    }

    /** `handleAnalyze`: a blank query changes nothing; any other query starts an
        analysis and schedules one more completion. The running flag is not
        consulted, and the previous result is kept (only hidden). */
    method HandleAnalyze()
      requires Valid()
      modifies this
      ensures Valid()
      ensures companyName == old(companyName) && analysisData == old(analysisData)
      ensures JsString.IsBlank(companyName) ==>
                isAnalyzing == old(isAnalyzing) && pendingCompletions == old(pendingCompletions)
      ensures !JsString.IsBlank(companyName) ==>
                isAnalyzing && pendingCompletions == old(pendingCompletions) + 1
    {
      if JsString.IsBlank(companyName) {
        return;
      }
      isAnalyzing := true;
      pendingCompletions := pendingCompletions + 1;
    }

    /** The input's `onKeyDown`: Enter submits, whether or not an analysis is running. */
    method KeyDown(key: string)
      requires Valid()
      modifies this
      ensures Valid()
      ensures companyName == old(companyName) && analysisData == old(analysisData)
      ensures key == "Enter" && !JsString.IsBlank(companyName) ==>
                isAnalyzing && pendingCompletions == old(pendingCompletions) + 1
      ensures key != "Enter" || JsString.IsBlank(companyName) ==>
                isAnalyzing == old(isAnalyzing) && pendingCompletions == old(pendingCompletions)
    {
      if key == "Enter" {
        HandleAnalyze();
      }
    }

    /** A click on the button: a disabled button swallows the click, an enabled
        one runs `handleAnalyze`. */
    method ClickAnalyze()
      requires Valid()
      modifies this
      ensures Valid()
      ensures companyName == old(companyName) && analysisData == old(analysisData)
      ensures old(ButtonEnabled(companyName, isAnalyzing)) ==>
                isAnalyzing && pendingCompletions == old(pendingCompletions) + 1
      ensures !old(ButtonEnabled(companyName, isAnalyzing)) ==>
                isAnalyzing == old(isAnalyzing) && pendingCompletions == old(pendingCompletions)
    {
      if ButtonEnabled(companyName, isAnalyzing) {
        HandleAnalyze();
      }
    }

    /** The oldest scheduled completion fires: the fixed profile is installed and
        the running flag cleared, whatever the query and however many other
        completions are still on their way. */
    method FireCompletion()
      requires Valid() && pendingCompletions > 0
      modifies this
      ensures Valid()
      ensures analysisData == NonNull(MockCompanyData) && !isAnalyzing
      ensures pendingCompletions == old(pendingCompletions) - 1
      ensures companyName == old(companyName)
    {
      analysisData := NonNull(MockCompanyData);
      isAnalyzing := false;
      pendingCompletions := pendingCompletions - 1;
    }
  }

  /** Looking up "Stripe": right after submitting only the loader shows; after the
      completion the fixed profile is on screen. */
  method StripeScenario() returns (loaderWhilePending: bool, resultsWhilePending: bool,
                                   shown: Nullable<CompanyData>, resultsAfter: bool)
    ensures loaderWhilePending && !resultsWhilePending
    ensures shown == NonNull(MockCompanyData) && resultsAfter
  {
    var page := new Page();
    page.EditQuery("Stripe");
    assert !JsString.IsWhiteSpace("Stripe"[0]);
    page.ClickAnalyze();
    loaderWhilePending := LoaderShown(page.isAnalyzing);
    resultsWhilePending := ResultsShown(page.analysisData, page.isAnalyzing);
    page.FireCompletion();
    shown := page.analysisData;
    resultsAfter := ResultsShown(page.analysisData, page.isAnalyzing);
  }

  /** Pressing Enter twice while the first lookup is pending schedules a second
      completion; after the first one fires, the results are shown although the
      second is still on its way. */
  method DoubleSubmitScenario() returns (pending: nat, buttonAfterFirst: bool, resultsAfterOneFired: bool)
    ensures pending == 2 && !buttonAfterFirst && resultsAfterOneFired
  {
    var page := new Page();
    page.EditQuery("Stripe");
    assert !JsString.IsWhiteSpace("Stripe"[0]);
    page.KeyDown("Enter");
    buttonAfterFirst := ButtonEnabled(page.companyName, page.isAnalyzing);
    page.KeyDown("Enter");
    pending := page.pendingCompletions;
    page.FireCompletion();
    resultsAfterOneFired := ResultsShown(page.analysisData, page.isAnalyzing);
  }
}
