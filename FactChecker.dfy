/** The fact-checking page: any uploaded file starts a simulated analysis whose
    completion installs a fixed list of claims, tallied by status. */
module FactChecker {
  import opened Nullable
  import FileUploader

  datatype ClaimStatus = Verified | Disputed | Unverified

  datatype FactCheck = FactCheck(
    id: string,
    claim: string,
    source: string,
    status: ClaimStatus,
    confidence: int,
    evidence: string,
    sourceUrl: Nullable<string>)

  /** The claims every completed analysis shows, whatever file was given. */
  const MockFactChecks := [
    FactCheck("1", "The global SaaS market is projected to reach $307B by 2026",
      "Slide 5 - Market Size", Verified, 95,
      "Verified against Gartner and Statista reports. Actual projection is $298B-$312B range.",
      NonNull("https://gartner.com")),
    FactCheck("2", "Our platform reduces customer churn by 40%",
      "Slide 8 - Product Benefits", Unverified, 45,
      "No independent verification found. Claim based on internal data only.",
      Null),
    FactCheck("3", "We have 150+ enterprise customers including Fortune 500 companies",
      "Slide 12 - Traction", Verified, 88,
      "Verified through press releases and case studies. 3 Fortune 500 companies confirmed.",
      NonNull("https://example.com")),
    FactCheck("4", "The AI analytics market is growing at 35% CAGR",
      "Slide 6 - Market Analysis", Disputed, 62,
      "Industry reports suggest 22-28% CAGR. The stated figure appears inflated.",
      NonNull("https://mckinsey.com")),
    FactCheck("5", "Founded team has combined 50+ years in enterprise software",
      "Slide 15 - Team", Verified, 92,
      "LinkedIn profiles confirm combined experience of 52 years in relevant roles.",
      Null),
    FactCheck("6", "Patent-pending proprietary ML algorithms",
      "Slide 9 - Technology", Unverified, 30,
      "No patent filings found in USPTO database. May be provisional or international.",
      Null)
  ]

  /** The string a status has in the data (the type is a union of string literals). */
  function StatusName(s: ClaimStatus): string {
    match s
    case Verified => "verified"
    case Disputed => "disputed"
    case Unverified => "unverified"
  }

  /** `checks.filter(f => f.status === s).length` */
  function CountStatus(checks: seq<FactCheck>, s: ClaimStatus): (n: nat)
    ensures n <= |checks|
    ensures n == 0 <==> forall i :: 0 <= i < |checks| ==> checks[i].status != s
  {
    if checks == [] then 0
    else (if checks[0].status == s then 1 else 0) + CountStatus(checks[1..], s)
  }

  /** The three filter counts cover every claim exactly once. */
  lemma {:induction false} CountsPartition(checks: seq<FactCheck>)
    ensures CountStatus(checks, Verified) + CountStatus(checks, Disputed)
            + CountStatus(checks, Unverified) == |checks|
  {
    if checks != [] {
      CountsPartition(checks[1..]);
    }
  }

  /** Counting distributes over concatenation. */
  lemma {:induction false} CountAppend(xs: seq<FactCheck>, ys: seq<FactCheck>, s: ClaimStatus)
    ensures CountStatus(xs + ys, s) == CountStatus(xs, s) + CountStatus(ys, s)
  {
    if xs == [] {
      assert xs + ys == ys;
    } else {
      assert (xs + ys)[1..] == xs[1..] + ys;
      CountAppend(xs[1..], ys, s);
    }
  }

  datatype Stats = Stats(verified: nat, disputed: nat, unverified: nat)

  /** The `stats` value: null exactly when there are no results, otherwise the
      three counts, which add up to the number of claims. */
  function ComputeStats(factChecks: Nullable<seq<FactCheck>>): (r: Nullable<Stats>)
    ensures r.Null? <==> factChecks.Null?
    ensures r.NonNull? ==> r.value.verified + r.value.disputed + r.value.unverified == |factChecks.value|
  {
    match factChecks
    case Null => Null
    case NonNull(cs) =>
      CountsPartition(cs);
      NonNull(Stats(CountStatus(cs, Verified), CountStatus(cs, Disputed), CountStatus(cs, Unverified)))
  }

  /** The tally of the fixture: 3 verified, 1 disputed and 2 unverified claims out of 6. */
  lemma MockStats()
    ensures ComputeStats(NonNull(MockFactChecks)) == NonNull(Stats(3, 1, 2))
    ensures |MockFactChecks| == 6
  {
    var cs := MockFactChecks;
    var c1, c2, c3, c4, c5 := cs[1..], cs[2..], cs[3..], cs[4..], cs[5..];
    assert c1[1..] == c2 && c2[1..] == c3 && c3[1..] == c4 && c4[1..] == c5 && c5[1..] == [];
    // the (verified, disputed) tallies of the suffixes, from the last claim back to the first
    assert CountStatus(c5, Verified) == 0 && CountStatus(c5, Disputed) == 0;
    assert CountStatus(c4, Verified) == 1 && CountStatus(c4, Disputed) == 0;
    assert CountStatus(c3, Verified) == 1 && CountStatus(c3, Disputed) == 1;
    assert CountStatus(c2, Verified) == 2 && CountStatus(c2, Disputed) == 1;
    assert CountStatus(c1, Verified) == 2 && CountStatus(c1, Disputed) == 1;
    CountsPartition(cs);
  }

  /** Fixture ids can serve as list keys, and every confidence is a percentage. */
  lemma MockFactChecksWellFormed()
    ensures forall i, j :: 0 <= i < j < |MockFactChecks| ==> MockFactChecks[i].id != MockFactChecks[j].id
    ensures forall i :: 0 <= i < |MockFactChecks| ==> 0 <= MockFactChecks[i].confidence <= 100
  {
  }

  datatype Icon = CheckCircle | XCircle | AlertTriangle | Search

  datatype StatusConfig = StatusConfig(icon: Icon, color: string, bg: string, border: string)

  const DefaultConfig := StatusConfig(Search, "text-muted-foreground", "bg-muted", "border-border")

  /** `getStatusConfig`: the presentation of a status string. */
  function GetStatusConfig(status: string): StatusConfig {
    if status == "verified" then
      StatusConfig(CheckCircle, "text-primary", "bg-primary/10", "border-primary/20")
    else if status == "disputed" then
      StatusConfig(XCircle, "text-destructive", "bg-destructive/10", "border-destructive/20")
    else if status == "unverified" then
      StatusConfig(AlertTriangle, "text-accent", "bg-accent/10", "border-accent/20")
    else DefaultConfig
  }

  /** The three statuses a claim can have get three different looks, none of
      them the fallback; any other string gets the fallback. */
  lemma StatusConfigClassifies(a: ClaimStatus, b: ClaimStatus, other: string)
    ensures a != b ==> GetStatusConfig(StatusName(a)).color != GetStatusConfig(StatusName(b)).color
    ensures a != b ==> GetStatusConfig(StatusName(a)).icon != GetStatusConfig(StatusName(b)).icon
    ensures GetStatusConfig(StatusName(a)) != DefaultConfig
    ensures (forall s :: StatusName(s) != other) ==> GetStatusConfig(other) == DefaultConfig
  {
    assert StatusName(Verified) == "verified";
    assert StatusName(Disputed) == "disputed";
    assert StatusName(Unverified) == "unverified";
  }

  /** The page component: its two `useState` variables and the completion
      timers it has scheduled and that have not fired yet. */
  class Page {
    var isAnalyzing: bool
    var factChecks: Nullable<seq<FactCheck>>
    var pendingCompletions: nat

    ghost predicate Valid()
      reads this
    {
      isAnalyzing ==> pendingCompletions > 0
    }

    constructor ()
      ensures Valid()
      ensures !isAnalyzing && factChecks == Null && pendingCompletions == 0
    {
      isAnalyzing := false;
      factChecks := Null;
      pendingCompletions := 0;
    }

    /** `handleFileSelect`: whatever the file, an analysis starts and one more
        completion is scheduled; earlier results are kept. */
    method HandleFileSelect(file: FileUploader.File)
      requires Valid()
      modifies this
      ensures Valid()
      ensures isAnalyzing && pendingCompletions == old(pendingCompletions) + 1
      ensures factChecks == old(factChecks)
    {
      isAnalyzing := true;
      pendingCompletions := pendingCompletions + 1;
    }

    /** The oldest scheduled completion fires. */
    method FireCompletion()
      requires Valid() && pendingCompletions > 0
      modifies this
      ensures Valid()
      ensures factChecks == NonNull(MockFactChecks) && !isAnalyzing
      ensures pendingCompletions == old(pendingCompletions) - 1
    {
      factChecks := NonNull(MockFactChecks);
      isAnalyzing := false;
      pendingCompletions := pendingCompletions - 1;
    }
  }

  /** The results sections are rendered. */
  predicate ResultsShown(factChecks: Nullable<seq<FactCheck>>, isAnalyzing: bool) {
    factChecks.NonNull? && !isAnalyzing
  }

  /** The page's uploader finishes: it shows the file and hands it to
      `handleFileSelect`, which starts the analysis. */
  method DeliverUpload(page: Page, uploader: FileUploader.Uploader) returns (file: FileUploader.File)
    requires page.Valid() && uploader.Valid() && uploader.pendingUpload.NonNull?
    modifies page, uploader
    ensures page.Valid() && uploader.Valid()
    ensures file == old(uploader.pendingUpload).value && uploader.uploadedFile == NonNull(file)
    ensures !uploader.isUploading && uploader.pendingUpload == Null
    ensures uploader.isDragging == old(uploader.isDragging)
    ensures page.isAnalyzing && page.pendingCompletions == old(page.pendingCompletions) + 1
    ensures page.factChecks == old(page.factChecks)
  {
    file := uploader.FireUploadComplete();
    page.HandleFileSelect(file);
  }

  /** Dropping "deck.pdf" of 2 MB on the page's uploader: the upload completes
      and starts the analysis, and after its completion the summary reads
      3 verified, 1 disputed, 2 unverified. */
  method DeckScenario() returns (selected: FileUploader.File, stats: Nullable<Stats>, shown: bool)
    ensures selected == FileUploader.File("deck.pdf", 2 * 1024 * 1024)
    ensures stats == NonNull(Stats(3, 1, 2)) && shown
  {
    var page := new Page();
    var uploader := new FileUploader.Uploader(FileUploader.DefaultAcceptedTypes);
    uploader.HandleDrop([FileUploader.File("deck.pdf", 2 * 1024 * 1024)]);
    selected := DeliverUpload(page, uploader);
    page.FireCompletion();
    MockStats();
    stats := ComputeStats(page.factChecks);
    shown := ResultsShown(page.factChecks, page.isAnalyzing);
  }
}
