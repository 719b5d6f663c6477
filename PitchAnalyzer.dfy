/** The pitch analyzer page: a live voice session or a deck upload, whose
    investor reactions and delayed analysis reveal a fixed scored breakdown. */
module PitchAnalyzer {
  import FileUploader
  import VoiceInterface
  import opened Nullable

  datatype InputMode = Voice | FileMode

  datatype FeedbackStatus = Good | Warning | Critical

  datatype PitchFeedback = PitchFeedback(category: string, score: int, feedback: string, status: FeedbackStatus)

  /** The category breakdown the results section always shows. */
  const MockFeedback := [
    PitchFeedback("Problem Statement", 85, "Clear and compelling problem identification. Consider adding more specific market data.", Good),
    PitchFeedback("Solution", 72, "Technical solution is strong but business model clarity needs improvement.", Warning),
    PitchFeedback("Market Size", 45, "TAM/SAM/SOM breakdown is missing. Critical for investor evaluation.", Critical),
    PitchFeedback("Traction", 90, "Excellent traction metrics with clear growth trajectory.", Good),
    PitchFeedback("Team", 78, "Strong founding team but advisory board could strengthen credibility.", Warning),
    PitchFeedback("Financials", 62, "Unit economics need clearer explanation. LTV/CAC ratio unclear.", Warning)
  ]

  /** `getScoreColor`: the text colour of a score. */
  function ScoreColor(score: int): string {
    if score >= 80 then "text-primary"
    else if score >= 60 then "text-accent"
    else "text-destructive"
  }

  /** How good a colour says a score is: destructive < accent < primary. */
  function ColorRank(color: string): int {
    if color == "text-primary" then 2 else if color == "text-accent" then 1 else 0
  }

  /** The bands of `getScoreColor`: 80 and up, 60 to 79, below 60, and a higher
      score never gets a worse colour. */
  lemma ScoreColorBands(score: int, higher: int)
    ensures ScoreColor(score) == "text-primary" <==> score >= 80
    ensures ScoreColor(score) == "text-accent" <==> 60 <= score < 80
    ensures ScoreColor(score) == "text-destructive" <==> score < 60
    ensures score <= higher ==> ColorRank(ScoreColor(score)) <= ColorRank(ScoreColor(higher))
  {
  }

  datatype Icon = CheckCircle | AlertTriangle | XCircle

  /** `getStatusIcon`: an icon for the three known statuses, nothing otherwise. */
  function StatusIcon(status: string): (r: Nullable<Icon>) {
    if status == "good" then NonNull(CheckCircle)
    else if status == "warning" then NonNull(AlertTriangle)
    else if status == "critical" then NonNull(XCircle)
    else Null
  }

  function StatusName(s: FeedbackStatus): string {
    match s
    case Good => "good"
    case Warning => "warning"
    case Critical => "critical"
  }

  /** The three statuses get three different icons; every other string none. */
  lemma StatusIconClassifies(a: FeedbackStatus, b: FeedbackStatus, other: string)
    ensures StatusIcon(StatusName(a)).NonNull?
    ensures a != b ==> StatusIcon(StatusName(a)) != StatusIcon(StatusName(b))
    ensures (forall s :: StatusName(s) != other) ==> StatusIcon(other).Null?
  {
    assert StatusName(Good) == "good";
    assert StatusName(Warning) == "warning";
    assert StatusName(Critical) == "critical";
  }

  /** The band a status stands for. */
  predicate InBand(s: FeedbackStatus, score: int) {
    match s
    case Good => score >= 80
    case Warning => 60 <= score < 80
    case Critical => score < 60
  }

  /** The colour a status stands for, in the text-colour classes of `getScoreColor`. */
  function StatusColor(s: FeedbackStatus): string {
    match s
    case Good => "text-primary"
    case Warning => "text-accent"
    case Critical => "text-destructive"
  }

  /** A score inside a status's band is drawn in that status's colour. */
  lemma BandColor(s: FeedbackStatus, score: int)
    requires InBand(s, score)
    ensures ScoreColor(score) == StatusColor(s)
  {
  }

  /** In the fixture every category's status matches its score's band, so the
      score is drawn in the status's colour. */
  lemma MockFeedbackConsistent()
    ensures forall i :: 0 <= i < |MockFeedback| ==> InBand(MockFeedback[i].status, MockFeedback[i].score)
    ensures forall i :: 0 <= i < |MockFeedback| ==> ScoreColor(MockFeedback[i].score) == StatusColor(MockFeedback[i].status)
  {
    forall i | 0 <= i < |MockFeedback|
      ensures ScoreColor(MockFeedback[i].score) == StatusColor(MockFeedback[i].status)
    {
      BandColor(MockFeedback[i].status, MockFeedback[i].score);
    }
  }

  /** The results section is rendered. */
  predicate ResultsShown(analysisComplete: bool, responses: seq<string>) {
    analysisComplete || |responses| > 2
  }

  /** The visibility rule is monotone in both inputs: once shown, results stay
      shown as the flag turns on and responses are added at the end. */
  lemma ResultsShownMonotone(c: bool, rs: seq<string>, c': bool, rs': seq<string>)
    requires c ==> c'
    requires rs <= rs'
    ensures ResultsShown(c, rs) ==> ResultsShown(c', rs')
  {
  }

  /** The status badge. */
  function BadgeStatus(hasStartedPitch: bool): (status: string)
    ensures status == "analyzing" <==> hasStartedPitch
    ensures status == "pending" <==> !hasStartedPitch
  {
    if hasStartedPitch then "analyzing" else "pending"
  }

  /** The voice panel and the upload panel, each guarded by its own `inputMode ===` test. */
  predicate VoicePanelShown(m: InputMode) { m == Voice }
  predicate FilePanelShown(m: InputMode) { m == FileMode }

  /** Exactly one of the two panels is on screen. */
  lemma ExactlyOnePanel(m: InputMode)
    ensures VoicePanelShown(m) != FilePanelShown(m)
  {
  }

  /** The page component: its four `useState` variables and the analysis timers
      it has scheduled and that have not fired yet. */
  class Page {
    var inputMode: InputMode
    var hasStartedPitch: bool
    var analysisComplete: bool
    var investorResponses: seq<string>
    var pendingAnalyses: nat

    /** An analysis is only ever scheduled once a pitch has been started. */
    ghost predicate Valid()
      reads this
    {
      (pendingAnalyses > 0 || analysisComplete) ==> hasStartedPitch
    }

    constructor ()
      ensures Valid()
      ensures inputMode == Voice && !hasStartedPitch && !analysisComplete
      ensures investorResponses == [] && pendingAnalyses == 0
      ensures !ResultsShown(analysisComplete, investorResponses)
    {
      inputMode := Voice;
      hasStartedPitch := false;
      analysisComplete := false;
      investorResponses := [];
      pendingAnalyses := 0;
    }

    /** One of the two mode buttons. */
    method SetInputMode(m: InputMode)
      requires Valid()
      modifies this
      ensures Valid()
      ensures inputMode == m
      ensures hasStartedPitch == old(hasStartedPitch) && analysisComplete == old(analysisComplete)
      ensures investorResponses == old(investorResponses) && pendingAnalyses == old(pendingAnalyses)
    {
      inputMode := m;
    }

    /** `handleFileSelect`, called by the uploader with the uploaded file. */
    method HandleFileSelect(file: FileUploader.File)
      requires Valid()
      modifies this
      ensures Valid()
      ensures hasStartedPitch && pendingAnalyses == old(pendingAnalyses) + 1
      ensures inputMode == old(inputMode) && analysisComplete == old(analysisComplete)
      ensures investorResponses == old(investorResponses)
      ensures old(ResultsShown(analysisComplete, investorResponses)) ==> ResultsShown(analysisComplete, investorResponses)
    {
      hasStartedPitch := true;
      pendingAnalyses := pendingAnalyses + 1;
    }

    /** The oldest scheduled analysis finishes. */
    method FireAnalysisComplete()
      requires Valid() && pendingAnalyses > 0
      modifies this
      ensures Valid()
      ensures analysisComplete && pendingAnalyses == old(pendingAnalyses) - 1
      ensures inputMode == old(inputMode) && hasStartedPitch == old(hasStartedPitch)
      ensures investorResponses == old(investorResponses)
      ensures ResultsShown(analysisComplete, investorResponses)
    {
      analysisComplete := true;
      pendingAnalyses := pendingAnalyses - 1;
    }

    /** `handleInvestorResponse`: the response goes at the end, all earlier ones
        stay where they were. */
    method HandleInvestorResponse(response: string)
      requires Valid()
      modifies this
      ensures Valid()
      ensures investorResponses == old(investorResponses) + [response]
      ensures inputMode == old(inputMode) && hasStartedPitch == old(hasStartedPitch)
      ensures analysisComplete == old(analysisComplete) && pendingAnalyses == old(pendingAnalyses)
      ensures old(ResultsShown(analysisComplete, investorResponses)) ==> ResultsShown(analysisComplete, investorResponses)
    {
      investorResponses := investorResponses + [response];
    }
  }

  /** A reaction of the voice session reaches the page: the session's timeout
      fires, the page appends the line through `handleInvestorResponse`, and
      the page's re-render hands the session a new callback, which re-arms the
      reaction timeout if the session is still paused. */
  method DeliverReaction(page: Page, voice: VoiceInterface.Session, r: real) returns (reaction: string)
    requires page.Valid() && voice.Valid() && voice.reactionTimerArmed && 0.0 <= r < 1.0
    modifies page, voice
    ensures page.Valid() && voice.Valid()
    ensures reaction in VoiceInterface.InvestorReactions && voice.aiResponse == reaction
    ensures page.investorResponses == old(page.investorResponses) + [reaction]
    ensures page.inputMode == old(page.inputMode) && page.hasStartedPitch == old(page.hasStartedPitch)
    ensures page.analysisComplete == old(page.analysisComplete) && page.pendingAnalyses == old(page.pendingAnalyses)
    ensures voice.reactionTimerArmed && voice.pendingUnpauses == old(voice.pendingUnpauses)
  {
    reaction := voice.FireReaction(r);
    page.HandleInvestorResponse(reaction);
    voice.CallbackChanged();
  }

  /** The uploader of the file panel finishes: it shows the file and hands it
      to `handleFileSelect`, which starts the pitch and schedules its analysis. */
  method DeliverUpload(page: Page, uploader: FileUploader.Uploader) returns (file: FileUploader.File)
    requires page.Valid() && uploader.Valid() && uploader.pendingUpload.NonNull?
    modifies page, uploader
    ensures page.Valid() && uploader.Valid()
    ensures file == old(uploader.pendingUpload).value && uploader.uploadedFile == NonNull(file)
    ensures !uploader.isUploading && uploader.pendingUpload == Null
    ensures uploader.isDragging == old(uploader.isDragging)
    ensures page.hasStartedPitch && page.pendingAnalyses == old(page.pendingAnalyses) + 1
    ensures page.inputMode == old(page.inputMode) && page.analysisComplete == old(page.analysisComplete)
    ensures page.investorResponses == old(page.investorResponses)
  {
    file := uploader.FireUploadComplete();
    page.HandleFileSelect(file);
  }

  /** A deck chosen in file mode: while its analysis is pending the badge
      reads "analyzing" but no results show; its completion reveals them. */
  method DeckUploadScenario() returns (badge: string, shownWhilePending: bool, shownAfter: bool)
    ensures badge == "analyzing" && !shownWhilePending && shownAfter
  {
    var page := new Page();
    page.SetInputMode(FileMode);
    var uploader := new FileUploader.Uploader(FileUploader.DefaultAcceptedTypes);
    uploader.HandleInputChange([FileUploader.File("pitch.pptx", 4096)]);
    var _ := DeliverUpload(page, uploader);
    badge := BadgeStatus(page.hasStartedPitch);
    shownWhilePending := ResultsShown(page.analysisComplete, page.investorResponses);
    page.FireAnalysisComplete();
    shownAfter := ResultsShown(page.analysisComplete, page.investorResponses);
  }

  /** Three investor reactions reveal the results without any upload. */
  method ThreeReactionsScenario(r1: string, r2: string, r3: string)
    returns (shownAfterTwo: bool, shownAfterThree: bool, badge: string)
    ensures !shownAfterTwo && shownAfterThree && badge == "pending"
  {
    var page := new Page();
    page.HandleInvestorResponse(r1);
    page.HandleInvestorResponse(r2);
    shownAfterTwo := ResultsShown(page.analysisComplete, page.investorResponses);
    page.HandleInvestorResponse(r3);
    shownAfterThree := ResultsShown(page.analysisComplete, page.investorResponses);
    badge := BadgeStatus(page.hasStartedPitch);
  }
}
