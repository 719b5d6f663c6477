# investor-s-edge: the dashboard's interaction core in Dafny

The dashboard shows mocked investor analyses. Each page runs a small
event-driven state machine: a query or file starts a simulated analysis, and a
timer later installs a fixed result. The voice pitch session adds a recording
toggle, a demo pause, a 20-bar level meter and canned investor reactions. This
project models those machines and the pure classifiers and tallies beside them.

The model is laid out like the source:

- one module per component: `CompanyAnalysis`, `MarketAnalysis`,
  `FactChecker`, `PitchAnalyzer`, `VoiceInterface`, `FileUploader`;
- each component is a class whose fields are its `useState` variables and
  whose methods are its handlers;
- every `setTimeout`/`setInterval` callback is an explicit `Fire…`/`Tick…`
  method that may only run once the timer exists;
- pending completions are a count; the uploader's completion captured a file,
  and its render guards allow only one upload at a time, so it holds that
  file directly (`FileUploader.Uploader.pendingUpload`);
- a handler runs only while the element it is attached to is rendered and
  takes events: the uploader's drag handlers need a drop zone that is shown and
  not under `pointer-events-none`, its input must be enabled, and its remove
  button exists only on the uploaded file's card;
- `Math.random()` is a `real` parameter `r` with `0.0 <= r < 1.0`;
- `JsString` models `String.prototype.trim` (ECMAScript white space and line
  terminators) and `Array.prototype.join`;
- `Nullable` models `T | null`.

React effects (VoiceInterface) run as the last step of the handler that changed
their dependencies: first the cleanups, then the effect bodies. The reaction
effect also depends on the parent's `onInvestorResponse` callback, which changes
identity every time PitchAnalyzer re-renders. `VoiceInterface.Session.CallbackChanged`
models that re-render, and `PitchAnalyzer.DeliverReaction` wires a fired
reaction through the page and back.

Three behaviours of the code are easy to miss:

- A second submit while a lookup is pending is not ignored. The button is
  disabled, but the Enter key still reaches `handleAnalyze`, so a second
  completion is scheduled (`CompanyAnalysis.DoubleSubmitScenario`).
- A new submit does not discard the previous result. The result is only hidden
  while the loader shows.
- The uploader does no extension filtering. The accepted types only become the
  input's `accept` attribute (`FileUploader.NoExtensionCheckScenario`).

## Model

| member | source | states |
|---|---|---|
| JsString.LeadingWhiteSpace | src/pages/CompanyAnalysis.tsx:70 | the length of the longest white-space prefix: all of it is white space, and the next character is not |
| JsString.TrailingWhiteSpace | src/pages/CompanyAnalysis.tsx:70 | the length of the longest white-space suffix: all of it is white space, and the character before it is not |
| JsString.Trim | src/pages/CompanyAnalysis.tsx:70 | `trim()` is never longer than its input and neither starts nor ends with white space |
| JsString.TrimIsInfix | src/pages/CompanyAnalysis.tsx:70 | `trim()` returns a contiguous piece of the input with only white space cut on either side |
| JsString.BlankIffAllWhiteSpace | src/pages/CompanyAnalysis.tsx:70 | the guard `!companyName.trim()` holds exactly for strings made only of white space, the empty string included |
| JsString.IsBlank | src/pages/CompanyAnalysis.tsx:70 | the submit guard `!companyName.trim()`; `BlankIffAllWhiteSpace` characterises it |
| JsString.Join | src/components/pitch/FileUploader.tsx:92 | joining no items gives the empty string, joining one item gives that item, and joining two or more puts the separator between the join of all but the last item and the last item |
| CompanyAnalysis.ButtonEnabled | src/pages/CompanyAnalysis.tsx:106 | the negation of the button's `disabled`; `ButtonEnabledIff` characterises it |
| CompanyAnalysis.LoaderShown | src/pages/CompanyAnalysis.tsx:114 | the loader's render guard; `LoaderExcludesResults` relates it to the results |
| CompanyAnalysis.ResultsShown | src/pages/CompanyAnalysis.tsx:119 | the results' render guard; `LoaderExcludesResults` and the scenarios use it |
| CompanyAnalysis.ButtonEnabledIff | src/pages/CompanyAnalysis.tsx:106 | the button is enabled exactly when the name holds a non-white-space character and no analysis is running |
| CompanyAnalysis.LoaderExcludesResults | src/pages/CompanyAnalysis.tsx:106-119 | loader and results are never both rendered, and the button is disabled while the loader shows |
| CompanyAnalysis.Page.constructor | src/pages/CompanyAnalysis.tsx:65-67 | the page starts with an empty query, not analyzing, no data and no timer |
| CompanyAnalysis.Page.EditQuery | src/pages/CompanyAnalysis.tsx:97 | `onChange` replaces the query and changes nothing else |
| CompanyAnalysis.Page.HandleAnalyze | src/pages/CompanyAnalysis.tsx:69-78 | a blank name changes nothing and schedules nothing; otherwise `isAnalyzing` is set and exactly one more completion is scheduled, whether or not one was already pending; old data and the query are kept |
| CompanyAnalysis.Page.KeyDown | src/pages/CompanyAnalysis.tsx:100 | Enter submits regardless of `isAnalyzing`; any other key changes nothing |
| CompanyAnalysis.Page.ClickAnalyze | src/pages/CompanyAnalysis.tsx:103-107 | a click submits only when the button is enabled; a disabled button changes nothing |
| CompanyAnalysis.Page.FireCompletion | src/pages/CompanyAnalysis.tsx:74-77 | a completion installs `mockCompanyData` and clears `isAnalyzing`, whatever the query, and one fewer completion is pending |
| CompanyAnalysis.StripeScenario | src/pages/CompanyAnalysis.tsx:69-119 | after submitting "Stripe", only the loader shows; after the completion the fixed profile is shown |
| CompanyAnalysis.DoubleSubmitScenario | src/pages/CompanyAnalysis.tsx:69-119 | two Enter presses schedule two completions although the button is disabled after the first; results show after one fires while the other is still pending |
| MarketAnalysis.ButtonEnabled | src/pages/MarketAnalysis.tsx:107 | the negation of the button's `disabled`; `ButtonEnabledIff` characterises it |
| MarketAnalysis.LoaderShown | src/pages/MarketAnalysis.tsx:114 | the loader's render guard; `BlankSubmitScenario` uses it |
| MarketAnalysis.ResultsShown | src/pages/MarketAnalysis.tsx:118 | the results' render guard, true only with data and no analysis running |
| MarketAnalysis.ButtonEnabledIff | src/pages/MarketAnalysis.tsx:107 | the button is enabled exactly when the name holds a non-white-space character and no analysis is running |
| MarketAnalysis.MockSharesFormAWhole | src/pages/MarketAnalysis.tsx:44-50 | every competitor share in the fixture lies in 0..100, and the shares sum to 100 |
| MarketAnalysis.TrendMarkers | src/pages/MarketAnalysis.tsx:204-210 | each competitor row renders exactly one trend marker |
| MarketAnalysis.Page.constructor | src/pages/MarketAnalysis.tsx:67-69 | the page starts with an empty query, not analyzing, no data and no timer |
| MarketAnalysis.Page.EditQuery | src/pages/MarketAnalysis.tsx:98 | `onChange` replaces the query and changes nothing else |
| MarketAnalysis.Page.HandleAnalyze | src/pages/MarketAnalysis.tsx:71-79 | a blank name is a no-op; otherwise `isAnalyzing` is set and one more completion is scheduled; the old data is kept |
| MarketAnalysis.Page.KeyDown | src/pages/MarketAnalysis.tsx:101 | Enter submits and bypasses the analyzing check |
| MarketAnalysis.Page.ClickAnalyze | src/pages/MarketAnalysis.tsx:104-108 | a click submits only when the button is enabled |
| MarketAnalysis.Page.FireCompletion | src/pages/MarketAnalysis.tsx:75-78 | a completion installs `mockMarketData` and clears `isAnalyzing`, independent of the query |
| MarketAnalysis.BlankSubmitScenario | src/pages/MarketAnalysis.tsx:72 | Enter on a white-space-only query leaves the page idle with nothing scheduled |
| FactChecker.CountStatus | src/pages/FactChecker.tsx:130-132 | a filter count is at most the list length, and it is zero exactly when no claim has that status |
| FactChecker.CountsPartition | src/pages/FactChecker.tsx:129-133 | the verified, disputed and unverified counts sum to the number of claims |
| FactChecker.CountAppend | src/pages/FactChecker.tsx:130-132 | a filter count over a concatenation is the sum of the counts over the parts |
| FactChecker.ComputeStats | src/pages/FactChecker.tsx:129-133 | `stats` is null exactly when `factChecks` is null, and otherwise its counts sum to the list length |
| FactChecker.MockStats | src/pages/FactChecker.tsx:30-82 | the fixture has 6 claims and tallies 3 verified, 1 disputed and 2 unverified |
| FactChecker.MockFactChecksWellFormed | src/pages/FactChecker.tsx:30-82 | fixture ids are pairwise distinct (usable as list keys), and every confidence lies in 0..100 |
| FactChecker.GetStatusConfig | src/pages/FactChecker.tsx:96-127 | `getStatusConfig`'s switch; `StatusConfigClassifies` states what it distinguishes |
| FactChecker.StatusConfigClassifies | src/pages/FactChecker.tsx:96-127 | the three statuses get distinct colours and icons and never the default; every other string gets the default config |
| FactChecker.Page.constructor | src/pages/FactChecker.tsx:85-86 | the page starts not analyzing, with no results and no timer |
| FactChecker.Page.HandleFileSelect | src/pages/FactChecker.tsx:88-94 | any file sets `isAnalyzing` and schedules one more completion; earlier results are kept |
| FactChecker.Page.FireCompletion | src/pages/FactChecker.tsx:90-93 | a completion installs `mockFactChecks` and clears `isAnalyzing` |
| FactChecker.ResultsShown | src/pages/FactChecker.tsx:155 | the results' render guard; `DeckScenario` shows it holding after the completion |
| FactChecker.DeliverUpload | src/pages/FactChecker.tsx:88-94 | the uploader's completion shows its file and passes that very file to `handleFileSelect`, which starts the analysis and schedules one more completion; the uploader's drag state is unchanged |
| FactChecker.DeckScenario | src/pages/FactChecker.tsx:88-155 | "deck.pdf" (2 MB) dropped on the page's uploader is the file forwarded; after the analysis completes the results show and the summary reads 3, 1 and 2 |
| PitchAnalyzer.ScoreColor | src/pages/PitchAnalyzer.tsx:48-52 | `getScoreColor`; `ScoreColorBands` states its bands and monotonicity |
| PitchAnalyzer.ScoreColorBands | src/pages/PitchAnalyzer.tsx:48-52 | score 80 and up gives primary, 60 to 79 gives accent, below 60 gives destructive, and a higher score never gets a worse colour |
| PitchAnalyzer.StatusIcon | src/pages/PitchAnalyzer.tsx:54-61 | `getStatusIcon`; `StatusIconClassifies` states what it distinguishes |
| PitchAnalyzer.StatusIconClassifies | src/pages/PitchAnalyzer.tsx:54-61 | good, warning and critical get three distinct icons; any other string gets none |
| PitchAnalyzer.BandColor | src/pages/PitchAnalyzer.tsx:48-52 | a score inside a status's band is drawn in that status's colour |
| PitchAnalyzer.MockFeedbackConsistent | src/pages/PitchAnalyzer.tsx:21-28 | every fixture item's status matches its score band, so score colour and status agree |
| PitchAnalyzer.ResultsShown | src/pages/PitchAnalyzer.tsx:149 | the results' render guard; `ResultsShownMonotone` and the scenarios state when it holds |
| PitchAnalyzer.ResultsShownMonotone | src/pages/PitchAnalyzer.tsx:149 | once results are shown they stay shown as `analysisComplete` turns on and responses are appended |
| PitchAnalyzer.BadgeStatus | src/pages/PitchAnalyzer.tsx:80 | the badge reads "analyzing" exactly when a pitch has started, otherwise "pending" |
| PitchAnalyzer.VoicePanelShown | src/pages/PitchAnalyzer.tsx:129 | the voice panel's render guard `inputMode === "voice"`; `ExactlyOnePanel` relates it to the upload panel |
| PitchAnalyzer.FilePanelShown | src/pages/PitchAnalyzer.tsx:139 | the upload panel's render guard `inputMode === "file"`; `ExactlyOnePanel` relates it to the voice panel |
| PitchAnalyzer.ExactlyOnePanel | src/pages/PitchAnalyzer.tsx:129-146 | exactly one of the voice and upload panels is rendered, chosen by `inputMode` |
| PitchAnalyzer.Page.constructor | src/pages/PitchAnalyzer.tsx:31-34 | voice mode, no pitch started, no analysis, no responses, results hidden |
| PitchAnalyzer.Page.SetInputMode | src/pages/PitchAnalyzer.tsx:85-106 | a mode button only changes `inputMode` |
| PitchAnalyzer.Page.HandleFileSelect | src/pages/PitchAnalyzer.tsx:36-42 | `hasStartedPitch` becomes true and one analysis is scheduled; visible results stay visible |
| PitchAnalyzer.Page.FireAnalysisComplete | src/pages/PitchAnalyzer.tsx:39-41 | `analysisComplete` becomes true (and is never reset), so results are shown |
| PitchAnalyzer.Page.HandleInvestorResponse | src/pages/PitchAnalyzer.tsx:44-46 | exactly one response is appended at the end and all earlier ones are kept in order |
| PitchAnalyzer.DeliverReaction | src/pages/PitchAnalyzer.tsx:44-46 | a fired voice reaction, drawn from the pool, is both shown in the session and appended to the page's responses; the parent's re-render re-arms the reaction timer while still paused; the page's mode, flags and pending analyses and the session's pending unpauses are unchanged |
| PitchAnalyzer.DeliverUpload | src/pages/PitchAnalyzer.tsx:36-42 | the file panel's uploader completes, shows its file and passes it to `handleFileSelect`, which starts the pitch and schedules one analysis; the uploader's drag state and the page's other fields are unchanged |
| PitchAnalyzer.DeckUploadScenario | src/pages/PitchAnalyzer.tsx:36-149 | a deck chosen in file mode makes the badge read "analyzing" with results still hidden; the analysis completion reveals them |
| PitchAnalyzer.ThreeReactionsScenario | src/pages/PitchAnalyzer.tsx:149 | results are hidden after two responses and shown after the third, with no upload (badge still "pending") |
| VoiceInterface.ReactionIndex | src/components/pitch/VoiceInterface.tsx:48 | `Math.floor(Math.random() * 8)` lies in [0, 8) |
| VoiceInterface.PickReaction | src/components/pitch/VoiceInterface.tsx:12-21 | the chosen reaction is always a line of the 8-string pool |
| VoiceInterface.EveryReactionReachable | src/components/pitch/VoiceInterface.tsx:48 | every line of the pool is chosen by some draw in [0, 1) |
| VoiceInterface.Level | src/components/pitch/VoiceInterface.tsx:39 | a ticked bar `random * 0.8 + 0.2` lies in [0.2, 1.0) |
| VoiceInterface.Tick | src/components/pitch/VoiceInterface.tsx:38-40 | a tick keeps the number of bars and gives each bar a fresh sample |
| VoiceInterface.StatusText | src/components/pitch/VoiceInterface.tsx:92 | the status line's nested ternary; `StatusTextCases` states its three cases |
| VoiceInterface.StatusTextCases | src/components/pitch/VoiceInterface.tsx:92 | not recording gives "Ready to analyze", recording and paused gives the "Paused" line, recording unpaused gives "Recording your pitch" |
| VoiceInterface.IndicatorClasses | src/components/pitch/VoiceInterface.tsx:85-90 | the indicator dot's three conditional classes; `OneIndicatorColour` counts them |
| VoiceInterface.OneIndicatorColour | src/components/pitch/VoiceInterface.tsx:85-90 | in every reachable state the indicator gets exactly one colour class |
| VoiceInterface.Session.constructor | src/components/pitch/VoiceInterface.tsx:24-28 | not recording, not paused, empty `aiResponse`, 20 bars at 0.2, no timers |
| VoiceInterface.Session.RerunEffects | src/components/pitch/VoiceInterface.tsx:31-61 | after a dependency change the interval runs exactly while recording unpaused, the meter rests at baseline otherwise, and a reaction timer is armed exactly while paused and recording |
| VoiceInterface.Session.ToggleRecording | src/components/pitch/VoiceInterface.tsx:63-71 | stopping clears recording and pause and keeps `aiResponse`; starting sets recording, clears `aiResponse`, keeps the pause flag and leaves the bars at baseline |
| VoiceInterface.Session.SimulatePause | src/components/pitch/VoiceInterface.tsx:73-76 | the session pauses and one more unpause timeout is pending; a first pause arms the reaction timer and rests the meter |
| VoiceInterface.Session.FireUnpause | src/components/pitch/VoiceInterface.tsx:75 | an unpause timeout clears `isPaused` unconditionally and disarms any reaction timer |
| VoiceInterface.Session.TickLevels | src/components/pitch/VoiceInterface.tsx:37-41 | a tick only replaces samples, keeps exactly 20 bars in [0.2, 1.0), and changes no other state |
| VoiceInterface.Session.FireReaction | src/components/pitch/VoiceInterface.tsx:47-59 | a reaction fires only while paused and recording, is a line of the pool, is stored in `aiResponse`, and is the value passed to `onInvestorResponse` |
| VoiceInterface.Session.CallbackChanged | src/components/pitch/VoiceInterface.tsx:47-61 | a new callback re-runs only the reaction effect, which arms a timer exactly while paused and recording |
| VoiceInterface.DoublePauseScenario | src/components/pitch/VoiceInterface.tsx:63-76 | with two pauses in a row, the first pause's timeout ends the second pause early; stopping rests the meter at baseline |
| FileUploader.AcceptAttribute | src/components/pitch/FileUploader.tsx:92 | the input's `accept` string; `DefaultAccept` evaluates it for the default prop |
| FileUploader.DefaultAccept | src/components/pitch/FileUploader.tsx:14 | the default `accept` string is ".pdf,.ppt,.pptx" |
| FileUploader.Uploader.constructor | src/components/pitch/FileUploader.tsx:12-18 | not dragging, no file, not uploading, no timer |
| FileUploader.Uploader.DropZoneShown | src/components/pitch/FileUploader.tsx:72 | the drop zone (with its input) is rendered exactly while no file is shown |
| FileUploader.Uploader.InputDisabled | src/components/pitch/FileUploader.tsx:95 | the input's `disabled` attribute; `HandleInputChange` requires it false |
| FileUploader.Uploader.DropZoneLive | src/components/pitch/FileUploader.tsx:72-88 | the drop zone gets drag events: rendered and not under `pointer-events-none`; the drag handlers require it |
| FileUploader.Uploader.HandleDragIn | src/components/pitch/FileUploader.tsx:25-29 | drag-enter sets `isDragging` and nothing else |
| FileUploader.Uploader.HandleDragOut | src/components/pitch/FileUploader.tsx:31-35 | drag-leave clears `isDragging` and nothing else |
| FileUploader.Uploader.HandleDrag | src/components/pitch/FileUploader.tsx:20-23 | drag-over changes no state |
| FileUploader.Uploader.HandleFile | src/components/pitch/FileUploader.tsx:48-56 | any file, with no extension check, starts an upload whose pending completion holds that file |
| FileUploader.Uploader.HandleDrop | src/components/pitch/FileUploader.tsx:37-46 | drop clears `isDragging` and forwards only `files[0]`, only when the list is non-empty |
| FileUploader.Uploader.HandleInputChange | src/components/pitch/FileUploader.tsx:58-63 | input change, possible only on the rendered, enabled input, forwards only `files[0]`, only when the list is non-empty; otherwise nothing changes |
| FileUploader.Uploader.FireUploadComplete | src/components/pitch/FileUploader.tsx:51-55 | the completion shows the same file it was started for, clears `isUploading`, hides the drop zone, and returns that file as the one argument of the single `onFileSelect` call |
| FileUploader.Uploader.RemoveFile | src/components/pitch/FileUploader.tsx:65-67 | the card's remove button sets `uploadedFile` to null, bringing back a live drop zone, and touches nothing else |
| FileUploader.NoExtensionCheckScenario | src/components/pitch/FileUploader.tsx:37-56 | a dropped "notes.txt" is uploaded, shown and forwarded like a deck, and the drop zone is hidden |

## Left out

- Animation, CSS classes, icons and layout are rendering only. The exceptions are the few classes whose choice is itself a property: the score colour, the status config and the indicator dot.
- Timer durations (100 to 3500 ms) are not modelled. The environment chooses which armed timer fires next, so every interleaving is covered. Among a component's timers with one delay, the oldest fires first.
- Timers that outlive an unmounted page, and component mount and unmount in general, are not modelled. They depend on React internals.
- The transcript and `onTranscript` are left out. `setTranscript` is never called.
- The file-size text (`size / 1024 / 1024` with `toFixed(2)`) is left out. It is floating-point string formatting.
- `handleDrop` is memoised with no dependencies, so it calls the `onFileSelect` of the first render. Both parents pass handlers whose only effects are stable state setters, so this behaves the same and is not modelled.
- PitchAnalyzer's hard-coded overall score (72) and the static parts of the pages are displayed constants with no behaviour.
- The Index page, the common presentational components, the page layout, the sidebar and the routing in App.tsx are not part of this model. They hold no state machine.
- VoiceInterface.Level: the draw is a real number in [0, 1), not an IEEE double; with doubles the largest draw, 1 - 2^-53, makes `random * 0.8 + 0.2` round to exactly 1.0, so the upper bound is strict only over the reals.
- VoiceInterface.Session.TickLevels: each draw is a real number in [0, 1), not an IEEE double, so rounding of `random * 0.8 + 0.2` is not modelled.
- PitchAnalyzer.ScoreColorBands: scores are integers, as in every fixture; fractional scores are not modelled.
