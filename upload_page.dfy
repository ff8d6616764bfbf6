/**
 * How the upload page (src/pages/Upload.tsx) drives the detection hook: its
 * `?model=` effect, the guard on its analyse button, and every run of the
 * page's events from the initial state.
 */
module UploadPage {
  import opened Wrappers
  import opened Catalogue
  import opened Detection

  /** The analyse button is enabled: `!(!selectedImage || !selectedModel || isAnalyzing)`. */
  predicate AnalyzeEnabled(s: SessionState) {
    !(!HasImage(s.selectedImage) || s.selectedModel.None? || s.isAnalyzing)
  }

  /**
   * The page's `useEffect` on the `model` query parameter: a truthy id found
   * in the catalogue selects that entry; anything else leaves the state alone.
   */
  function ModelFromQuery(s: SessionState, modelId: Option<string>): SessionState {
    if modelId.Some? && modelId.value != "" then
      match Find(DETECTION_MODELS, modelId.value)
      case Some(m) => ModelSet(s, Some(m))
      case None => s
    else s
  }

  /** The button is enabled exactly when the hook would start and no analysis is in flight. */
  lemma AnalyzeEnabledIff(s: SessionState)
    ensures AnalyzeEnabled(s) <==> CanAnalyze(s) && !s.isAnalyzing
    ensures AnalyzeEnabled(s) ==> !AnalyzeEnabled(AnalysisStarted(s).state)
  {
  }

  /**
   * A catalogue id in the query selects the catalogue entry with that id and
   * changes nothing else; an absent, empty or unknown id changes nothing.
   */
  lemma ModelFromQueryEffect(s: SessionState, modelId: Option<string>)
    ensures var t := ModelFromQuery(s, modelId);
      t.selectedImage == s.selectedImage && t.isAnalyzing == s.isAnalyzing && t.result == s.result
    ensures modelId.Some? && modelId.value in ["cnn", "transfer", "svm", "kmeans"] ==>
      var t := ModelFromQuery(s, modelId);
      t.selectedModel.Some? && t.selectedModel.value in DETECTION_MODELS && t.selectedModel.value.id == modelId.value
    ensures !(modelId.Some? && modelId.value in ["cnn", "transfer", "svm", "kmeans"]) ==>
      ModelFromQuery(s, modelId) == s
  {
    if modelId.Some? {
      CatalogueLookup(modelId.value);
    }
  }

  /** The same effect applied to the hook object. */
  method ApplyModelQuery(session: DetectionSession, modelId: Option<string>)
    modifies session
    ensures session.Snapshot() == ModelFromQuery(old(session.Snapshot()), modelId)
  {
    if modelId.Some? && modelId.value != "" {
      var found := Find(DETECTION_MODELS, modelId.value);
      if found.Some? {
        session.SetSelectedModel(found);
      }
    }
  }

  /**
   * The hook's state together with the analysis callbacks scheduled and not
   * yet run, oldest first. Every timer has the same delay, so they fire in
   * the order they were scheduled.
   */
  datatype Page = Page(state: SessionState, timers: seq<PendingAnalysis>)

  const INITIAL_PAGE := Page(INITIAL_STATE, [])

  /** What can happen on the page, each taken as one atomic step. */
  datatype Event =
    | FileRead(dataUrl: string)          // a chosen or dropped file has been read
    | ImageRemoved                       // the remove button: `handleImageSelect(null)`
    | ModelQuery(modelId: Option<string>)
    | AnalyzeClicked                     // a click on the analyse button
    | TimerFired(roll: Roll, isAI: bool) // the oldest analysis callback runs
    | Reset                              // `resetDetection`

  function Step(p: Page, e: Event): Page {
    match e
    case FileRead(dataUrl) => p.(state := ImageRead(p.state, dataUrl))
    case ImageRemoved => p.(state := ImageCleared(p.state))
    case ModelQuery(modelId) => p.(state := ModelFromQuery(p.state, modelId))
    case AnalyzeClicked =>
      // A disabled button does not deliver the click.
      if !AnalyzeEnabled(p.state) then p
      else
        var o := AnalysisStarted(p.state);
        Page(o.state, p.timers + [o.pending.value])
    case TimerFired(roll, isAI) =>
      if p.timers == [] then p
      else Page(AnalysisCompleted(p.state, p.timers[0], roll, isAI), p.timers[1..])
    case Reset => p.(state := Detection.Reset(p.state))
  }

  function Run(p: Page, events: seq<Event>): Page
    decreases |events|
  {
    if events == [] then p else Run(Step(p, events[0]), events[1..])
  }

  /** `name` is the display name of some catalogue entry. */
  predicate IsCatalogueName(name: string) {
    exists m :: m in DETECTION_MODELS && m.name == name
  }

  /**
   * What holds on every page the events can reach: at most one analysis in
   * flight, and `isAnalyzing` exactly when one is; every model selected or
   * captured is a catalogue entry; every stored result has a confidence in
   * 70..99 and names a catalogue model.
   */
  predicate Inv(p: Page) {
    && |p.timers| <= 1
    && (p.state.isAnalyzing <==> |p.timers| == 1)
    && (p.state.selectedModel.Some? ==> p.state.selectedModel.value in DETECTION_MODELS)
    && (forall i :: 0 <= i < |p.timers| ==> p.timers[i].model in DETECTION_MODELS)
    && (p.state.result.Some? ==>
          70 <= p.state.result.value.confidence <= 99 && IsCatalogueName(p.state.result.value.modelUsed))
  }

  lemma StepKeepsInv(p: Page, e: Event)
    requires Inv(p)
    ensures Inv(Step(p, e))
  {
    match e
    case ModelQuery(modelId) =>
      if modelId.Some? { FindSound(DETECTION_MODELS, modelId.value); }
    case TimerFired(roll, isAI) =>
      if p.timers != [] {
        assert p.timers[0].model in DETECTION_MODELS;
      }
    case _ =>
  }

  lemma {:induction false} RunKeepsInv(p: Page, events: seq<Event>)
    requires Inv(p)
    ensures Inv(Run(p, events))
    decreases |events|
  {
    if events != [] {
      StepKeepsInv(p, events[0]);
      RunKeepsInv(Step(p, events[0]), events[1..]);
    }
  }

  /**
   * On every run of the page from its initial state, at most one analysis is
   * in flight, and any result shown has a confidence the results card never
   * flags as low and names a catalogue model.
   */
  lemma EveryRunIsWellBehaved(events: seq<Event>)
    ensures var p := Run(INITIAL_PAGE, events);
      |p.timers| <= 1 && (p.state.isAnalyzing <==> p.timers != []) &&
      (p.state.result.Some? ==>
        !LowConfidence(p.state.result.value) && p.state.result.value.confidence <= 99 &&
        IsCatalogueName(p.state.result.value.modelUsed))
  {
    RunKeepsInv(INITIAL_PAGE, events);
  }

  /**
   * The button's guard is what keeps a second analysis from starting (the
   * hook alone would start one, see `StartIgnoresInFlight`): on a ready page
   * the first click schedules one callback and a second click does nothing.
   */
  lemma GuardPreventsSecondStart(s: SessionState)
    requires CanAnalyze(s) && !s.isAnalyzing
    ensures var p := Step(Page(s, []), AnalyzeClicked);
      |p.timers| == 1 && p.state.isAnalyzing && Step(p, AnalyzeClicked) == p
  {
  }
}
