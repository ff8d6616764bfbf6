/**
 * The detection-session hook (src/hooks/useDetection.tsx).
 *
 * The hook keeps four pieces of state. `SessionState` is their value and the
 * functions below are the transitions its handlers perform, each asynchronous
 * handler split into the step that runs when it is called and the step that
 * runs when its callback fires. `DetectionSession` is the hook itself: a
 * class whose fields are the four pieces of state and whose methods perform
 * those transitions in place.
 */
module Detection {
  import opened Wrappers
  import opened Catalogue

  /** The verdict the timer callback stores. */
  datatype DetectionResult = DetectionResult(
    isAI: bool,
    confidence: int,
    modelUsed: string,
    processingTime: string)

  /** A file handed to `handleImageSelect`; its contents are only seen once read. */
  datatype ImageFile = ImageFile(name: string)

  /** What the analysis timer callback closes over: the model selected when analysis started. */
  datatype PendingAnalysis = PendingAnalysis(model: DetectionModel)

  /** The value of `Math.floor(Math.random() * 30)`. */
  type Roll = r: int | 0 <= r < 30

  /** The four pieces of hook state. */
  datatype SessionState = SessionState(
    selectedImage: Option<string>,
    selectedModel: Option<DetectionModel>,
    isAnalyzing: bool,
    result: Option<DetectionResult>)

  /** The state the hook starts in. */
  const INITIAL_STATE := SessionState(None, None, false, None)

  /** JavaScript truthiness of the image: both null and the empty string are falsy. */
  predicate HasImage(image: Option<string>) {
    image.Some? && image.value != ""
  }

  /** The guard of `analyzeImage`: an image (truthy) and a model are selected. */
  predicate CanAnalyze(s: SessionState) {
    HasImage(s.selectedImage) && s.selectedModel.Some?
  }

  /** `handleImageSelect(null)`: the image is cleared, nothing else (not even the result). */
  function ImageCleared(s: SessionState): SessionState {
    s.(selectedImage := None)
  }

  /** The reader's `onload`: the data URL becomes the image and the old result is dropped. */
  function ImageRead(s: SessionState, dataUrl: string): SessionState {
    s.(selectedImage := Some(dataUrl), result := None)
  }

  /** `setSelectedModel`, the raw setter. */
  function ModelSet(s: SessionState, model: Option<DetectionModel>): SessionState {
    s.(selectedModel := model)
  }

  /** The synchronous part of `analyzeImage`: the new state and the callback it schedules, if any. */
  datatype StartOutcome = StartOutcome(state: SessionState, pending: Option<PendingAnalysis>)

  function AnalysisStarted(s: SessionState): (o: StartOutcome)
    ensures o.pending.Some? <==> CanAnalyze(s)
    ensures !CanAnalyze(s) ==> o.state == s
    ensures CanAnalyze(s) ==>
      o.state.isAnalyzing &&
      o.state.selectedImage == s.selectedImage && o.state.selectedModel == s.selectedModel &&
      o.state.result == s.result &&
      o.pending.value.model == s.selectedModel.value
  {
    if !CanAnalyze(s) then StartOutcome(s, None)
    else StartOutcome(s.(isAnalyzing := true), Some(PendingAnalysis(s.selectedModel.value)))
  }

  /** The result the timer callback builds from the captured model and its two random draws. */
  function GeneratedResult(p: PendingAnalysis, roll: Roll, isAI: bool): (r: DetectionResult)
    ensures 70 <= r.confidence <= 99
    ensures r.modelUsed == p.model.name && r.processingTime == p.model.detectionTime
    ensures r.isAI == isAI
  {
    DetectionResult(isAI, roll + 70, p.model.name, p.model.detectionTime)
  }

  /** The analysis timer callback: the result is stored and analysis ends. */
  function AnalysisCompleted(s: SessionState, p: PendingAnalysis, roll: Roll, isAI: bool): SessionState {
    s.(result := Some(GeneratedResult(p, roll, isAI)), isAnalyzing := false)
  }

  /** `resetDetection`: image and result are cleared; model and `isAnalyzing` are kept. */
  function Reset(s: SessionState): SessionState {
    s.(selectedImage := None, result := None)
  }

  /** The low-confidence warning of the results card (ResultsCard.tsx). */
  predicate LowConfidence(r: DetectionResult) {
    r.confidence < 70
  }

  /** Analysis is refused, with no state change at all, without a (non-empty) image and a model. */
  lemma AnalysisRefusedWithoutInputs(s: SessionState)
    requires !HasImage(s.selectedImage) || s.selectedModel.None?
    ensures AnalysisStarted(s) == StartOutcome(s, None)
  {
  }

  /** An empty data URL counts as no image: the guard refuses it. */
  lemma EmptyImageIsNoImage(s: SessionState)
    ensures !CanAnalyze(ImageRead(s, ""))
  {
  }

  /**
   * The start step does not look at `isAnalyzing`: a second analysis can be
   * started while one is in flight, and it schedules a second callback.
   */
  lemma StartIgnoresInFlight(s: SessionState)
    requires CanAnalyze(s)
    ensures AnalysisStarted(AnalysisStarted(s).state).pending.Some?
  {
  }

  /** A completed analysis never triggers the results card's low-confidence warning. */
  lemma CompletedResultNeverLow(s: SessionState, p: PendingAnalysis, roll: Roll, isAI: bool)
    ensures AnalysisCompleted(s, p, roll, isAI).result.Some?
    ensures !LowConfidence(AnalysisCompleted(s, p, roll, isAI).result.value)
    ensures !AnalysisCompleted(s, p, roll, isAI).isAnalyzing
  {
  }

  /**
   * The result names the model that was selected when analysis started, even
   * when the model was changed while it ran.
   */
  lemma ResultReportsModelAtStart(s: SessionState, later: Option<DetectionModel>, roll: Roll, isAI: bool)
    requires CanAnalyze(s)
    ensures var o := AnalysisStarted(s);
      var done := AnalysisCompleted(ModelSet(o.state, later), o.pending.value, roll, isAI);
      done.selectedModel == later &&
      done.result.value.modelUsed == s.selectedModel.value.name &&
      done.result.value.processingTime == s.selectedModel.value.detectionTime
  {
  }

  /** Resetting twice is the same as resetting once. */
  lemma ResetIdempotent(s: SessionState)
    ensures Reset(Reset(s)) == Reset(s)
  {
  }

  /** After a reset analysis is refused until a new image is read. */
  lemma ResetBlocksAnalysis(s: SessionState)
    ensures !CanAnalyze(Reset(s)) && Reset(s).result.None?
  {
  }

  /** The hook's state, updated in place by its handlers. */
  class DetectionSession {
    var selectedImage: Option<string>
    var selectedModel: Option<DetectionModel>
    var isAnalyzing: bool
    var result: Option<DetectionResult>

    /** The current value of the four fields. */
    function Snapshot(): SessionState
      reads this
    {
      SessionState(selectedImage, selectedModel, isAnalyzing, result)
    }

    /** The initial `useState` values. */
    constructor ()
      ensures Snapshot() == INITIAL_STATE
    {
      selectedImage, selectedModel, isAnalyzing, result := None, None, false, None;
    }

    /**
     * `handleImageSelect`: null clears the image at once; a file only starts
     * a read, and changes no state until `CompleteImageRead`.
     */
    method HandleImageSelect(file: Option<ImageFile>)
      modifies this
      ensures file.None? ==> Snapshot() == ImageCleared(old(Snapshot()))
      ensures file.None? ==> selectedImage == None
      ensures file.Some? ==> selectedImage == old(selectedImage)
      ensures selectedModel == old(selectedModel) && isAnalyzing == old(isAnalyzing) && result == old(result)
    {
      if file.None? {
        selectedImage := None;
      }
    }

    /** The reader's `onload` with the data URL read. */
    method CompleteImageRead(dataUrl: string)
      modifies this
      ensures Snapshot() == ImageRead(old(Snapshot()), dataUrl)
      ensures selectedImage == Some(dataUrl) && result == None
      ensures selectedModel == old(selectedModel) && isAnalyzing == old(isAnalyzing)
    {
      selectedImage := Some(dataUrl);
      result := None;
    }

    /** `setSelectedModel`: only the model changes. */
    method SetSelectedModel(model: Option<DetectionModel>)
      modifies this
      ensures Snapshot() == ModelSet(old(Snapshot()), model)
      ensures selectedModel == model
      ensures selectedImage == old(selectedImage) && isAnalyzing == old(isAnalyzing) && result == old(result)
    {
      selectedModel := model;
    }

    /**
     * The synchronous part of `analyzeImage`: refused (no change, nothing
     * scheduled) unless an image and a model are selected; otherwise
     * `isAnalyzing` is set and the callback, closed over the current model,
     * is returned to be completed later.
     */
    method StartAnalysis() returns (pending: Option<PendingAnalysis>)
      modifies this
      ensures AnalysisStarted(old(Snapshot())) == StartOutcome(Snapshot(), pending)
      ensures pending.Some? <==> CanAnalyze(old(Snapshot()))
      ensures pending.Some? ==> isAnalyzing && pending.value.model == old(selectedModel.value)
      ensures pending.None? ==> isAnalyzing == old(isAnalyzing)
      ensures selectedImage == old(selectedImage) && selectedModel == old(selectedModel) && result == old(result)
    {
      if !HasImage(selectedImage) || selectedModel.None? {
        return None;
      }
      isAnalyzing := true;
      pending := Some(PendingAnalysis(selectedModel.value));
    }

    /** The analysis timer callback, given its two random draws. */
    method CompleteAnalysis(pending: PendingAnalysis, roll: Roll, isAI: bool)
      modifies this
      ensures Snapshot() == AnalysisCompleted(old(Snapshot()), pending, roll, isAI)
      ensures result.Some? && 70 <= result.value.confidence <= 99 && result.value.isAI == isAI
      ensures result.value.modelUsed == pending.model.name
      ensures result.value.processingTime == pending.model.detectionTime
      ensures !isAnalyzing
      ensures selectedImage == old(selectedImage) && selectedModel == old(selectedModel)
    {
      result := Some(DetectionResult(isAI, roll + 70, pending.model.name, pending.model.detectionTime));
      isAnalyzing := false;
    }

    /** `resetDetection`. */
    method ResetDetection()
      modifies this
      ensures Snapshot() == Reset(old(Snapshot()))
      ensures selectedImage == None && result == None
      ensures selectedModel == old(selectedModel) && isAnalyzing == old(isAnalyzing)
    {
      selectedImage := None;
      result := None;
    }
  }
}
