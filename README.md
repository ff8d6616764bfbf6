# Artify detector: the detection session, modelled in Dafny

The application walks a user through choosing a detection model from a fixed
catalogue, supplying an image, and showing a simulated "AI-generated or
human-made" verdict. The only logic beyond layout is the detection-session
hook `useDetection` (four pieces of React state and the handlers that set
them) and the model catalogue with the lookup by id that the upload page
applies to the `?model=` query parameter. This project models those, and the
way the upload page drives the hook.

- `wrappers.dfy` — `Option`, for the source's `T | null`.
- `catalogue.dfy` (module `Catalogue`) — the `DetectionModel` record, the
  constant catalogue `DETECTION_MODELS`, and `Find`, the `Array.prototype.find`
  lookup by id.
- `detection.dfy` (module `Detection`) — `SessionState`, the value of the
  hook's four fields; the transitions each handler performs, as functions
  (asynchronous handlers split into a start and a completion step); and
  `DetectionSession`, the hook as a class with those four fields whose
  methods update them in place and are specified by the transition functions.
  The analysis timer callback closes over the model selected at start: the
  start step returns that closure as a `PendingAnalysis` value, and the
  completion step takes it together with the two random draws (`Roll`, an
  integer in 0..29 for `Math.floor(Math.random() * 30)`, and a boolean for
  `Math.random() > 0.5`).
- `upload_page.dfy` (module `UploadPage`) — the analyse button's enabling
  condition, the `?model=` effect, and a model of whole runs of the page:
  a `Page` is the hook state plus the queue of scheduled and not yet fired
  analysis callbacks, `Step` applies one page event atomically, and
  `Inv` is proved to hold after every sequence of events.

The image guard follows JavaScript truthiness: `HasImage` is false for both
`None` and `Some("")`.

The design document for this repository describes a richer orchestrator:
remote artifact sources with a fallback order, a load coordinator with
load/error state, stale-result tokens, `selectModel` resetting the analysis,
`reset` clearing the model, and clearing the image discarding the verdict.
The code has none of this, and the model follows the code: selecting a model
changes only the model, `resetDetection` keeps the model and `isAnalyzing`,
`handleImageSelect(null)` keeps the old result, and the start step does not
look at `isAnalyzing` (the page's disabled button prevents re-entry).

## Model

| member | source | states |
|---|---|---|
| Catalogue.Find | src/pages/Upload.tsx:28 | The lookup finds nothing exactly when no entry has the id; otherwise it returns the first entry whose id is the one searched for. |
| Catalogue.FindSound | src/pages/Upload.tsx:28 | A found entry belongs to the catalogue searched and carries the id searched for. |
| Catalogue.FindUnique | src/pages/Upload.tsx:28 | When ids are pairwise distinct, the lookup returns an entry exactly when that entry is in the catalogue with the id searched for, so at most one entry can match. |
| Catalogue.CatalogueOrder | src/lib/constants.ts:13-46 | The catalogue has exactly four entries with ids cnn, transfer, svm, kmeans in that order. |
| Catalogue.CatalogueIdsDistinct | src/lib/constants.ts:15-39 | Catalogue ids are pairwise distinct. |
| Catalogue.CatalogueAccuracyIsPercentage | src/lib/constants.ts:19-43 | Every catalogue accuracy lies in 0..100. |
| Catalogue.CatalogueLookup | src/pages/Upload.tsx:28 | Looking an id up in the catalogue succeeds exactly for the four catalogue ids, and the entry found is a catalogue entry with that id. |
| Detection.AnalysisStarted | src/hooks/useDetection.tsx:33-36 | A callback is scheduled exactly when a truthy image and a model are selected; when refused the state is unchanged; when started only `isAnalyzing` becomes true and the callback captures the currently selected model. |
| Detection.GeneratedResult | src/hooks/useDetection.tsx:41-49 | A generated result has a confidence in 70..99, the verdict drawn, and the name and detection time of the captured model. |
| Detection.AnalysisRefusedWithoutInputs | src/hooks/useDetection.tsx:34 | Without a truthy image or without a model the start step changes no state and schedules nothing. |
| Detection.EmptyImageIsNoImage | src/hooks/useDetection.tsx:34 | An empty data URL counts as no image: analysis is refused after reading it. |
| Detection.StartIgnoresInFlight | src/hooks/useDetection.tsx:34-36 | The start step does not check `isAnalyzing`: starting again while one analysis is in flight schedules a second callback. |
| Detection.CompletedResultNeverLow | src/components/ui-elements/ResultsCard.tsx:61 | After completion a result is stored, `isAnalyzing` is false, and the results card's `confidence < 70` warning cannot apply to it. |
| Detection.ResultReportsModelAtStart | src/hooks/useDetection.tsx:33-48 | If the model is changed between start and completion, the result still reports the name and detection time of the model selected at start, while the selected model stays the new one. |
| Detection.ResetIdempotent | src/hooks/useDetection.tsx:63-66 | Resetting twice gives the same state as resetting once. |
| Detection.ResetBlocksAnalysis | src/hooks/useDetection.tsx:63-66 | After a reset there is no result and analysis is refused. |
| Detection.DetectionSession.constructor | src/hooks/useDetection.tsx:13-16 | The hook starts with no image, no model, not analysing and no result. |
| Detection.DetectionSession.HandleImageSelect | src/hooks/useDetection.tsx:18-31 | Null clears the image and leaves model, `isAnalyzing` and the old result unchanged; a file changes nothing until its read completes. |
| Detection.DetectionSession.CompleteImageRead | src/hooks/useDetection.tsx:25-29 | A completed read sets the image to the data URL and clears the result, leaving model and `isAnalyzing` unchanged. |
| Detection.DetectionSession.SetSelectedModel | src/hooks/useDetection.tsx:61 | Selecting a model changes only the model. |
| Detection.DetectionSession.StartAnalysis | src/hooks/useDetection.tsx:33-36 | Refused with no change unless a truthy image and a model are selected; otherwise sets `isAnalyzing`, leaves image, model and result alone, and returns the callback closed over the current model. |
| Detection.DetectionSession.CompleteAnalysis | src/hooks/useDetection.tsx:39-52 | Stores a result with confidence 70..99, the verdict drawn and the captured model's name and detection time, and clears `isAnalyzing`; image and model are unchanged. |
| Detection.DetectionSession.ResetDetection | src/hooks/useDetection.tsx:63-66 | Clears image and result and keeps model and `isAnalyzing`. |
| UploadPage.AnalyzeEnabledIff | src/pages/Upload.tsx:121 | The analyse button is enabled exactly when the hook would start and no analysis is in flight, and starting disables it. |
| UploadPage.ModelFromQueryEffect | src/pages/Upload.tsx:26-33 | A catalogue id in the query selects the catalogue entry with that id; an absent, empty or unknown id leaves the state unchanged; image, `isAnalyzing` and result are never touched. |
| UploadPage.ApplyModelQuery | src/pages/Upload.tsx:26-33 | The query effect applied to the hook object changes its state as `ModelFromQuery` describes. |
| UploadPage.StepKeepsInv | src/pages/Upload.tsx:26-48 | Every page event preserves the invariant: at most one analysis in flight and `isAnalyzing` exactly then, selected and captured models from the catalogue, stored results with confidence 70..99 naming a catalogue model. |
| UploadPage.RunKeepsInv | src/pages/Upload.tsx:26-48 | The invariant holds after any sequence of page events. |
| UploadPage.EveryRunIsWellBehaved | src/pages/Upload.tsx:121 | On every run from the initial page at most one analysis is in flight, `isAnalyzing` holds exactly while one is, and any result is never flagged low-confidence and names a catalogue model. |
| UploadPage.GuardPreventsSecondStart | src/pages/Upload.tsx:119-122 | On a ready page the first click starts one analysis and a second click changes nothing. |

## Left out

- File decoding by `FileReader` and the drag-and-drop MIME check: browser I/O. Only the event "the read completed with data URL s" is modelled (`CompleteImageRead`).
- `setTimeout` timing (the 2000 ms delay) and `Math.random`: the completion step takes the two random draws as parameters.
- React re-rendering and effects: each start or completion step is one atomic update. In runs of the page, callbacks fire oldest first, since all use the same delay.
- The catalogue's `icon` field: a rendering component.
- `FAQ_ITEMS`: static prose.
- Navigation to the results page when a result appears (Upload.tsx:35-44), routing, providers and all presentational components.
- Remote model artifacts, load state, source fallback and stale-result tokens: they appear in the design document but not in the code.
