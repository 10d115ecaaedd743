# LiquidVision view models in Dafny

LiquidVision is an iOS app. It classifies a photo with an on-device image
classifier, then runs sentiment analysis on the label it gets back. A second
screen runs the same sentiment analysis on text that the user types. The
logic of the app lives in two view models. Each one makes one or two calls to
a machine-learning service and records the result in a fixed set of
published fields. This project models both view models and proves what each
of them does on every path.

- `text.dfy` (module `Text`) models the two Foundation string operations the
  view models use. `Trim` models `trimmingCharacters(in:
  .whitespacesAndNewlines)` and is defined over Foundation's whitespace and
  newline set. `Capitalized` models `capitalized`. Both carry their
  characterising contracts, and the lemmas prove facts about them, for example
  that capitalizing an identifier never makes it blank or non-blank.
- `services.dfy` (module `Services`) models what the services deliver: an
  `Outcome` (a returned value or a thrown `Failure`), the two result records
  and the sentiment categories. A `Failure` is either the service's own
  `LocalizedError`, whose `errorDescription` may be nil, or some other error,
  which the view models show through its `localizedDescription`.
- `classification.dfy` (module `Classification`) models
  `ClassificationViewModel`. It is a class with the nine published fields.
  Every awaited call becomes a step method that receives the call's outcome:
  `HandleCapturedImage` or `ProcessPickedItem` starts a run, then
  `ClassifierReturned` and `SentimentReturned` continue it. A ghost field
  `task` records where the `Task {}` is suspended. Ghost logs record every
  image sent to the classifier and every text sent to the sentiment
  analyzer. The sentiment test doubles record the texts they receive in the
  same way; the classifier test double only counts its calls, which is the
  length of the image log. Each method is proved against a pure
  step function on `ClassificationFields`. The pure functions `Run` and
  `AnalyzePrediction` describe a whole run, with each service given as a
  function from its input to its outcome. `RunToCompletion` proves that the
  class's steps add up to `Run`.
- `sentiment.dfy` (module `SentimentAnalysis`) models `SentimentViewModel` the
  same way: `Analyze` is the synchronous part of `analyze()` and
  `AnalyzerReturned` is the rest of its task. `ShowsResult` is the test behind
  `hasResult`.

The model takes three things as inputs, because they come from files that are
not part of this model:

- The text of `SentimentAnalysisError.emptyText.errorDescription` is a
  constructor parameter, `emptyTextMessage`.
- The image type is a type parameter.
- Scores and confidences are `real` values. The view models only store them.

The sentiment display names are assumed to be `"Positive"`, `"Neutral"` and
`"Negative"`. The tests compare against `displayName` itself and name no
literal.

Two facts about the source shape the model:

- The classifier's message is `errorDescription` for an
  `ImageClassificationError` and `localizedDescription` for any other error
  (LiquidVision/ViewModels/ClassificationViewModel.swift:72-76), and
  `errorDescription` itself may be nil. The sentiment failures are handled
  the same way with `SentimentAnalysisError`.
- Neither view model checks that a confidence or a score lies in [0, 1], so
  the model does not assume it.

## Model

| member | source | states |
|---|---|---|
| `Text.Trim` | LiquidVision/ViewModels/ClassificationViewModel.swift:89 | The trimmed text is empty exactly when every character of the input is whitespace or a newline. Otherwise it starts and ends with a non-whitespace character. |
| `Text.TrimKeepsText` | LiquidVision/ViewModels/ClassificationViewModel.swift:89 | Trimming removes only whitespace. The trimmed text is the contiguous part of the input after its leading whitespace, and it keeps every non-whitespace character. |
| `Text.TrimIdempotent` | LiquidVision/ViewModels/Sentiment/SentimentViewModel.swift:32 | Trimming a trimmed text changes nothing, so the text sent to the analyzer is already in trimmed form. |
| `Text.TrimPadded` | LiquidVision/ViewModels/Sentiment/SentimentViewModel.swift:32 | Whitespace padding around a text that neither starts nor ends with whitespace is exactly what trimming removes. |
| `Text.TrimNeedsImprovement` | LiquidVisionTests/SentimentViewModelTests.swift:70-78 | `"   Needs improvement   "` trims to `"Needs improvement"`. |
| `Text.Capitalized` | LiquidVision/ViewModels/ClassificationViewModel.swift:64 | Capitalizing keeps the length and every whitespace position. The first character of each word goes through the upper-case mapping and every other character through the lower-case mapping. |
| `Text.CapitalizedBlank` | LiquidVisionTests/ClassificationViewModelTests.swift:107-124 | An identifier trims to empty exactly when its capitalized form does, so a blank identifier becomes a blank prediction. |
| `Text.CapitalizedHappyDog` | LiquidVisionTests/ClassificationViewModelTests.swift:46-67 | The identifier `"happy dog"` becomes the prediction `"Happy Dog"`. |
| `Classification.AnalyzePrediction` | LiquidVision/ViewModels/ClassificationViewModel.swift:88-112 | The sentiment phase always ends with `isAnalyzingSentiment` false and changes no field outside that phase. A blank prediction sets the empty-text error and makes no call. Otherwise the analyzer is called once with the trimmed prediction. A success stores the display name and score and clears the error. A failure stores the error's message and clears the label and score. |
| `Classification.Run` | LiquidVision/ViewModels/ClassificationViewModel.swift:51-112 | A whole run ends with both loading flags false, and a result and an error are never shown together. The analyzer is called at most once. A classifier failure makes no sentiment call, stores the classifier's message, and leaves the prediction, the confidence, an empty label and a zero score. A success stores the capitalized identifier and the confidence. A blank identifier gives the empty-text error without a call. Any other identifier sends its trimmed, capitalized form to the analyzer once. An analyzer success then stores its display name and score with no error. An analyzer failure stores its message, an empty label and a zero score. |
| `Classification.HappyDogScenario` | LiquidVisionTests/ClassificationViewModelTests.swift:45-68 | From the initial state, "happy dog" at 0.92 followed by a positive 0.8 ends with the prediction "Happy Dog", confidence 0.92, label "Positive", score 0.8 and no error. The analyzer receives exactly `["Happy Dog"]`. |
| `Classification.BlankIdentifierScenario` | LiquidVisionTests/ClassificationViewModelTests.swift:107-125 | An identifier of three spaces makes no analyzer call. It leaves the empty-text error, an empty label, a zero score and the sentiment phase finished. |
| `Classification.ClassificationViewModel.constructor` | LiquidVision/ViewModels/ClassificationViewModel.swift:15-33 | The initial fields are: no image, the prediction "Tap below to get started", zero confidence, nothing loading, and no error, label, score or sentiment error. |
| `Classification.ClassificationViewModel.ProcessPickedItem` | LiquidVision/ViewModels/ClassificationViewModel.swift:35-49 | No item changes nothing. Data that is missing or cannot be decoded sets only "Unable to load image.". A loading error sets only its `localizedDescription`. A decoded image is selected and classified. |
| `Classification.ClassificationViewModel.HandleCapturedImage` | LiquidVision/ViewModels/ClassificationViewModel.swift:51-54 | The captured image is selected and its classification starts. `isLoading` becomes true, the error is cleared, and the prediction and confidence are untouched. |
| `Classification.ClassificationViewModel.Classify` | LiquidVision/ViewModels/ClassificationViewModel.swift:56-61 | Starts loading, clears the error, resets the sentiment phase and sends the image to the classifier. The new state is `ClassificationStarted` of the old one. |
| `Classification.ClassificationViewModel.ResetSentimentState` | LiquidVision/ViewModels/ClassificationViewModel.swift:81-86 | Sets the label to `""`, the score to 0 and the sentiment error to nil, and sets `isAnalyzingSentiment` to true. Every other field is unchanged. |
| `Classification.ClassificationViewModel.ClassifierReturned` | LiquidVision/ViewModels/ClassificationViewModel.swift:62-77 | `isLoading` always ends false. A failure also clears `isAnalyzingSentiment` and stores the classifier's message. It keeps the prediction, the confidence, the empty label and the zero score, and makes no sentiment call. A success stores the capitalized identifier and the confidence before the sentiment phase begins. A blank prediction then gives the empty-text error. Any other prediction sends its trimmed text to the analyzer. |
| `Classification.ClassificationViewModel.AnalyzePredictionSentiment` | LiquidVision/ViewModels/ClassificationViewModel.swift:88-97 | A text that trims to empty sets the empty-text error and ends the phase without a call. Any other text is sent to the analyzer trimmed, and no field changes. |
| `Classification.ClassificationViewModel.SentimentReturned` | LiquidVision/ViewModels/ClassificationViewModel.swift:97-111 | A success stores the display name and score and clears the error. A failure stores its message and resets the label to `""` and the score to 0. Both loading flags end false, and the classification fields are untouched. |
| `Classification.RunToCompletion` | LiquidVision/ViewModels/ClassificationViewModel.swift:51-112 | The class's capture, classifier and sentiment steps leave exactly the fields and analyzer requests that `Run` describes. Exactly one image reaches the classifier. |
| `Services.Message` | LiquidVision/ViewModels/ClassificationViewModel.swift:72-76 | A failure of the service's own error type shows its `errorDescription`. Any other error shows its `localizedDescription`. So no message is shown only for a service error without a description. The same choice is made at LiquidVision/ViewModels/ClassificationViewModel.swift:101-108 and LiquidVision/ViewModels/Sentiment/SentimentViewModel.swift:52-61. |
| `SentimentAnalysis.SentimentViewModel.HasResult` | LiquidVision/ViewModels/Sentiment/SentimentViewModel.swift:27-29 | `hasResult` holds exactly when the label is neither placeholder. In a valid state it also means that no analysis is in flight and no error is shown. |
| `SentimentAnalysis.DisplayNameIsResult` | LiquidVisionTests/SentimentViewModelTests.swift:41-44 | No sentiment category's display name equals either placeholder, so a stored display name counts as a result. |
| `SentimentAnalysis.Run` | LiquidVision/ViewModels/Sentiment/SentimentViewModel.swift:31-64 | A whole `analyze()` ends with `isAnalyzing` false and `inputText` unchanged, and never shows an error together with a result, within the model's sequential steps. Blank input makes no call and sets the empty-text error, the default placeholder and a zero score. Any other input sends exactly its trimmed text once. A success stores the score and display name with no error, so `hasResult` is true. A failure stores its message, the default placeholder and a zero score, so `hasResult` is false. |
| `SentimentAnalysis.EmptyInputScenario` | LiquidVisionTests/SentimentViewModelTests.swift:48-64 | An empty input makes no call and leaves the empty-text error, the default placeholder and a zero score, with no result shown. |
| `SentimentAnalysis.PaddedInputScenario` | LiquidVisionTests/SentimentViewModelTests.swift:66-80 | The analyzer receives exactly `["Needs improvement"]`, and the label becomes the returned category's display name. |
| `SentimentAnalysis.SentimentViewModel.constructor` | LiquidVision/ViewModels/Sentiment/SentimentViewModel.swift:12-25 | The input is empty, the label is the default placeholder, the score is 0, nothing is analyzing and there is no error, so `hasResult` is false. |
| `SentimentAnalysis.SentimentViewModel.Analyze` | LiquidVision/ViewModels/Sentiment/SentimentViewModel.swift:31-48 | Blank input sets `isAnalyzing` false, the empty-text error, the default placeholder and a zero score, and makes no call. Any other input sets `isAnalyzing` true, clears the error, shows "Analyzing..." and sends the trimmed input. `inputText` is unchanged and `hasResult` is false either way. |
| `SentimentAnalysis.SentimentViewModel.AnalyzerReturned` | LiquidVision/ViewModels/Sentiment/SentimentViewModel.swift:48-63 | A success stores the score and display name, and the error stays nil, so `hasResult` is true. A failure stores its message, the default placeholder and a zero score, so `hasResult` is false. `isAnalyzing` ends false and `inputText` is untouched. |
| `SentimentAnalysis.RunToCompletion` | LiquidVision/ViewModels/Sentiment/SentimentViewModel.swift:31-64 | The class's `Analyze` and analyzer step leave exactly the fields and analyzer requests that `Run` describes. |

Both classes keep a `Valid()` invariant that every public step method
requires and re-establishes. The private helpers `ResetSentimentState` and
`AnalyzePredictionSentiment` neither require nor keep it on their own; the
steps that call them, `Classify` and `ClassifierReturned`, re-establish it.
The invariant says:

- Both loading flags are clear whenever no task is pending.
- The sentiment phase never shows a result and an error together.
- Each classifier call leads to at most one sentiment call.
- On the sentiment screen, `isAnalyzing` holds exactly while "Analyzing..."
  is shown.

`Valid()` does not mention `selectedImage` or `inputText`, the only fields
the screens write themselves.

## Left out

- The services (`MobileNetImageClassifier`, `SentimentAnalysisService`) are not
  part of this model. Each call is represented only by the outcome it delivers.
- Photo loading and decoding (`loadTransferable`, `UIImage(data:)`) are
  represented only by their outcome: a decoded image, missing or undecodable
  data, or a thrown error.
- Concurrency of `Task {}` is not modelled. A run is a start step followed by
  its continuations. A new start while a task is suspended replaces the
  suspended task. So the model does not capture a stale result from a
  superseded request landing late.
- In the same way, a blank `analyze()` while an analysis is in flight ends the
  suspended task in the model (`task := Idle`). In the source that task still
  completes and stores a display name while the empty-text error stays set.
  The no-error-with-a-result property of both screens holds only for the
  model's sequential steps.
- The coordinators and SwiftUI views are left out because they hold no state
  logic. This includes the percentage and `%.2f` formatting of the
  classification view.
- Scores and confidences are `real`, not `Double`. They are only stored,
  never computed, so no rounding matters.
- Text.Capitalized: upper- and lower-cases only ASCII letters and treats only
  the whitespace-and-newline set as word boundaries. It does not model
  Foundation's full Unicode case mapping or its other word boundaries.
- Text.Trim: trims exactly Foundation's whitespace-and-newline set, listed
  character by character. It does not follow later Unicode versions' changes
  to that set.
- The texts of `errorDescription` and `localizedDescription` are not
  modelled. A failure carries the text it would show.
- The display names of the sentiment categories live in a file that is not
  part of this model. They are assumed to be "Positive", "Neutral" and
  "Negative".
- Classification.ClassificationViewModel.Classify: requires the image to be
  selected already. Both callers in the source select it first.
