/** The classification screen's view model: classify an image, then run
    sentiment analysis on the capitalized prediction. Its published fields
    form two phases, the classification phase (`prediction`, `confidence`,
    `isLoading`, `errorMessage`) and the sentiment phase
    (`predictionSentimentLabel`, `predictionSentimentScore`,
    `isAnalyzingSentiment`, `predictionSentimentErrorMessage`). */
module Classification {
  import opened Services
  import opened Text

  const InitialPrediction := "Tap below to get started"
  const UnableToLoadImage := "Unable to load image."

  /** The published fields of the view model. */
  datatype ClassificationFields<Image> = ClassificationFields(
    selectedImage: Option<Image>,
    prediction: string,
    confidence: real,
    isLoading: bool,
    errorMessage: Option<string>,
    predictionSentimentLabel: string,
    predictionSentimentScore: real,
    isAnalyzingSentiment: bool,
    predictionSentimentErrorMessage: Option<string>)

  /** The outcome of loading a picked photo: decoded to an image, data that
      is missing or does not decode, or a thrown loading error. */
  datatype ImageLoad<Image> =
    | Loaded(image: Image)
    | Undecodable
    | LoadFailed(localizedDescription: string)

  /** Where the view model's classification task is suspended, if anywhere. */
  datatype ClassificationTask<Image> =
    | Idle
    | AwaitingClassifier(image: Image)
    | AwaitingSentiment(text: string)

  // The specification of each step, as a function of the published fields.

  function Initial<Image>(): ClassificationFields<Image> {
    ClassificationFields(None, InitialPrediction, 0.0, false, None, "", 0.0, false, None)
  }

  /** The synchronous part of `classify(image:)` after the image is selected. */
  function ClassificationStarted<Image>(f: ClassificationFields<Image>, image: Image): ClassificationFields<Image> {
    f.(selectedImage := Some(image), isLoading := true, errorMessage := None,
       predictionSentimentLabel := "", predictionSentimentScore := 0.0,
       predictionSentimentErrorMessage := None, isAnalyzingSentiment := true)
  }

  /** A picked item whose image could not be obtained. */
  function LoadRejected<Image>(f: ClassificationFields<Image>, message: string): ClassificationFields<Image> {
    f.(errorMessage := Some(message))
  }

  function ClassifierSucceeded<Image>(f: ClassificationFields<Image>, result: ClassificationResult): ClassificationFields<Image> {
    f.(prediction := Capitalized(result.identifier), confidence := result.confidence, isLoading := false)
  }

  function ClassifierFailed<Image>(f: ClassificationFields<Image>, e: Failure): ClassificationFields<Image> {
    f.(isLoading := false, isAnalyzingSentiment := false, errorMessage := Message(e))
  }

  function PredictionBlank<Image>(f: ClassificationFields<Image>, emptyText: Option<string>): ClassificationFields<Image> {
    f.(predictionSentimentErrorMessage := emptyText, isAnalyzingSentiment := false)
  }

  function SentimentSucceeded<Image>(f: ClassificationFields<Image>, result: SentimentAnalysisResult): ClassificationFields<Image> {
    f.(predictionSentimentLabel := DisplayName(result.sentiment), predictionSentimentScore := result.score,
       predictionSentimentErrorMessage := None, isAnalyzingSentiment := false)
  }

  function SentimentFailed<Image>(f: ClassificationFields<Image>, e: Failure): ClassificationFields<Image> {
    f.(predictionSentimentErrorMessage := Message(e), predictionSentimentLabel := "",
       predictionSentimentScore := 0.0, isAnalyzingSentiment := false)
  }

  /** The sentiment phase never shows a result and an error at once, and the
      classification phase is only in flight while the sentiment phase is. */
  predicate Consistent<Image>(f: ClassificationFields<Image>) {
    (f.predictionSentimentErrorMessage.Some? ==>
       f.predictionSentimentLabel == "" && f.predictionSentimentScore == 0.0)
    && (f.isLoading ==> f.isAnalyzingSentiment)
  }

  /** One whole classification run, from a captured or decoded image to its
      completion, together with the texts the sentiment analyzer received. */
  datatype ClassificationRun<Image> = ClassificationRun(
    fields: ClassificationFields<Image>,
    sentimentRequests: seq<string>)

  /** `analyzePredictionSentiment(for:)` on the prediction of `f`, run to
      the end with `analyzer` standing for the sentiment service. */
  function AnalyzePrediction<Image>(f: ClassificationFields<Image>, analyzer: Analyzer,
                                    emptyText: Option<string>): (r: ClassificationRun<Image>)
    ensures !r.fields.isAnalyzingSentiment
    // nothing outside the sentiment phase changes
    ensures r.fields.(predictionSentimentLabel := f.predictionSentimentLabel,
                      predictionSentimentScore := f.predictionSentimentScore,
                      isAnalyzingSentiment := f.isAnalyzingSentiment,
                      predictionSentimentErrorMessage := f.predictionSentimentErrorMessage) == f
    // a blank prediction is an empty-text error, without calling the analyzer
    ensures Trim(f.prediction) == [] ==>
              && r.sentimentRequests == []
              && r.fields.predictionSentimentErrorMessage == emptyText
              && r.fields.predictionSentimentLabel == f.predictionSentimentLabel
              && r.fields.predictionSentimentScore == f.predictionSentimentScore
    // otherwise the analyzer receives exactly the trimmed prediction, once
    ensures Trim(f.prediction) != [] ==>
              var text := Trim(f.prediction);
              && r.sentimentRequests == [text]
              && Trim(text) == text
              && (analyzer(text).Ok? ==>
                    && r.fields.predictionSentimentLabel == DisplayName(analyzer(text).value.sentiment)
                    && r.fields.predictionSentimentScore == analyzer(text).value.score
                    && r.fields.predictionSentimentErrorMessage == None)
              && (analyzer(text).Err? ==>
                    && r.fields.predictionSentimentErrorMessage == Message(analyzer(text).failure)
                    && r.fields.predictionSentimentLabel == ""
                    && r.fields.predictionSentimentScore == 0.0)
  {
    var text := Trim(f.prediction);
    if text == [] then
      ClassificationRun(PredictionBlank(f, emptyText), [])
    else
      TrimIdempotent(f.prediction);
      var completed := match analyzer(text)
        case Ok(s) => SentimentSucceeded(f, s)
        case Err(e) => SentimentFailed(f, e);
      ClassificationRun(completed, [text])
  }

  /** `handleCapturedImage(image)` followed by its task running to the end,
      with `classifier` and `analyzer` standing for the two services. */
  function Run<Image>(f: ClassificationFields<Image>, image: Image, classifier: Classifier<Image>,
                      analyzer: Analyzer, emptyText: Option<string>): (r: ClassificationRun<Image>)
    // every run ends with both loading flags cleared
    ensures !r.fields.isLoading && !r.fields.isAnalyzingSentiment
    // whatever the outcomes, the sentiment phase never shows a result and an error at once
    ensures r.fields.selectedImage == Some(image) && Consistent(r.fields)
    // the analyzer is called at most once
    ensures |r.sentimentRequests| <= 1
    // a classifier failure short-circuits the sentiment phase
    ensures classifier(image).Err? ==>
              && r.sentimentRequests == []
              && r.fields.errorMessage == Message(classifier(image).failure)
              && r.fields.prediction == f.prediction
              && r.fields.confidence == f.confidence
              && r.fields.predictionSentimentLabel == ""
              && r.fields.predictionSentimentScore == 0.0
              && r.fields.predictionSentimentErrorMessage == None
    ensures classifier(image).Ok? ==>
              && r.fields.prediction == Capitalized(classifier(image).value.identifier)
              && r.fields.confidence == classifier(image).value.confidence
              && r.fields.errorMessage == None
    // a blank identifier is an empty-text error, without calling the analyzer
    ensures classifier(image).Ok? && Trim(classifier(image).value.identifier) == [] ==>
              && r.sentimentRequests == []
              && r.fields.predictionSentimentErrorMessage == emptyText
              && r.fields.predictionSentimentLabel == ""
              && r.fields.predictionSentimentScore == 0.0
    // otherwise the analyzer is called once with the trimmed prediction, and
    // its outcome is what the sentiment phase shows
    ensures classifier(image).Ok? && Trim(classifier(image).value.identifier) != [] ==>
              var text := Trim(Capitalized(classifier(image).value.identifier));
              && r.sentimentRequests == [text]
              && (analyzer(text).Ok? ==>
                    && r.fields.predictionSentimentLabel == DisplayName(analyzer(text).value.sentiment)
                    && r.fields.predictionSentimentScore == analyzer(text).value.score
                    && r.fields.predictionSentimentErrorMessage == None)
              && (analyzer(text).Err? ==>
                    && r.fields.predictionSentimentErrorMessage == Message(analyzer(text).failure)
                    && r.fields.predictionSentimentLabel == ""
                    && r.fields.predictionSentimentScore == 0.0)
  {
    var started := ClassificationStarted(f, image);
    match classifier(image)
    case Err(e) => ClassificationRun(ClassifierFailed(started, e), [])
    case Ok(result) =>
      CapitalizedBlank(result.identifier);
      AnalyzePrediction(ClassifierSucceeded(started, result), analyzer, emptyText)
  }

  /** The capture test: the classifier returns "happy dog" at 0.92 and the
      analyzer a positive sentiment at 0.8 for "Happy Dog". */
  lemma HappyDogScenario<Image>(image: Image, classifier: Classifier<Image>, analyzer: Analyzer,
                                emptyText: Option<string>)
    requires classifier(image) == Ok(ClassificationResult("happy dog", 0.92))
    requires analyzer("Happy Dog") == Ok(SentimentAnalysisResult(0.8, Positive))
    ensures var r := Run(Initial(), image, classifier, analyzer, emptyText);
            && r.sentimentRequests == ["Happy Dog"]
            && r.fields.prediction == "Happy Dog" && r.fields.confidence == 0.92
            && r.fields.predictionSentimentLabel == "Positive"
            && r.fields.predictionSentimentScore == 0.8
            && r.fields.predictionSentimentErrorMessage == None
  {
    CapitalizedHappyDog();
    TrimPadded("", "Happy Dog", "");
    assert "" + "Happy Dog" + "" == "Happy Dog";
  }

  /** The blank-identifier test: an identifier of three spaces never reaches
      the analyzer and leaves the empty-text error. */
  lemma BlankIdentifierScenario<Image>(f: ClassificationFields<Image>, image: Image,
                                       classifier: Classifier<Image>, analyzer: Analyzer,
                                       emptyText: Option<string>)
    requires classifier(image) == Ok(ClassificationResult("   ", 0.5))
    ensures var r := Run(f, image, classifier, analyzer, emptyText);
            && r.sentimentRequests == []
            && r.fields.predictionSentimentErrorMessage == emptyText
            && r.fields.predictionSentimentLabel == "" && r.fields.predictionSentimentScore == 0.0
            && !r.fields.isAnalyzingSentiment
  {
  }

  /** The view model. The services are not fields: each awaited call is a
      method that receives the call's outcome. The ghost fields record where
      the classification task is suspended and every request sent to the
      two services, as the test doubles do. */
  class ClassificationViewModel<Image> {
    var selectedImage: Option<Image>
    var prediction: string
    var confidence: real
    var isLoading: bool
    var errorMessage: Option<string>

    var predictionSentimentLabel: string
    var predictionSentimentScore: real
    var isAnalyzingSentiment: bool
    var predictionSentimentErrorMessage: Option<string>

    /** `SentimentAnalysisError.emptyText.errorDescription`. */
    const emptyTextMessage: Option<string>

    ghost var task: ClassificationTask<Image>
    ghost var classifierRequests: seq<Image>
    ghost var sentimentRequests: seq<string>

    function Fields(): ClassificationFields<Image>
      reads this
    {
      ClassificationFields(selectedImage, prediction, confidence, isLoading, errorMessage,
                           predictionSentimentLabel, predictionSentimentScore,
                           isAnalyzingSentiment, predictionSentimentErrorMessage)
    }

    /** The fields agree with the point the task is suspended at: both flags
        are clear when no task is pending, and while one is, the sentiment
        phase is still reset. Each classifier call leads to at most one
        sentiment call, and one awaiting the classifier to none yet. */
    ghost predicate Valid()
      reads this
    {
      && Consistent(Fields())
      && |sentimentRequests| + (if task.AwaitingClassifier? then 1 else 0) <= |classifierRequests|
      && match task
         case Idle => !isLoading && !isAnalyzingSentiment
         case AwaitingClassifier(image) =>
           && isLoading && isAnalyzingSentiment
           && predictionSentimentLabel == "" && predictionSentimentScore == 0.0
           && predictionSentimentErrorMessage == None
           && classifierRequests != [] && classifierRequests[|classifierRequests| - 1] == image
         case AwaitingSentiment(text) =>
           && !isLoading && isAnalyzingSentiment
           && predictionSentimentLabel == "" && predictionSentimentScore == 0.0
           && predictionSentimentErrorMessage == None
           && text != []
           && sentimentRequests != [] && sentimentRequests[|sentimentRequests| - 1] == text
    }

    constructor (emptyTextMessage: Option<string>)
      ensures Valid()
      ensures Fields() == Initial()
      ensures this.emptyTextMessage == emptyTextMessage
      ensures task == Idle && classifierRequests == [] && sentimentRequests == []
    {
      selectedImage := None;
      prediction := InitialPrediction;
      confidence := 0.0;
      isLoading := false;
      errorMessage := None;
      predictionSentimentLabel := "";
      predictionSentimentScore := 0.0;
      isAnalyzingSentiment := false;
      predictionSentimentErrorMessage := None;
      this.emptyTextMessage := emptyTextMessage;
      task := Idle;
      classifierRequests := [];
      sentimentRequests := [];
    }

    /** `processPickedItem(_:)`: no item changes nothing; an image that
        cannot be loaded only sets the error message; a decoded image is
        selected and classified. */
    method ProcessPickedItem(item: Option<ImageLoad<Image>>)
      requires Valid()
      modifies this
      ensures Valid()
      ensures item.None? ==> Fields() == old(Fields()) && task == old(task)
      ensures item.Some? && item.value.Undecodable? ==>
                Fields() == LoadRejected(old(Fields()), UnableToLoadImage) && task == old(task)
      ensures item.Some? && item.value.LoadFailed? ==>
                Fields() == LoadRejected(old(Fields()), item.value.localizedDescription) && task == old(task)
      ensures item.Some? && item.value.Loaded? ==>
                && Fields() == ClassificationStarted(old(Fields()), item.value.image)
                && task == AwaitingClassifier(item.value.image)
      ensures classifierRequests ==
                if item.Some? && item.value.Loaded? then old(classifierRequests) + [item.value.image]
                else old(classifierRequests)
      ensures sentimentRequests == old(sentimentRequests)
    {
      if item.None? {
        return;
      }
      match item.value
      case Undecodable =>
        errorMessage := Some(UnableToLoadImage);
      case LoadFailed(description) =>
        errorMessage := Some(description);
      case Loaded(image) =>
        selectedImage := Some(image);
        Classify(image);
    }

    /** `handleCapturedImage(_:)`: select the image and start classifying it. */
    method HandleCapturedImage(image: Image)
      requires Valid()
      modifies this
      ensures Valid()
      ensures Fields() == ClassificationStarted(old(Fields()), image)
      ensures selectedImage == Some(image) && isLoading && errorMessage == None
      ensures prediction == old(prediction) && confidence == old(confidence)
      ensures task == AwaitingClassifier(image)
      ensures classifierRequests == old(classifierRequests) + [image]
      ensures sentimentRequests == old(sentimentRequests)
    {
      selectedImage := Some(image);
      Classify(image);
    }

    /** The synchronous part of `classify(image:)`: mark the classification
        phase as loading, reset the sentiment phase and send the image to
        the classifier. */
    method Classify(image: Image)
      requires Valid() && selectedImage == Some(image)
      modifies this
      ensures Valid()
      ensures Fields() == ClassificationStarted(old(Fields()), image)
      ensures task == AwaitingClassifier(image)
      ensures classifierRequests == old(classifierRequests) + [image]
      ensures sentimentRequests == old(sentimentRequests)
    {
      isLoading := true;
      errorMessage := None;
      ResetSentimentState();
      classifierRequests := classifierRequests + [image];
      task := AwaitingClassifier(image);
    }

    /** `resetSentimentState()`: no label, a zero score, no error, and the
        sentiment phase marked as in progress. A private helper of `classify`:
        it neither needs nor keeps `Valid()` on its own, and `Classify`
        re-establishes it. */
    method ResetSentimentState()
      modifies this
      ensures predictionSentimentLabel == "" && predictionSentimentScore == 0.0
      ensures predictionSentimentErrorMessage == None && isAnalyzingSentiment
      ensures selectedImage == old(selectedImage) && prediction == old(prediction)
      ensures confidence == old(confidence) && isLoading == old(isLoading)
      ensures errorMessage == old(errorMessage)
      ensures task == old(task)
      ensures classifierRequests == old(classifierRequests) && sentimentRequests == old(sentimentRequests)
    {
      predictionSentimentLabel := "";
      predictionSentimentScore := 0.0;
      predictionSentimentErrorMessage := None;
      isAnalyzingSentiment := true;
    }

    /** The classification task resuming with the classifier's outcome. A
        success stores the capitalized identifier and the confidence, ends
        the classification phase and goes on to the sentiment phase; a
        failure ends both phases with the classifier's message. */
    method ClassifierReturned(outcome: Outcome<ClassificationResult>)
      requires Valid() && task.AwaitingClassifier?
      modifies this
      ensures Valid()
      ensures !isLoading
      ensures outcome.Err? ==>
                && Fields() == ClassifierFailed(old(Fields()), outcome.failure)
                && errorMessage == Message(outcome.failure) && !isAnalyzingSentiment
                && prediction == old(prediction) && confidence == old(confidence)
                && predictionSentimentLabel == "" && predictionSentimentScore == 0.0
                && task == Idle && sentimentRequests == old(sentimentRequests)
      ensures outcome.Ok? ==>
                && prediction == Capitalized(outcome.value.identifier)
                && confidence == outcome.value.confidence
                && errorMessage == old(errorMessage)
      ensures outcome.Ok? && Trim(prediction) == [] ==>
                && Fields() == PredictionBlank(ClassifierSucceeded(old(Fields()), outcome.value), emptyTextMessage)
                && predictionSentimentErrorMessage == emptyTextMessage && !isAnalyzingSentiment
                && task == Idle && sentimentRequests == old(sentimentRequests)
      ensures outcome.Ok? && Trim(prediction) != [] ==>
                && Fields() == ClassifierSucceeded(old(Fields()), outcome.value)
                && isAnalyzingSentiment
                && task == AwaitingSentiment(Trim(prediction))
                && sentimentRequests == old(sentimentRequests) + [Trim(prediction)]
      ensures classifierRequests == old(classifierRequests)
    {
      match outcome
      case Ok(result) =>
        prediction := Capitalized(result.identifier);
        confidence := result.confidence;
        isLoading := false;
        AnalyzePredictionSentiment(prediction);
      case Err(e) =>
        isLoading := false;
        isAnalyzingSentiment := false;
        errorMessage := Message(e);
        task := Idle;
    }

    /** The synchronous part of `analyzePredictionSentiment(for:)`: a text
        that trims to empty is an empty-text error and ends the sentiment
        phase; otherwise the trimmed text is sent to the analyzer. A private
        helper of the classification task: it neither needs nor keeps
        `Valid()` on its own, and `ClassifierReturned` re-establishes it. */
    method AnalyzePredictionSentiment(text: string)
      modifies this
      ensures Trim(text) == [] ==>
                && Fields() == PredictionBlank(old(Fields()), emptyTextMessage)
                && task == Idle && sentimentRequests == old(sentimentRequests)
      ensures Trim(text) != [] ==>
                && Fields() == old(Fields())
                && task == AwaitingSentiment(Trim(text))
                && sentimentRequests == old(sentimentRequests) + [Trim(text)]
      ensures classifierRequests == old(classifierRequests)
    {
      var trimmed := Trim(text);
      if trimmed == [] {
        predictionSentimentErrorMessage := emptyTextMessage;
        isAnalyzingSentiment := false;
        task := Idle;
        return;
      }
      sentimentRequests := sentimentRequests + [trimmed];
      task := AwaitingSentiment(trimmed);
    }

    /** The sentiment phase resuming with the analyzer's outcome: a success
        stores the display name and score and clears the error; a failure
        stores its message and clears the label and score. */
    method SentimentReturned(outcome: Outcome<SentimentAnalysisResult>)
      requires Valid() && task.AwaitingSentiment?
      modifies this
      ensures Valid()
      ensures !isLoading && !isAnalyzingSentiment && task == Idle
      ensures outcome.Ok? ==>
                && Fields() == SentimentSucceeded(old(Fields()), outcome.value)
                && predictionSentimentLabel == DisplayName(outcome.value.sentiment)
                && predictionSentimentScore == outcome.value.score
                && predictionSentimentErrorMessage == None
      ensures outcome.Err? ==>
                && Fields() == SentimentFailed(old(Fields()), outcome.failure)
                && predictionSentimentErrorMessage == Message(outcome.failure)
                && predictionSentimentLabel == "" && predictionSentimentScore == 0.0
      ensures prediction == old(prediction) && confidence == old(confidence)
      ensures errorMessage == old(errorMessage)
      ensures classifierRequests == old(classifierRequests) && sentimentRequests == old(sentimentRequests)
    {
      match outcome {
        case Ok(result) =>
          predictionSentimentLabel := DisplayName(result.sentiment);
          predictionSentimentScore := result.score;
          predictionSentimentErrorMessage := None;
        case Err(e) =>
          predictionSentimentErrorMessage := Message(e);
          predictionSentimentLabel := "";
          predictionSentimentScore := 0.0;
      }
      isAnalyzingSentiment := false;
      task := Idle;
    }
  }

  /** The steps of the view model compose to `Run`: capturing an image and
      resuming its task with the services' outcomes leaves the fields and the
      analyzer's requests that `Run` describes. */
  method RunToCompletion<Image>(vm: ClassificationViewModel<Image>, image: Image,
                                classifier: Classifier<Image>, analyzer: Analyzer)
    requires vm.Valid()
    modifies vm
    ensures vm.Valid() && vm.task == Idle
    ensures var r := Run(old(vm.Fields()), image, classifier, analyzer, vm.emptyTextMessage);
            vm.Fields() == r.fields && vm.sentimentRequests == old(vm.sentimentRequests) + r.sentimentRequests
    ensures vm.classifierRequests == old(vm.classifierRequests) + [image]
  {
    vm.HandleCapturedImage(image);
    var classified := classifier(image);
    vm.ClassifierReturned(classified);
    if classified.Ok? && Trim(vm.prediction) != [] {
      vm.SentimentReturned(analyzer(Trim(vm.prediction)));
    }
  }
}
