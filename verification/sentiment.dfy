/** The free-text sentiment screen's view model: validate the trimmed input,
    show an "Analyzing..." placeholder while the analyzer runs, then show
    either its result or its error under the default placeholder. */
module SentimentAnalysis {
  import opened Services
  import opened Text

  const DefaultLabel := "Enter text and tap Analyze"
  const AnalyzingLabel := "Analyzing..."

  /** The published fields of the view model. */
  datatype SentimentFields = SentimentFields(
    inputText: string,
    sentimentLabel: string,
    sentimentScore: real,
    isAnalyzing: bool,
    errorMessage: Option<string>)

  /** Where the view model's analysis task is suspended, if anywhere. */
  datatype AnalysisTask = Idle | AwaitingAnalyzer(text: string)

  /** Whether a label shows an analysis result, that is, neither
      placeholder (the test behind `hasResult`). */
  function ShowsResult(shown: string): (b: bool)
    ensures b <==> shown != DefaultLabel && shown != AnalyzingLabel
  {
    shown !in [DefaultLabel, AnalyzingLabel]
  }

  /** No display name of a sentiment category is mistaken for a placeholder. */
  lemma DisplayNameIsResult(s: Sentiment)
    ensures ShowsResult(DisplayName(s))
  {
  }

  // The specification of each step, as a function of the published fields.

  function Initial(): SentimentFields {
    SentimentFields("", DefaultLabel, 0.0, false, None)
  }

  function InputBlank(f: SentimentFields, emptyText: Option<string>): SentimentFields {
    f.(isAnalyzing := false, errorMessage := emptyText, sentimentLabel := DefaultLabel, sentimentScore := 0.0)
  }

  function AnalysisStarted(f: SentimentFields): SentimentFields {
    f.(isAnalyzing := true, errorMessage := None, sentimentLabel := AnalyzingLabel)
  }

  function AnalysisSucceeded(f: SentimentFields, result: SentimentAnalysisResult): SentimentFields {
    f.(sentimentScore := result.score, sentimentLabel := DisplayName(result.sentiment), isAnalyzing := false)
  }

  function AnalysisFailed(f: SentimentFields, e: Failure): SentimentFields {
    f.(isAnalyzing := false, errorMessage := Message(e), sentimentLabel := DefaultLabel, sentimentScore := 0.0)
  }

  /** An analysis is in flight exactly while the analyzing placeholder is
      shown, and an error is only ever shown under the default placeholder
      with a zero score. */
  predicate Consistent(f: SentimentFields) {
    && (f.isAnalyzing <==> f.sentimentLabel == AnalyzingLabel)
    && (f.errorMessage.Some? ==> f.sentimentLabel == DefaultLabel && f.sentimentScore == 0.0)
  }

  /** One whole `analyze()` call, together with the texts the analyzer received. */
  datatype SentimentRun = SentimentRun(fields: SentimentFields, requests: seq<string>)

  /** `analyze()` followed by its task running to the end, with `analyzer`
      standing for the sentiment service. */
  function Run(f: SentimentFields, analyzer: Analyzer, emptyText: Option<string>): (r: SentimentRun)
    ensures !r.fields.isAnalyzing && r.fields.inputText == f.inputText
    // whatever the outcome, a result and an error are never shown at once
    ensures Consistent(r.fields)
    // blank input is an empty-text error, without calling the analyzer
    ensures Trim(f.inputText) == [] ==>
              && r.requests == []
              && r.fields.errorMessage == emptyText
              && r.fields.sentimentLabel == DefaultLabel
              && r.fields.sentimentScore == 0.0
    // otherwise the analyzer receives exactly the trimmed input, once
    ensures Trim(f.inputText) != [] ==>
              var text := Trim(f.inputText);
              && r.requests == [text]
              && (analyzer(text).Ok? ==>
                    && r.fields.sentimentLabel == DisplayName(analyzer(text).value.sentiment)
                    && r.fields.sentimentScore == analyzer(text).value.score
                    && r.fields.errorMessage == None
                    && ShowsResult(r.fields.sentimentLabel))
              && (analyzer(text).Err? ==>
                    && r.fields.errorMessage == Message(analyzer(text).failure)
                    && r.fields.sentimentLabel == DefaultLabel
                    && r.fields.sentimentScore == 0.0
                    && !ShowsResult(r.fields.sentimentLabel))
  {
    var text := Trim(f.inputText);
    if text == [] then
      SentimentRun(InputBlank(f, emptyText), [])
    else
      var started := AnalysisStarted(f);
      var completed := match analyzer(text)
        case Ok(result) => AnalysisSucceeded(started, result)
        case Err(e) => AnalysisFailed(started, e);
      SentimentRun(completed, [text])
  }

  /** The blank-input test: an empty input never reaches the analyzer and
      leaves the empty-text error under the default placeholder. */
  lemma EmptyInputScenario(f: SentimentFields, analyzer: Analyzer, emptyText: Option<string>)
    requires f.inputText == ""
    ensures var r := Run(f, analyzer, emptyText);
            && r.requests == [] && r.fields.errorMessage == emptyText
            && r.fields.sentimentLabel == DefaultLabel && r.fields.sentimentScore == 0.0
            && !ShowsResult(r.fields.sentimentLabel)
  {
  }

  /** The trimming test: the analyzer receives "Needs improvement" for an
      input padded with three spaces on each side. */
  lemma PaddedInputScenario(f: SentimentFields, analyzer: Analyzer, emptyText: Option<string>)
    requires f.inputText == "   " + "Needs improvement" + "   "
    requires analyzer("Needs improvement") == Ok(SentimentAnalysisResult(0.2, Negative))
    ensures var r := Run(f, analyzer, emptyText);
            && r.requests == ["Needs improvement"]
            && r.fields.sentimentLabel == "Negative"
  {
    TrimNeedsImprovement(f.inputText);
  }

  /** The view model. The service is not a field: the awaited call is a
      method that receives the call's outcome. The ghost fields record where
      the analysis task is suspended and every text sent to the analyzer. */
  class SentimentViewModel {
    var inputText: string
    var sentimentLabel: string
    var sentimentScore: real
    var isAnalyzing: bool
    var errorMessage: Option<string>

    /** `SentimentAnalysisError.emptyText.errorDescription`. */
    const emptyTextMessage: Option<string>

    ghost var task: AnalysisTask
    ghost var requests: seq<string>

    function Fields(): SentimentFields
      reads this
    {
      SentimentFields(inputText, sentimentLabel, sentimentScore, isAnalyzing, errorMessage)
    }

    /** `hasResult`. In a valid state a shown result means that no analysis
        is in flight and that no error is shown. */
    function HasResult(): (b: bool)
      reads this
      ensures b <==> sentimentLabel != DefaultLabel && sentimentLabel != AnalyzingLabel
      ensures Valid() && b ==> !isAnalyzing && errorMessage == None
    {
      ShowsResult(sentimentLabel)
    }

    /** The fields agree with the point the task is suspended at. The input
        text is left out: the screen edits it freely. */
    ghost predicate Valid()
      reads this
    {
      && Consistent(Fields())
      && (isAnalyzing <==> task.AwaitingAnalyzer?)
      && (task.AwaitingAnalyzer? ==>
            && errorMessage == None
            && task.text != []
            && requests != [] && requests[|requests| - 1] == task.text)
    }

    constructor (emptyTextMessage: Option<string>)
      ensures Valid() && Fields() == Initial() && !HasResult()
      ensures this.emptyTextMessage == emptyTextMessage
      ensures task == Idle && requests == []
    {
      inputText := "";
      sentimentLabel := DefaultLabel;
      sentimentScore := 0.0;
      isAnalyzing := false;
      errorMessage := None;
      this.emptyTextMessage := emptyTextMessage;
      task := Idle;
      requests := [];
    }

    /** The synchronous part of `analyze()`: blank input is an empty-text
        error under the default placeholder; otherwise the analyzing
        placeholder is shown and the trimmed input sent to the analyzer. */
    method Analyze()
      requires Valid()
      modifies this
      ensures Valid() && inputText == old(inputText)
      ensures Trim(inputText) == [] ==>
                && Fields() == InputBlank(old(Fields()), emptyTextMessage)
                && !isAnalyzing && errorMessage == emptyTextMessage
                && sentimentLabel == DefaultLabel && sentimentScore == 0.0
                && task == Idle && requests == old(requests)
      ensures Trim(inputText) != [] ==>
                && Fields() == AnalysisStarted(old(Fields()))
                && isAnalyzing && errorMessage == None && sentimentLabel == AnalyzingLabel
                && task == AwaitingAnalyzer(Trim(inputText))
                && requests == old(requests) + [Trim(inputText)]
      ensures !HasResult()
    {
      var trimmed := Trim(inputText);
      if trimmed == [] {
        isAnalyzing := false;
        errorMessage := emptyTextMessage;
        sentimentLabel := DefaultLabel;
        sentimentScore := 0.0;
        task := Idle;
        return;
      }
      isAnalyzing := true;
      errorMessage := None;
      sentimentLabel := AnalyzingLabel;
      requests := requests + [trimmed];
      task := AwaitingAnalyzer(trimmed);
    }

    /** The analysis task resuming with the analyzer's outcome: a success
        shows the score and the display name; a failure shows its message
        under the default placeholder with a zero score. */
    method AnalyzerReturned(outcome: Outcome<SentimentAnalysisResult>)
      requires Valid() && task.AwaitingAnalyzer?
      modifies this
      ensures Valid() && !isAnalyzing && task == Idle
      ensures inputText == old(inputText) && requests == old(requests)
      ensures outcome.Ok? ==>
                && Fields() == AnalysisSucceeded(old(Fields()), outcome.value)
                && sentimentScore == outcome.value.score
                && sentimentLabel == DisplayName(outcome.value.sentiment)
                && errorMessage == None && HasResult()
      ensures outcome.Err? ==>
                && Fields() == AnalysisFailed(old(Fields()), outcome.failure)
                && errorMessage == Message(outcome.failure)
                && sentimentLabel == DefaultLabel && sentimentScore == 0.0
                && !HasResult()
    {
      match outcome {
        case Ok(result) =>
          sentimentScore := result.score;
          sentimentLabel := DisplayName(result.sentiment);
          isAnalyzing := false;
        case Err(e) =>
          isAnalyzing := false;
          errorMessage := Message(e);
          sentimentLabel := DefaultLabel;
          sentimentScore := 0.0;
      }
      task := Idle;
    }
  }

  /** The steps of the view model compose to `Run`. */
  method RunToCompletion(vm: SentimentViewModel, analyzer: Analyzer)
    requires vm.Valid()
    modifies vm
    ensures vm.Valid() && vm.task == Idle
    ensures var r := Run(old(vm.Fields()), analyzer, vm.emptyTextMessage);
            vm.Fields() == r.fields && vm.requests == old(vm.requests) + r.requests
  {
    vm.Analyze();
    if Trim(vm.inputText) != [] {
      vm.AnalyzerReturned(analyzer(Trim(vm.inputText)));
    }
  }
}
