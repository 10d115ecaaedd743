/** What the two view models exchange with the image classifier and the
    sentiment analyzer. The services themselves are not modelled: each call
    is represented by the outcome it delivers. */
module Services {

  datatype Option<T> = None | Some(value: T)

  /** An error thrown by a service. `ServiceError` is an error of the
      service's own `LocalizedError` type (`ImageClassificationError` for the
      classifier, `SentimentAnalysisError` for the analyzer), whose
      `errorDescription` may be nil; `OtherError` is any other error, which
      the view models show through its `localizedDescription`. */
  datatype Failure =
    | ServiceError(errorDescription: Option<string>)
    | OtherError(localizedDescription: string)

  /** The message a view model stores for a failure: the `errorDescription`
      of the service's own error type, or else the `localizedDescription`. */
  function Message(e: Failure): (m: Option<string>)
    ensures e.ServiceError? ==> m == e.errorDescription
    ensures e.OtherError? ==> m == Some(e.localizedDescription)
    // only a service error without a description leaves no message to show
    ensures m.None? <==> e.ServiceError? && e.errorDescription.None?
  {
    match e
    case ServiceError(description) => description
    case OtherError(description) => Some(description)
  }

  /** The result of one awaited service call: it returns or it throws. */
  datatype Outcome<T> = Ok(value: T) | Err(failure: Failure)

  /** What the classifier returns for an image. */
  datatype ClassificationResult = ClassificationResult(identifier: string, confidence: real)

  datatype Sentiment = Positive | Neutral | Negative

  /** The label shown for a sentiment category. */
  function DisplayName(s: Sentiment): string {
    match s
    case Positive => "Positive"
    case Neutral => "Neutral"
    case Negative => "Negative"
  }

  /** What the sentiment analyzer returns for a text. */
  datatype SentimentAnalysisResult = SentimentAnalysisResult(score: real, sentiment: Sentiment)

  /** A classifier, as the outcome it delivers for each image. */
  type Classifier<-Image> = Image -> Outcome<ClassificationResult>

  /** A sentiment analyzer, as the outcome it delivers for each text. */
  type Analyzer = string -> Outcome<SentimentAnalysisResult>
}
