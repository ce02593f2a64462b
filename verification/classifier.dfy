/** The external neural-network classifier, seen only from outside: the calls
    the trainer makes on it, recorded as events, and the replies its
    asynchronous callbacks deliver. Its learning algorithm is not modelled. */
module Classifier {
  import opened Samples

  /** One call on the classifier handle. */
  datatype Call =
    | AddData(features: seq<real>, name: string)  // one training example with its label
    | NormalizeData                                // the classifier's own normalisation step
    | Train(epochs: nat)                           // start training; completion is a callback
    | Classify(features: seq<real>)                // ask for a prediction; the reply is a callback

  /** One ranked answer of a classification: a label and its probability. */
  datatype Guess = Guess(name: string, confidence: real)

  /** What the classification callback receives: an error, or the ranked
      answers, best first. */
  datatype Reply = Failed | Ranked(guesses: seq<Guess>)

  /** One `AddData` call per sample, in list order. */
  function FeedCalls(data: seq<Sample>): (r: seq<Call>)
    ensures |r| == |data|
    ensures forall i :: 0 <= i < |data| ==> r[i] == AddData(data[i].features, data[i].name)
  {
    if |data| == 0 then []
    else [AddData(data[0].features, data[0].name)] + FeedCalls(data[1..])
  }

  /** The samples a call trace hands to the classifier, in the order it hands
      them over. */
  function FedSamples(calls: seq<Call>): seq<Sample>
  {
    if |calls| == 0 then []
    else
      var rest := FedSamples(calls[1..]);
      match calls[0]
      case AddData(f, l) => [Sample(f, l)] + rest
      case _ => rest
  }

  /** The samples fed by a concatenation of traces are those of each part. */
  lemma {:induction false} FedSamplesAppend(a: seq<Call>, b: seq<Call>)
    ensures FedSamples(a + b) == FedSamples(a) + FedSamples(b)
  {
    if |a| == 0 {
      assert a + b == b;
    } else {
      assert (a + b)[0] == a[0];
      assert (a + b)[1..] == a[1..] + b;
      FedSamplesAppend(a[1..], b);
    }
  }

  /** Reading the samples back off the feeding calls gives exactly the list
      that was fed: none dropped, none added, none reordered. */
  lemma {:induction false} FeedCallsRoundTrip(data: seq<Sample>)
    ensures FedSamples(FeedCalls(data)) == data
  {
    if |data| > 0 {
      var calls := FeedCalls(data);
      assert calls[1..] == FeedCalls(data[1..]);
      FeedCallsRoundTrip(data[1..]);
    }
  }
}
