/** The trainer's handlers as atomic state transitions. The state is the
    recorded-data list, the status shown to the operator, and whether a
    classifier handle exists; each operator action yields the next state and
    the calls it makes on the classifier, and each classifier callback is a
    transition of its own. */
module Trainer {
  import opened Features
  import opened Samples
  import opened Classifier

  /** Number of training epochs requested on every training run. */
  const Epochs: nat := 50

  /** The status line, one constructor per message the trainer can show. */
  datatype Status =
    | NotInitialized                         // no classifier handle (also the status before start-up)
    | Initialized                            // the handle was created at start-up
    | LibraryMissing                         // the classifier library was not loaded at start-up
    | SampleAdded(name: string, total: nat)  // a sample was stored; total samples now held
    | LabelMissing                           // add-sample refused: no label typed
    | PoseMissing                            // add-sample refused: no hand visible
    | NoTrainingData                         // training refused: nothing recorded
    | TooFewLabels                           // training refused: fewer than two distinct labels
    | TrainingStarted                        // training calls issued, completion pending
    | TrainingComplete                       // the training callback fired
    | PredictionFailed                       // the classification callback reported an error
    | Predicted(name: string, confidence: real)  // best label and its raw probability

  /** `network` says whether the classifier handle exists. */
  datatype State = State(recorded: seq<Sample>, status: Status, network: bool)

  /** The outcome of an operator action: the next state and the classifier
      calls it issued, in order. */
  datatype Step = Step(state: State, calls: seq<Call>)

  /** Start-up: the handle exists exactly when the classifier library is
      loaded; nothing is recorded yet. */
  function Init(libraryLoaded: bool): (s: State)
    ensures s.recorded == []
    ensures s.network <==> libraryLoaded
    ensures libraryLoaded ==> s.status == Initialized
    ensures !libraryLoaded ==> s.status == LibraryMissing
  {
    if libraryLoaded then State([], Initialized, true)
    else State([], LibraryMissing, false)
  }

  /** The add-sample button, with the label typed so far and the latest pose
      from the detector. A missing label is reported before a missing pose. */
  function AddSample(s: State, name: string, pose: Pose): (r: Step)
    ensures r.calls == [] && r.state.network == s.network
    ensures name != "" && |pose| > 0 ==>
      && |r.state.recorded| == |s.recorded| + 1
      && r.state.recorded[..|s.recorded|] == s.recorded
      && r.state.recorded[|s.recorded|] == Sample(Flatten(pose), name)
      && r.state.status == SampleAdded(name, |r.state.recorded|)
    ensures name == "" ==> r.state == s.(status := LabelMissing)
    ensures name != "" && |pose| == 0 ==> r.state == s.(status := PoseMissing)
  {
    if name != "" && |pose| > 0 then
      var stored := s.recorded + [Sample(Flatten(pose), name)];
      Step(State(stored, SampleAdded(name, |s.recorded| + 1), s.network), [])
    else if name == "" then
      Step(s.(status := LabelMissing), [])
    else
      Step(s.(status := PoseMissing), [])
  }

  /** The train button. It checks, in order, that the handle exists, that
      something is recorded and that at least two distinct labels occur; the
      first failed check sets its status and nothing else happens. Otherwise
      every recorded sample is fed in list order, the data is normalised once
      and training starts. The store is left as it is until the completion
      callback. */
  function TrainModel(s: State): (r: Step)
    ensures r.state.recorded == s.recorded && r.state.network == s.network
    ensures |r.calls| > 0 <==> s.network && |s.recorded| > 0 && !AllSameLabel(s.recorded)
    ensures !s.network ==> r.state.status == NotInitialized
    ensures s.network && |s.recorded| == 0 ==> r.state.status == NoTrainingData
    ensures s.network && |s.recorded| > 0 && AllSameLabel(s.recorded) ==>
      r.state.status == TooFewLabels
    ensures |r.calls| > 0 ==>
      && r.state.status == TrainingStarted
      && |r.calls| == |s.recorded| + 2
      && (forall i :: 0 <= i < |s.recorded| ==>
            r.calls[i] == AddData(s.recorded[i].features, s.recorded[i].name))
      && r.calls[|s.recorded|] == NormalizeData
      && r.calls[|s.recorded| + 1] == Train(Epochs)
  {
    FewerThanTwoLabels(s.recorded);
    if !s.network then
      Step(s.(status := NotInitialized), [])
    else if |s.recorded| == 0 then
      Step(s.(status := NoTrainingData), [])
    else if |UniqueLabels(s.recorded)| < 2 then
      Step(s.(status := TooFewLabels), [])
    else
      Step(s.(status := TrainingStarted), FeedCalls(s.recorded) + [NormalizeData, Train(Epochs)])
  }

  /** The training-completion callback: the whole store is cleared. */
  function CompleteTraining(s: State): (r: State)
    ensures r.recorded == []
    ensures r.status == TrainingComplete && r.network == s.network
  {
    State([], TrainingComplete, s.network)
  }

  /** The predict button. A classification is requested only when the handle
      exists and a hand is visible, and then on exactly the pose's feature
      vector. With a handle but no hand nothing at all happens. */
  function Predict(s: State, pose: Pose): (r: Step)
    ensures r.state.recorded == s.recorded && r.state.network == s.network
    ensures |r.calls| > 0 <==> s.network && |pose| > 0
    ensures |r.calls| > 0 ==> r.calls == [Classify(Flatten(pose))] && r.state.status == s.status
    ensures !s.network ==> r.state == s.(status := NotInitialized)
    ensures s.network && |pose| == 0 ==> r.state == s
  {
    if !s.network then
      Step(s.(status := NotInitialized), [])
    else if |pose| > 0 then
      Step(s, [Classify(Flatten(pose))])
    else
      Step(s, [])
  }

  /** The classification callback. An error sets the failure status; a ranked
      answer shows the best label. An empty ranking makes reading the best
      answer throw inside the callback before the status is set, so the
      state stays as it was. */
  function ShowPrediction(s: State, reply: Reply): (r: State)
    ensures r.recorded == s.recorded && r.network == s.network
    ensures reply.Failed? ==> r.status == PredictionFailed
    ensures reply.Ranked? && |reply.guesses| > 0 ==>
      r.status == Predicted(reply.guesses[0].name, reply.guesses[0].confidence)
    ensures reply.Ranked? && |reply.guesses| == 0 ==> r == s
  {
    match reply
    case Failed => s.(status := PredictionFailed)
    case Ranked(guesses) =>
      if |guesses| > 0 then s.(status := Predicted(guesses[0].name, guesses[0].confidence))
      else s
  }

  /** A successful training run hands the classifier exactly the recorded
      samples, in order, and its completion empties the store. */
  lemma TrainingCycle(s: State)
    requires s.network && |s.recorded| > 0 && !AllSameLabel(s.recorded)
    ensures FedSamples(TrainModel(s).calls) == s.recorded
    ensures CompleteTraining(TrainModel(s).state).recorded == []
  {
    var tail := [NormalizeData, Train(Epochs)];
    assert tail[1..] == [Train(Epochs)] && tail[1..][1..] == [];
    assert FedSamples(tail[1..]) == FedSamples(tail[1..][1..]) == [];
    FedSamplesAppend(FeedCalls(s.recorded), tail);
    FeedCallsRoundTrip(s.recorded);
  }

  /** The prediction request carries three numbers per visible landmark, and
      landmark j of hand h at positions 3k, 3k+1, 3k+2 where k counts the
      landmarks before it. */
  lemma PredictFeatures(s: State, pose: Pose, h: nat, j: nat)
    requires s.network && h < |pose| && j < |pose[h]|
    ensures var c := Predict(s, pose).calls[0];
      && c.Classify?
      && |c.features| == 3 * LandmarkCount(pose)
      && var k := LandmarkCount(pose[..h]) + j;
         3 * k + 2 < |c.features|
         && c.features[3 * k] == pose[h][j].x
         && c.features[3 * k + 1] == pose[h][j].y
         && c.features[3 * k + 2] == pose[h][j].z
  {
    FlattenIndex(pose, h, j);
  }
}
