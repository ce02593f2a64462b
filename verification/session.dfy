/** A session of the trainer: a sequence of operator actions and classifier
    callbacks applied one after another, with the classifier calls of the
    whole session collected in order. Callbacks may arrive in any order here,
    which includes every order the real classifier can produce, so what holds
    of every run holds of every real session. */
module Session {
  import opened Features
  import opened Samples
  import opened Classifier
  import opened Trainer

  /** Something that drives the trainer. */
  datatype Event =
    | ClickAddSample(name: string, pose: Pose)  // label typed so far, latest pose
    | ClickTrain
    | TrainingDone                              // the training-completion callback
    | ClickPredict(pose: Pose)
    | ClassifyDone(reply: Reply)                // the classification callback

  /** Every stored sample has a non-empty label and three numbers per
      landmark. */
  predicate StoreInvariant(s: State)
  {
    forall i :: 0 <= i < |s.recorded| ==>
      s.recorded[i].name != "" && |s.recorded[i].features| % 3 == 0
  }

  /** What any single classifier call looks like: labelled examples and
      prediction requests of whole landmarks, training always for the fixed
      number of epochs. */
  predicate CallOk(c: Call)
  {
    match c
    case AddData(f, l) => l != "" && |f| % 3 == 0
    case NormalizeData => true
    case Train(e) => e == Epochs
    case Classify(f) => |f| % 3 == 0
  }

  /** At position i of a trace, training starts only right after a
      normalisation, and a normalisation is immediately followed by
      training. */
  predicate OrderedAt(calls: seq<Call>, i: int)
    requires 0 <= i < |calls|
  {
    && (calls[i].Train? ==> i > 0 && calls[i - 1].NormalizeData?)
    && (calls[i].NormalizeData? ==> i + 1 < |calls| && calls[i + 1].Train?)
  }

  /** Normalisation and training always come as an adjacent pair. */
  predicate NormalizeThenTrain(calls: seq<Call>)
  {
    forall i :: 0 <= i < |calls| ==> OrderedAt(calls, i)
  }

  /** Pairing survives concatenation of traces. */
  lemma NormalizeThenTrainAppend(a: seq<Call>, b: seq<Call>)
    requires NormalizeThenTrain(a) && NormalizeThenTrain(b)
    ensures NormalizeThenTrain(a + b)
  {
    var c := a + b;
    forall i | 0 <= i < |c|
      ensures OrderedAt(c, i)
    {
      if i < |a| {
        assert OrderedAt(a, i);
        assert c[i] == a[i];
        if i > 0 { assert c[i - 1] == a[i - 1]; }
        if i + 1 < |a| { assert c[i + 1] == a[i + 1]; }
      } else {
        var j := i - |a|;
        assert OrderedAt(b, j);
        assert c[i] == b[j];
        if j > 0 { assert c[i - 1] == b[j - 1]; }
        if j + 1 < |b| { assert c[i + 1] == b[j + 1]; }
      }
    }
  }

  /** The calls of one training click are well formed and ordered. */
  lemma TrainModelCalls(s: State)
    ensures NormalizeThenTrain(TrainModel(s).calls)
    ensures StoreInvariant(s) ==>
      forall i :: 0 <= i < |TrainModel(s).calls| ==> CallOk(TrainModel(s).calls[i])
  {
  }

  /** One event. */
  function Apply(s: State, e: Event): (r: Step)
    ensures r.state.network == s.network
    ensures !s.network ==> r.calls == []
  {
    match e
    case ClickAddSample(name, pose) => AddSample(s, name, pose)
    case ClickTrain => TrainModel(s)
    case TrainingDone => Step(CompleteTraining(s), [])
    case ClickPredict(pose) => Predict(s, pose)
    case ClassifyDone(reply) => Step(ShowPrediction(s, reply), [])
  }

  /** Every event keeps the store invariant, and the calls it makes are well
      formed and ordered. */
  lemma ApplyKeepsInvariant(s: State, e: Event)
    requires StoreInvariant(s)
    ensures StoreInvariant(Apply(s, e).state)
    ensures forall i :: 0 <= i < |Apply(s, e).calls| ==> CallOk(Apply(s, e).calls[i])
    ensures NormalizeThenTrain(Apply(s, e).calls)
  {
  }

  /** A whole session from state `s`: the final state and every classifier
      call made, in order. Without a classifier handle the session never
      gains one and makes no call. */
  function Run(s: State, events: seq<Event>): (r: Step)
    ensures r.state.network == s.network
    ensures !s.network ==> r.calls == []
    decreases |events|
  {
    if |events| == 0 then Step(s, [])
    else
      var first := Apply(s, events[0]);
      var rest := Run(first.state, events[1..]);
      Step(rest.state, first.calls + rest.calls)
  }

  /** Over a whole session the store invariant holds throughout, and every
      classifier call is well formed, with normalisation and training always
      paired. */
  lemma {:induction false} RunKeepsInvariant(s: State, events: seq<Event>)
    requires StoreInvariant(s)
    ensures StoreInvariant(Run(s, events).state)
    ensures forall i :: 0 <= i < |Run(s, events).calls| ==> CallOk(Run(s, events).calls[i])
    ensures NormalizeThenTrain(Run(s, events).calls)
    decreases |events|
  {
    if |events| > 0 {
      var first := Apply(s, events[0]);
      ApplyKeepsInvariant(s, events[0]);
      RunKeepsInvariant(first.state, events[1..]);
      var rest := Run(first.state, events[1..]);
      NormalizeThenTrainAppend(first.calls, rest.calls);
      var calls := first.calls + rest.calls;
      forall i | 0 <= i < |calls|
        ensures CallOk(calls[i])
      {
        if i < |first.calls| {
          assert calls[i] == first.calls[i];
        } else {
          assert calls[i] == rest.calls[i - |first.calls|];
        }
      }
    }
  }

  /** A session started with the classifier library missing never calls the
      classifier and never gains a handle; one started with it loaded keeps
      only well-labelled samples and issues only well-formed calls. */
  lemma SessionFromStart(libraryLoaded: bool, events: seq<Event>)
    ensures var r := Run(Init(libraryLoaded), events);
      && r.state.network == libraryLoaded
      && (!libraryLoaded ==> r.calls == [])
      && StoreInvariant(r.state)
      && (forall i :: 0 <= i < |r.calls| ==> CallOk(r.calls[i]))
  {
    RunKeepsInvariant(Init(libraryLoaded), events);
  }

  /** A non-empty session is its first event followed by the rest. */
  lemma RunCons(s: State, e: Event, events: seq<Event>)
    ensures var first := Apply(s, e);
      var rest := Run(first.state, events);
      Run(s, [e] + events) == Step(rest.state, first.calls + rest.calls)
  {
  }

  /** Appending events runs the first part, then the second part from where
      the first left off. */
  lemma {:induction false} RunAppend(s: State, a: seq<Event>, b: seq<Event>)
    ensures Run(s, a + b).state == Run(Run(s, a).state, b).state
    ensures Run(s, a + b).calls == Run(s, a).calls + Run(Run(s, a).state, b).calls
    decreases |a|
  {
    if |a| == 0 {
      assert a + b == b;
      assert Run(s, a) == Step(s, []);
    } else {
      var e, more := a[0], a[1..];
      assert a == [e] + more;
      assert a + b == [e] + (more + b);
      var first := Apply(s, e);
      RunCons(s, e, more + b);
      RunCons(s, e, more);
      RunAppend(first.state, more, b);
      var mid := Run(first.state, more);
      var tail := Run(mid.state, b);
      assert first.calls + (mid.calls + tail.calls) == (first.calls + mid.calls) + tail.calls;
    }
  }

  /** A sample recorded after the train click but before the completion
      callback is never handed to the classifier, and the completion callback
      discards it along with the rest of the store. */
  lemma SampleAddedWhileTrainingIsDropped(s: State, name: string, pose: Pose)
    requires s.network && |s.recorded| > 0 && !AllSameLabel(s.recorded)
    requires name != "" && |pose| > 0
    ensures var r := Run(s, [ClickTrain, ClickAddSample(name, pose), TrainingDone]);
      && r.state.recorded == []
      && r.state.status == TrainingComplete
      && FedSamples(r.calls) == s.recorded
  {
    var s1 := TrainModel(s);
    var s2 := AddSample(s1.state, name, pose);
    RunCons(s, ClickTrain, [ClickAddSample(name, pose), TrainingDone]);
    RunCons(s1.state, ClickAddSample(name, pose), [TrainingDone]);
    RunCons(s2.state, TrainingDone, []);
    TrainingCycle(s);
    assert s1.calls + (s2.calls + ([] + [])) == s1.calls;
  }

  /** Nothing stops a second train click before the first run completes: the
      recorded samples are then fed to the classifier twice. */
  lemma TrainTwiceFeedsTwice(s: State)
    requires s.network && |s.recorded| > 0 && !AllSameLabel(s.recorded)
    ensures FedSamples(Run(s, [ClickTrain, ClickTrain]).calls) == s.recorded + s.recorded
  {
    var s1 := TrainModel(s);
    var s2 := TrainModel(s1.state);
    RunCons(s, ClickTrain, [ClickTrain]);
    RunCons(s1.state, ClickTrain, []);
    TrainingCycle(s);
    TrainingCycle(s1.state);
    assert s2.calls + [] == s2.calls;
    FedSamplesAppend(s1.calls, s2.calls);
  }
}
