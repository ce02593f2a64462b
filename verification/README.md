# Hand-sign trainer: sample collection and training driver

This project models the trainer component of a hand-sign recogniser. An operator
types a label and clicks "add sample". The current hand-detection result is then
flattened into a feature vector and stored together with the label. A "train"
click feeds every stored sample to an external neural-network classifier and
starts training. A "predict" click asks the classifier to classify the live pose.

The model is functional:

- `Features` flattens a pose into its feature vector. A pose is the detector's
  ordered hands, and each hand is an ordered list of `{x, y, z}` landmarks. The
  order is hands first, then landmarks, then x, y, z. No scaling is applied.
  `NormalizePoseData` is the imperative double loop. `Flatten` is its recursive
  counterpart.
- `Samples` holds the labelled sample record and the distinct-label computation.
  The distinct labels come out in first-appearance order, because that is how a
  JavaScript `Set` iterates.
- `Classifier` treats the classifier as opaque. Its calls (`AddData`,
  `NormalizeData`, `Train`, `Classify`) are recorded as events, and the replies
  of its callbacks form a datatype.
- `Trainer` has one pure transition per handler. The state is the recorded
  samples, the status line and whether a classifier handle exists. A transition
  returns the next state and the classifier calls it issued. The training
  completion callback and the classification callback are transitions of their
  own.
- `Session` applies any sequence of clicks and callbacks. It proves invariants
  over whole sessions.

Landmark coordinates are `real`. The code never does arithmetic on them, so
nothing about floating point is lost. The status line is a datatype with one
constructor per message.

## Model

| member | source | states |
|---|---|---|
| Features.Flatten | src/components/Trainer.jsx:23-31 | The feature vector has three numbers per landmark over all hands, so it is empty when no hand is present |
| Features.FlattenPoints | src/components/Trainer.jsx:26-28 | The inner loop contributes exactly three numbers per landmark of a hand |
| Features.FlattenAppend | src/components/Trainer.jsx:25-27 | Flattening a concatenation of hand lists equals concatenating their flattenings |
| Features.FlattenIsFlattenPoints | src/components/Trainer.jsx:25-27 | Flattening hand by hand equals flattening all landmarks taken in hand-then-landmark order |
| Features.FlattenIndex | src/components/Trainer.jsx:25-27 | Landmark j of hand h puts its x, y and z at positions 3k, 3k+1 and 3k+2, where k counts every landmark before it |
| Features.NormalizePoseData | src/components/Trainer.jsx:23-31 | The push loop gives length three times the landmark count, and its output is the x, y, z sequence of all landmarks in order |
| Samples.UniqueLabels | src/components/Trainer.jsx:56 | The distinct-label list has no duplicates and contains exactly the labels present; for a non-empty store it starts with the first sample's label |
| Samples.UniqueLabelsPrefix | src/components/Trainer.jsx:56 | The list follows insertion order: the distinct labels of any prefix of the store are a prefix of the store's distinct labels |
| Samples.UniqueLabelsCount | src/components/Trainer.jsx:56-57 | The length the guard tests equals the number of distinct labels |
| Samples.FewerThanTwoLabels | src/components/Trainer.jsx:56-57 | Fewer than two distinct labels holds exactly when all samples share one label (both directions) |
| Classifier.FeedCalls | src/components/Trainer.jsx:63-65 | Issues one AddData call per sample, in list order, carrying that sample's features and label |
| Classifier.FeedCallsRoundTrip | src/components/Trainer.jsx:63-65 | Reading the samples back off the feeding calls gives the fed list: none dropped, added or reordered |
| Trainer.Init | src/components/Trainer.jsx:9-21 | At start-up the handle exists exactly when the library is loaded, the status says which, and the store is empty |
| Trainer.AddSample | src/components/Trainer.jsx:33-43 | With a label and a pose, exactly one sample (flattened pose, label) is appended, earlier samples are kept, and the status reports the new total. With no label the store is unchanged and the label error wins over the pose error. With a label and no pose the store is unchanged and the pose error is reported. No classifier call is made |
| Trainer.TrainModel | src/components/Trainer.jsx:45-72 | Checks run in order: handle present, at least one sample, at least two distinct labels. The first failure sets its status, makes no call and keeps the store. Otherwise the trace is one AddData per sample in order, then one NormalizeData, then Train with 50 epochs. The store is untouched until completion |
| Trainer.CompleteTraining | src/components/Trainer.jsx:68-71 | The completion callback empties the store, sets the training-complete status and keeps the handle |
| Trainer.Predict | src/components/Trainer.jsx:74-90 | Classify is called exactly when a handle exists and a hand is visible, and then only on the pose's feature vector. No handle sets the not-initialised status. With a handle and no pose nothing changes |
| Trainer.ShowPrediction | src/components/Trainer.jsx:81-88 | An error reply sets the prediction-error status and a ranked reply shows its top label and confidence. An empty ranking throws before the status is set, so the state is unchanged. The store and handle are never touched |
| Trainer.TrainingCycle | src/components/Trainer.jsx:62-71 | A valid training run hands the classifier exactly the recorded samples in order, and completion clears all of them |
| Trainer.PredictFeatures | src/components/Trainer.jsx:79-81 | The vector sent for classification has three numbers per landmark, with each landmark's x, y, z at its hand-then-landmark position |
| Session.Run | src/components/Trainer.jsx:9-21 | The handle is decided at start-up and never changes in a session. Without one, no classifier call is ever made |
| Session.TrainModelCalls | src/components/Trainer.jsx:62-68 | Each call of a training click is well formed, and NormalizeData and Train come as an adjacent pair |
| Session.ApplyKeepsInvariant | src/components/Trainer.jsx:33-90 | Every click and callback keeps every stored label non-empty and every feature length a multiple of three. The calls it issues are well formed: labelled AddData, whole-landmark Classify, 50-epoch Train |
| Session.RunKeepsInvariant | src/components/Trainer.jsx:33-90 | The store invariant and call well-formedness hold over any session, and normalisation and training are always adjacent in the whole trace |
| Session.SessionFromStart | src/components/Trainer.jsx:9-21 | A session from start-up keeps the store invariant and issues only well-formed calls. It makes no call at all when the library is missing |
| Session.SampleAddedWhileTrainingIsDropped | src/components/Trainer.jsx:68-71 | A sample added between the train click and its completion is never fed to the classifier, and it is discarded by the completion callback |
| Session.TrainTwiceFeedsTwice | src/components/Trainer.jsx:45-72 | Nothing guards against a second train click while training runs, so the samples are fed twice |

## Left out

- `exportModel` (src/components/Trainer.jsx:92-106) only delegates to the classifier's own save routine and changes the status text. It is not modelled.
- Trainer.ShowPrediction: the status keeps the raw top-1 confidence. Multiplying by 100 and formatting to two decimals is floating-point and string work, and is not modelled.
- The status line is a datatype with one constructor per message, not the message strings themselves. The sample count and label interpolation are kept as constructor fields.
- The label text box, the rendered sample count and the comma-joined distinct-label display (src/components/Trainer.jsx:108-137) are UI rendering only. The distinct-label list they show is `Samples.UniqueLabels`.
- Console logging of errors is not modelled.
- React state updates are treated as atomic. Each handler and each callback is one transition, and batching or a stale `recordedData` prop between renders is not modelled.
- Session.Run lets callbacks arrive in any order and at any time. The real classifier fires them only after the matching call, so the session lemmas cover more schedules than can happen. The lemmas are universal, so they still hold for the real schedules.
- The classifier's internals (data accumulation, normalisation, training, classification) are opaque events. Its learning behaviour is not modelled.
- The hand detector, the webcam loop, canvas drawing and the coordinate listing (Posedetector.jsx, CanvasDrawing.jsx, Coordinates.jsx) are I/O and rendering. App.jsx only passes the pose and the sample store through.
- The code has no train/test split, no confusion-matrix evaluation, no decoding of feature vectors back into hands, no sample-file export and no prediction shape check. Training feeds every sample and its completion clears every sample. No status guards against training or predicting while a training run is in flight; the train and predict buttons are disabled only when no handle exists. The model follows the code on all of these points.
