/** The feature encoder of the trainer: one hand-detection result is flattened
    into the flat number sequence that is handed to the classifier. The order
    is hands first, then landmarks within a hand, then x, y, z; no scaling or
    centring is applied. */
module Features {

  /** One detected hand keypoint. The coordinates are used exactly as the
      detector reports them and no arithmetic is ever done on them, so `real`
      stands for the JavaScript number without loss. */
  datatype Landmark = Landmark(x: real, y: real, z: real)

  /** A hand is its ordered landmarks; a pose is the detector's ordered hands
      (empty when no hand is visible). */
  type Hand = seq<Landmark>
  type Pose = seq<Hand>

  /** Total number of landmarks over all hands of a pose. */
  function LandmarkCount(pose: Pose): nat
  {
    if |pose| == 0 then 0 else |pose[0]| + LandmarkCount(pose[1..])
  }

  /** The landmarks of a pose in hand-then-landmark order. */
  function AllLandmarks(pose: Pose): (r: seq<Landmark>)
    ensures |r| == LandmarkCount(pose)
  {
    if |pose| == 0 then [] else pose[0] + AllLandmarks(pose[1..])
  }

  /** x, y and z of each point in turn. */
  function FlattenPoints(points: seq<Landmark>): (r: seq<real>)
    ensures |r| == 3 * |points|
  {
    if |points| == 0 then []
    else [points[0].x, points[0].y, points[0].z] + FlattenPoints(points[1..])
  }

  /** The feature vector of a pose: the inner loop over landmarks nested in
      the outer loop over hands. */
  function Flatten(pose: Pose): (r: seq<real>)
    ensures |r| == 3 * LandmarkCount(pose)
    ensures |pose| == 0 ==> r == []
  {
    if |pose| == 0 then [] else FlattenPoints(pose[0]) + Flatten(pose[1..])
  }

  /** Flattening points distributes over concatenation. */
  lemma {:induction false} FlattenPointsAppend(a: seq<Landmark>, b: seq<Landmark>)
    ensures FlattenPoints(a + b) == FlattenPoints(a) + FlattenPoints(b)
  {
    if |a| == 0 {
      assert a + b == b;
    } else {
      assert (a + b)[0] == a[0];
      assert (a + b)[1..] == a[1..] + b;
      FlattenPointsAppend(a[1..], b);
    }
  }

  /** Flattening a concatenation of hand lists is the concatenation of their
      flattenings. */
  lemma {:induction false} FlattenAppend(p: Pose, q: Pose)
    ensures Flatten(p + q) == Flatten(p) + Flatten(q)
  {
    if |p| == 0 {
      assert p + q == q;
    } else {
      assert (p + q)[0] == p[0];
      assert (p + q)[1..] == p[1..] + q;
      FlattenAppend(p[1..], q);
    }
  }

  /** Flattening hand by hand is the same as flattening the hand-then-landmark
      sequence of all landmarks. */
  lemma {:induction false} FlattenIsFlattenPoints(pose: Pose)
    ensures Flatten(pose) == FlattenPoints(AllLandmarks(pose))
  {
    if |pose| > 0 {
      FlattenIsFlattenPoints(pose[1..]);
      FlattenPointsAppend(pose[0], AllLandmarks(pose[1..]));
    }
  }

  /** The k-th point occupies positions 3k, 3k+1 and 3k+2. */
  lemma {:induction false} FlattenPointsIndex(points: seq<Landmark>, k: nat)
    requires k < |points|
    ensures FlattenPoints(points)[3 * k] == points[k].x
    ensures FlattenPoints(points)[3 * k + 1] == points[k].y
    ensures FlattenPoints(points)[3 * k + 2] == points[k].z
  {
    if k > 0 {
      FlattenPointsIndex(points[1..], k - 1);
    }
  }

  /** Landmark j of hand h is, in hand-then-landmark order, preceded by every
      landmark of the hands before h and by the first j landmarks of hand h. */
  lemma {:induction false} AllLandmarksIndex(pose: Pose, h: nat, j: nat)
    requires h < |pose| && j < |pose[h]|
    ensures LandmarkCount(pose[..h]) + j < LandmarkCount(pose)
    ensures AllLandmarks(pose)[LandmarkCount(pose[..h]) + j] == pose[h][j]
  {
    if h == 0 {
      assert LandmarkCount(pose[..0]) == 0;
    } else {
      var tail := pose[1..];
      assert pose[..h][0] == pose[0];
      assert pose[..h][1..] == tail[..h - 1];
      assert LandmarkCount(pose[..h]) == |pose[0]| + LandmarkCount(tail[..h - 1]);
      assert tail[h - 1] == pose[h];
      AllLandmarksIndex(tail, h - 1, j);
    }
  }

  /** Order preservation: in the feature vector, landmark j of hand h sits at
      three consecutive positions, x then y then z, after the three numbers of
      every landmark that comes before it. */
  lemma FlattenIndex(pose: Pose, h: nat, j: nat)
    requires h < |pose| && j < |pose[h]|
    ensures var k := LandmarkCount(pose[..h]) + j;
      && 3 * k + 2 < |Flatten(pose)|
      && Flatten(pose)[3 * k] == pose[h][j].x
      && Flatten(pose)[3 * k + 1] == pose[h][j].y
      && Flatten(pose)[3 * k + 2] == pose[h][j].z
  {
    var k := LandmarkCount(pose[..h]) + j;
    AllLandmarksIndex(pose, h, j);
    FlattenIsFlattenPoints(pose);
    FlattenPointsIndex(AllLandmarks(pose), k);
  }

  /** The imperative flattening loop of the trainer: for each hand, for each
      landmark, push x, y and z onto a growing array. */
  method NormalizePoseData(pose: Pose) returns (features: seq<real>)
    ensures |features| == 3 * LandmarkCount(pose)
    ensures features == FlattenPoints(AllLandmarks(pose))
  {
    features := [];
    var i := 0;
    while i < |pose|
      invariant 0 <= i <= |pose|
      invariant features == Flatten(pose[..i])
    {
      var hand := pose[i];
      var j := 0;
      while j < |hand|
        invariant 0 <= j <= |hand|
        invariant features == Flatten(pose[..i]) + FlattenPoints(hand[..j])
      {
        var landmark := hand[j];
        FlattenPointsAppend(hand[..j], [landmark]);
        assert hand[..j + 1] == hand[..j] + [landmark];
        features := features + [landmark.x, landmark.y, landmark.z];
        j := j + 1;
      }
      assert hand[..j] == hand;
      FlattenAppend(pose[..i], [hand]);
      assert pose[..i + 1] == pose[..i] + [hand];
      i := i + 1;
    }
    assert pose[..i] == pose;
    FlattenIsFlattenPoints(pose);
  }
}
