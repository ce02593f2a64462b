/** The recorded-data list of the trainer and the distinct-label computation
    that guards training. */
module Samples {

  /** One labelled training example: a flattened pose and the operator's
      label for it (`name` holds the label: `label` is reserved in Dafny). */
  datatype Sample = Sample(features: seq<real>, name: string)

  /** The set of labels present in a sample list. */
  function Labels(data: seq<Sample>): set<string>
  {
    set i | 0 <= i < |data| :: data[i].name
  }

  /** No element occurs twice. */
  predicate NoDuplicates<T(==)>(s: seq<T>)
  {
    forall i, j :: 0 <= i < j < |s| ==> s[i] != s[j]
  }

  /** Every sample carries the same label (vacuously so for no samples). */
  predicate AllSameLabel(data: seq<Sample>)
  {
    forall i, j :: 0 <= i < |data| && 0 <= j < |data| ==> data[i].name == data[j].name
  }

  /** Appending a sample adds its label to the label set. */
  lemma LabelsSnoc(data: seq<Sample>)
    requires |data| > 0
    ensures Labels(data) == Labels(data[..|data| - 1]) + {data[|data| - 1].name}
  {
  }

  /** The labels of a sample list, each once, in order of first appearance:
      the order in which spreading a JavaScript `Set` built from the labels
      yields them. */
  function UniqueLabels(data: seq<Sample>): (r: seq<string>)
    ensures NoDuplicates(r)
    ensures forall l :: l in r <==> l in Labels(data)
    ensures |data| > 0 ==> |r| > 0 && r[0] == data[0].name
  {
    if |data| == 0 then []
    else
      var init := data[..|data| - 1];
      var u := UniqueLabels(init);
      var l := data[|data| - 1].name;
      LabelsSnoc(data);
      assert |init| > 0 ==> init[0] == data[0];
      if l in u then u else u + [l]
  }

  /** A label list is never re-ordered as samples are appended: the distinct
      labels of any prefix are a prefix of the distinct labels of the whole. */
  lemma {:induction false} UniqueLabelsPrefix(data: seq<Sample>, k: nat)
    requires k <= |data|
    ensures |UniqueLabels(data[..k])| <= |UniqueLabels(data)|
    ensures UniqueLabels(data[..k]) == UniqueLabels(data)[..|UniqueLabels(data[..k])|]
    decreases |data| - k
  {
    if k == |data| {
      assert data[..k] == data;
    } else {
      var next := data[..k + 1];
      assert next[..k] == data[..k];
      assert next[..|next| - 1] == data[..k];
      UniqueLabelsPrefix(data, k + 1);
    }
  }

  /** A list without duplicates has as many elements as its set of elements. */
  lemma {:induction false} DistinctCardinality<T>(s: seq<T>)
    requires NoDuplicates(s)
    ensures |set x | x in s| == |s|
  {
    if |s| > 0 {
      var init := s[..|s| - 1];
      var last := s[|s| - 1];
      assert NoDuplicates(init);
      DistinctCardinality(init);
      assert last !in init;
      assert (set x | x in s) == (set x | x in init) + {last};
    }
  }

  /** The number of distinct labels is the size of the label set. */
  lemma UniqueLabelsCount(data: seq<Sample>)
    ensures |UniqueLabels(data)| == |Labels(data)|
  {
    var r := UniqueLabels(data);
    DistinctCardinality(r);
    assert (set x | x in r) == Labels(data);
  }

  /** Fewer than two distinct labels means, and is implied by, every sample
      carrying the same label. */
  lemma FewerThanTwoLabels(data: seq<Sample>)
    ensures |UniqueLabels(data)| < 2 <==> AllSameLabel(data)
  {
  }
}
