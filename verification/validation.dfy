/**
 * The consistency check that compares one agent's feature set against the
 * baseline and reports every disagreement as a warning.
 */
module Validation {
  import opened FeatureModel

  /** One reported disagreement between an agent's set and the baseline. */
  datatype Warning =
    | NotInReference(feature: Feature, pod: string)
    | Differs(feature: Feature, pod: string, expected: FeatureStatus, found: FeatureStatus)
    | NotFound(feature: Feature, pod: string)

  /**
   * `w` is a warning the check owes when comparing `other` (from agent `pod`)
   * against `baseline`.
   */
  predicate Due(baseline: FeatureSet, other: FeatureSet, pod: string, w: Warning) {
    && w.pod == pod
    && match w
       case NotInReference(k, _) => k in other && k !in baseline
       case Differs(k, _, expected, found) =>
         k in other && k in baseline && expected == baseline[k] && found == other[k] && expected != found
       case NotFound(k, _) => k in baseline && k !in other
  }

  /** The features of `other` the baseline lacks. */
  function ExtraKeys(baseline: FeatureSet, other: FeatureSet): set<Feature> {
    other.Keys - baseline.Keys
  }

  /** The features both sets hold with different statuses. */
  function DifferingKeys(baseline: FeatureSet, other: FeatureSet): set<Feature> {
    set k | k in other && k in baseline && baseline[k] != other[k]
  }

  /** The features of the baseline `other` lacks. */
  function MissingKeys(baseline: FeatureSet, other: FeatureSet): set<Feature> {
    baseline.Keys - other.Keys
  }

  /**
   * All warnings the check emits, as a multiset: the order in which they are
   * emitted follows map iteration and is not determined.
   */
  function Warnings(baseline: FeatureSet, other: FeatureSet, pod: string): multiset<Warning> {
    multiset(set k | k in ExtraKeys(baseline, other) :: NotInReference(k, pod))
    + multiset(set k | k in DifferingKeys(baseline, other) :: Differs(k, pod, baseline[k], other[k]))
    + multiset(set k | k in MissingKeys(baseline, other) :: NotFound(k, pod))
  }

  /** The check owes each due warning once and nothing else. */
  lemma WarningsAreDue(baseline: FeatureSet, other: FeatureSet, pod: string)
    ensures forall w :: Warnings(baseline, other, pod)[w] == if Due(baseline, other, pod, w) then 1 else 0
  {
  }

  /** The warnings `warn` makes for each feature of `keys`. */
  function Image(keys: set<Feature>, warn: Feature -> Warning): (ws: set<Warning>)
    requires forall k :: warn(k).feature == k
    ensures forall w :: w in ws <==> w.feature in keys && w == warn(w.feature)
  {
    set k | k in keys :: warn(k)
  }

  /** `ws` holds exactly the due warnings of the first pass over the agent's features in `visited`. */
  ghost predicate FirstPassDone(baseline: FeatureSet, other: FeatureSet, pod: string, ws: multiset<Warning>, visited: set<Feature>) {
    forall w :: ws[w] == (if Due(baseline, other, pod, w) && !w.NotFound? && w.feature in visited then 1 else 0)
  }

  /** `ws` holds the whole first pass and the second pass over the baseline's features in `visited`. */
  ghost predicate SecondPassDone(baseline: FeatureSet, other: FeatureSet, pod: string, ws: multiset<Warning>, visited: set<Feature>) {
    forall w :: ws[w] == (if Due(baseline, other, pod, w) && (!w.NotFound? || w.feature in visited) then 1 else 0)
  }

  lemma FirstPassStep(baseline: FeatureSet, other: FeatureSet, pod: string, ws: multiset<Warning>, visited: set<Feature>, key: Feature)
    requires FirstPassDone(baseline, other, pod, ws, visited)
    requires key in other && key !in visited
    ensures key !in baseline ==>
      FirstPassDone(baseline, other, pod, ws + multiset{NotInReference(key, pod)}, visited + {key})
    ensures key in baseline && baseline[key] != other[key] ==>
      FirstPassDone(baseline, other, pod, ws + multiset{Differs(key, pod, baseline[key], other[key])}, visited + {key})
    ensures key in baseline && baseline[key] == other[key] ==>
      FirstPassDone(baseline, other, pod, ws, visited + {key})
  {
  }

  lemma SecondPassStep(baseline: FeatureSet, other: FeatureSet, pod: string, ws: multiset<Warning>, visited: set<Feature>, key: Feature)
    requires SecondPassDone(baseline, other, pod, ws, visited)
    requires key in baseline && key !in visited
    ensures key !in other ==> SecondPassDone(baseline, other, pod, ws + multiset{NotFound(key, pod)}, visited + {key})
    ensures key in other ==> SecondPassDone(baseline, other, pod, ws, visited + {key})
  {
  }

  lemma FirstPassComplete(baseline: FeatureSet, other: FeatureSet, pod: string, ws: multiset<Warning>)
    requires FirstPassDone(baseline, other, pod, ws, other.Keys)
    ensures SecondPassDone(baseline, other, pod, ws, {})
  {
  }

  lemma SecondPassComplete(baseline: FeatureSet, other: FeatureSet, pod: string, ws: multiset<Warning>)
    requires SecondPassDone(baseline, other, pod, ws, baseline.Keys)
    ensures ws == Warnings(baseline, other, pod)
  {
    WarningsAreDue(baseline, other, pod);
    assert forall w :: ws[w] == Warnings(baseline, other, pod)[w];
  }

  /**
   * The check as the program runs it: one pass over the agent's entries, then
   * one over the baseline's, in an arbitrary key order.
   */
  method ValidateFeatureSet(baseline: FeatureSet, other: FeatureSet, pod: string) returns (warnings: multiset<Warning>)
    ensures warnings == Warnings(baseline, other, pod)
  {
    warnings := multiset{};
    var pending := other.Keys;
    var visited: set<Feature> := {};
    while pending != {}
      invariant pending + visited == other.Keys && pending !! visited
      invariant FirstPassDone(baseline, other, pod, warnings, visited)
      decreases pending
    {
      var key :| key in pending;
      FirstPassStep(baseline, other, pod, warnings, visited, key);
      var found := other[key];
      if key !in baseline {
        warnings := warnings + multiset{NotInReference(key, pod)};
      } else if baseline[key] != found {
        warnings := warnings + multiset{Differs(key, pod, baseline[key], found)};
      }
      pending := pending - {key};
      visited := visited + {key};
    }
    FirstPassComplete(baseline, other, pod, warnings);
    pending := baseline.Keys;
    visited := {};
    while pending != {}
      invariant pending + visited == baseline.Keys && pending !! visited
      invariant SecondPassDone(baseline, other, pod, warnings, visited)
      decreases pending
    {
      var key :| key in pending;
      SecondPassStep(baseline, other, pod, warnings, visited, key);
      if key !in other {
        warnings := warnings + multiset{NotFound(key, pod)};
      }
      pending := pending - {key};
      visited := visited + {key};
    }
    SecondPassComplete(baseline, other, pod, warnings);
  }

  /** Comparing a set against itself reports nothing. */
  lemma IdenticalSetsNoWarnings(fs: FeatureSet, pod: string)
    ensures Warnings(fs, fs, pod) == multiset{}
  {
  }

  /** Sets that agree everywhere except the status of one feature give exactly one mismatch warning. */
  lemma SingleDifference(baseline: FeatureSet, other: FeatureSet, pod: string, k: Feature)
    requires baseline.Keys == other.Keys && k in baseline && baseline[k] != other[k]
    requires forall j :: j in baseline && j != k ==> baseline[j] == other[j]
    ensures Warnings(baseline, other, pod) == multiset{Differs(k, pod, baseline[k], other[k])}
  {
  }

  /** Dropping one baseline feature from the agent's set gives exactly one not-found warning. */
  lemma SingleMissing(baseline: FeatureSet, pod: string, k: Feature)
    requires k in baseline
    ensures Warnings(baseline, baseline - {k}, pod) == multiset{NotFound(k, pod)}
  {
  }

  /**
   * One warning per extra feature, one per differing feature and one per
   * missing feature, and no other.
   */
  lemma WarningCount(baseline: FeatureSet, other: FeatureSet, pod: string)
    ensures |Warnings(baseline, other, pod)|
      == |ExtraKeys(baseline, other)| + |DifferingKeys(baseline, other)| + |MissingKeys(baseline, other)|
  {
    var extra := set k | k in ExtraKeys(baseline, other) :: NotInReference(k, pod);
    var differing := set k | k in DifferingKeys(baseline, other) :: Differs(k, pod, baseline[k], other[k]);
    var missing := set k | k in MissingKeys(baseline, other) :: NotFound(k, pod);
    ExtraCount(baseline, other, pod);
    DifferingCount(baseline, other, pod);
    MissingCount(baseline, other, pod);
    assert |Warnings(baseline, other, pod)| == |multiset(extra)| + |multiset(differing)| + |multiset(missing)|;
  }

  lemma ExtraCount(baseline: FeatureSet, other: FeatureSet, pod: string)
    ensures |set k | k in ExtraKeys(baseline, other) :: NotInReference(k, pod)| == |ExtraKeys(baseline, other)|
  {
    var warn := k => NotInReference(k, pod);
    ImageSize(ExtraKeys(baseline, other), warn);
    assert (set k | k in ExtraKeys(baseline, other) :: NotInReference(k, pod)) == Image(ExtraKeys(baseline, other), warn);
  }

  lemma DifferingCount(baseline: FeatureSet, other: FeatureSet, pod: string)
    ensures |set k | k in DifferingKeys(baseline, other) :: Differs(k, pod, baseline[k], other[k])|
         == |DifferingKeys(baseline, other)|
  {
    var warn := k => Differs(k, pod, StatusOf(baseline, k), StatusOf(other, k));
    ImageSize(DifferingKeys(baseline, other), warn);
    assert (set k | k in DifferingKeys(baseline, other) :: Differs(k, pod, baseline[k], other[k]))
        == Image(DifferingKeys(baseline, other), warn);
  }

  lemma MissingCount(baseline: FeatureSet, other: FeatureSet, pod: string)
    ensures |set k | k in MissingKeys(baseline, other) :: NotFound(k, pod)| == |MissingKeys(baseline, other)|
  {
    var warn := k => NotFound(k, pod);
    ImageSize(MissingKeys(baseline, other), warn);
    assert (set k | k in MissingKeys(baseline, other) :: NotFound(k, pod)) == Image(MissingKeys(baseline, other), warn);
  }

  /** A map that keeps the feature of its argument sends `keys` to a set of the same size. */
  lemma {:induction false} ImageSize(keys: set<Feature>, f: Feature -> Warning)
    requires forall k :: f(k).feature == k
    ensures |Image(keys, f)| == |keys|
    decreases keys
  {
    if keys != {} {
      var x :| x in keys;
      var rest := keys - {x};
      ImageSize(rest, f);
      assert Image(keys, f) == Image(rest, f) + {f(x)};
      assert f(x) !in Image(rest, f);
    }
  }
}
