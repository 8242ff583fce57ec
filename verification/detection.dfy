/**
 * Feature detection over all agents: the first agent's features become the
 * baseline, every later agent is checked against it, and the first extraction
 * error ends the run.
 */
module Detection {
  import opened Wrappers
  import opened FeatureModel
  import opened Extraction
  import opened Validation
  import opened Text

  /** What the cluster yields for one agent pod: its configuration map and its status probe. */
  datatype Pod = Pod(name: string, configMap: Result<ConfigMap, string>, status: StatusProbe)

  /**
   * The features of one agent: the configuration map is read into an empty set
   * first, then the status document; a configuration-map error means the status
   * probe is never consulted.
   */
  function PodFeatures(pod: Pod): (r: Result<FeatureSet, Error>)
    ensures r.Success? <==> pod.configMap.Success? && pod.configMap.value.data.Some? && pod.status.Decoded?
  {
    match ExtractFromConfigMap(pod.configMap, map[])
    case Failure(e) => Failure(e)
    case Success(fs) => ExtractFromStatus(pod.status, fs)
  }

  /**
   * An agent's set holds an entry for every catalog feature, and it is the
   * union of what the two extractors derive on their own: their order does not
   * matter because they write disjoint features. Configuration-map errors are
   * reported first.
   */
  lemma PodFeaturesMerge(pod: Pod)
    ensures ExtractFromConfigMap(pod.configMap, map[]).Failure? ==>
      PodFeatures(pod) == ExtractFromConfigMap(pod.configMap, map[])
    ensures ExtractFromConfigMap(pod.configMap, map[]).Success? && ExtractFromStatus(pod.status, map[]).Failure? ==>
      PodFeatures(pod) == ExtractFromStatus(pod.status, map[])
    ensures PodFeatures(pod).Success? ==>
      && PodFeatures(pod).value.Keys == AllFeatures
      && PodFeatures(pod).value
         == ExtractFromConfigMap(pod.configMap, map[]).value + ExtractFromStatus(pod.status, map[]).value
  {
  }

  /**
   * The state of a detection run: the baseline once the first agent is in,
   * and one warning multiset per agent checked since.
   */
  datatype RunState = RunState(baseline: Option<FeatureSet>, warnings: seq<multiset<Warning>>)

  const Start := RunState(None, [])

  /**
   * A run ended by an extraction error. The baseline assigned and the warnings
   * emitted before the failing agent stay in effect, so they are kept.
   */
  datatype Aborted = Aborted(error: Error, reached: RunState)

  /** Takes in one agent's features: they become the baseline if there is none yet, else they are checked. */
  function Step(d: RunState, pod: string, fs: FeatureSet): RunState {
    match d.baseline
    case None => RunState(Some(fs), d.warnings)
    case Some(baseline) => RunState(d.baseline, d.warnings + [Warnings(baseline, fs, pod)])
  }

  /** Processes `pods` in order from state `d`, stopping at the first extraction error. */
  function Run(d: RunState, pods: seq<Pod>): (r: Result<RunState, Aborted>)
    ensures r.Success? <==> forall i :: 0 <= i < |pods| ==> PodFeatures(pods[i]).Success?
    ensures r.Success? && d.baseline.Some? ==> r.value.baseline == d.baseline
    ensures r.Success? ==> (r.value.baseline.Some? <==> d.baseline.Some? || |pods| > 0)
    decreases |pods|
  {
    if |pods| == 0 then Success(d)
    else
      match PodFeatures(pods[0])
      case Failure(e) => Failure(Aborted(e, d))
      case Success(fs) => Run(Step(d, pods[0].name, fs), pods[1..])
  }

  /** The warnings of checking each agent of `pods`, in order, against `baseline`. */
  function ValidationsOf(baseline: FeatureSet, pods: seq<Pod>): (vs: seq<multiset<Warning>>)
    requires forall i :: 0 <= i < |pods| ==> PodFeatures(pods[i]).Success?
    ensures |vs| == |pods|
    decreases |pods|
  {
    if |pods| == 0 then []
    else [Warnings(baseline, PodFeatures(pods[0]).value, pods[0].name)] + ValidationsOf(baseline, pods[1..])
  }

  /** Entry `i` of the validations is the check of pod `i` against the baseline. */
  lemma {:induction false} ValidationsOfAt(baseline: FeatureSet, pods: seq<Pod>, i: nat)
    requires forall j :: 0 <= j < |pods| ==> PodFeatures(pods[j]).Success?
    requires i < |pods|
    ensures ValidationsOf(baseline, pods)[i] == Warnings(baseline, PodFeatures(pods[i]).value, pods[i].name)
    decreases i
  {
    if i > 0 {
      ValidationsOfAt(baseline, pods[1..], i - 1);
      assert pods[1..][i - 1] == pods[i];
    }
  }

  /**
   * Once a baseline is established it never changes, and each later agent adds
   * exactly its own warnings, in agent order.
   */
  lemma {:induction false} RunAfterBaseline(baseline: FeatureSet, ws: seq<multiset<Warning>>, pods: seq<Pod>)
    requires forall i :: 0 <= i < |pods| ==> PodFeatures(pods[i]).Success?
    ensures Run(RunState(Some(baseline), ws), pods) == Success(RunState(Some(baseline), ws + ValidationsOf(baseline, pods)))
    decreases |pods|
  {
    if |pods| > 0 {
      var ws' := ws + [Warnings(baseline, PodFeatures(pods[0]).value, pods[0].name)];
      RunUnfold(baseline, ws, pods);
      RunAfterBaseline(baseline, ws', pods[1..]);
      ValidationsUnfold(baseline, ws, pods);
    } else {
      assert ws + [] == ws;
    }
  }

  lemma RunUnfold(baseline: FeatureSet, ws: seq<multiset<Warning>>, pods: seq<Pod>)
    requires |pods| > 0 && PodFeatures(pods[0]).Success?
    ensures Run(RunState(Some(baseline), ws), pods)
         == Run(RunState(Some(baseline), ws + [Warnings(baseline, PodFeatures(pods[0]).value, pods[0].name)]), pods[1..])
  {
  }

  lemma ValidationsUnfold(baseline: FeatureSet, ws: seq<multiset<Warning>>, pods: seq<Pod>)
    requires |pods| > 0 && forall i :: 0 <= i < |pods| ==> PodFeatures(pods[i]).Success?
    ensures ws + [Warnings(baseline, PodFeatures(pods[0]).value, pods[0].name)] + ValidationsOf(baseline, pods[1..])
         == ws + ValidationsOf(baseline, pods)
  {
  }

  /**
   * Detection over the agents in the given order. On success the baseline is
   * the first agent's set, that agent is not checked, and every later agent's
   * warnings are those of comparing its set with that baseline.
   */
  function DetectFeatures(pods: seq<Pod>): (r: Result<RunState, Aborted>)
    ensures r.Success? <==> forall i :: 0 <= i < |pods| ==> PodFeatures(pods[i]).Success?
    ensures r.Success? && |pods| == 0 ==> r.value == Start
    ensures r.Success? && |pods| > 0 ==>
      && r.value.baseline == Some(PodFeatures(pods[0]).value)
      && |r.value.warnings| == |pods| - 1
      && forall i :: 1 <= i < |pods| ==>
           r.value.warnings[i - 1] == Warnings(r.value.baseline.value, PodFeatures(pods[i]).value, pods[i].name)
  {
    if |pods| > 0 && forall i :: 0 <= i < |pods| ==> PodFeatures(pods[i]).Success? then
      FirstPodIsBaseline(pods);
      Run(Start, pods)
    else
      Run(Start, pods)
  }

  lemma FirstPodIsBaseline(pods: seq<Pod>)
    requires |pods| > 0 && forall i :: 0 <= i < |pods| ==> PodFeatures(pods[i]).Success?
    ensures var first := PodFeatures(pods[0]).value;
      && Run(Start, pods) == Success(RunState(Some(first), ValidationsOf(first, pods[1..])))
      && forall i :: 1 <= i < |pods| ==>
           ValidationsOf(first, pods[1..])[i - 1] == Warnings(first, PodFeatures(pods[i]).value, pods[i].name)
  {
    var first := PodFeatures(pods[0]).value;
    RunFromStart(pods);
    RunAfterBaseline(first, [], pods[1..]);
    assert [] + ValidationsOf(first, pods[1..]) == ValidationsOf(first, pods[1..]);
    LaterPodsValidated(first, pods);
  }

  lemma RunFromStart(pods: seq<Pod>)
    requires |pods| > 0 && PodFeatures(pods[0]).Success?
    ensures Run(Start, pods) == Run(RunState(Some(PodFeatures(pods[0]).value), []), pods[1..])
  {
  }

  lemma LaterPodsValidated(first: FeatureSet, pods: seq<Pod>)
    requires |pods| > 0 && forall i :: 0 <= i < |pods| ==> PodFeatures(pods[i]).Success?
    ensures forall i :: 1 <= i < |pods| ==>
      ValidationsOf(first, pods[1..])[i - 1] == Warnings(first, PodFeatures(pods[i]).value, pods[i].name)
  {
    forall i | 1 <= i < |pods|
      ensures ValidationsOf(first, pods[1..])[i - 1] == Warnings(first, PodFeatures(pods[i]).value, pods[i].name)
    {
      ValidationsOfAt(first, pods[1..], i - 1);
      assert pods[1..][i - 1] == pods[i];
    }
  }

  /**
   * An extraction error aborts the run with that error: the agents after the
   * failing one are never looked at, whatever they hold, and the state reached
   * is that of detection over the agents before it, so the baseline assigned
   * and the warnings already emitted are kept.
   */
  lemma AbortsAtFirstFailure(done: seq<Pod>, failing: Pod, later: seq<Pod>)
    requires forall i :: 0 <= i < |done| ==> PodFeatures(done[i]).Success?
    requires PodFeatures(failing).Failure?
    ensures DetectFeatures(done + [failing] + later)
         == Failure(Aborted(PodFeatures(failing).error, DetectFeatures(done).value))
  {
    RunAbortsAt(Start, done, failing, later);
  }

  lemma {:induction false} RunAbortsAt(d: RunState, done: seq<Pod>, failing: Pod, later: seq<Pod>)
    requires forall i :: 0 <= i < |done| ==> PodFeatures(done[i]).Success?
    requires PodFeatures(failing).Failure?
    ensures Run(d, done + [failing] + later) == Failure(Aborted(PodFeatures(failing).error, Run(d, done).value))
    decreases |done|
  {
    var pods := done + [failing] + later;
    if |done| == 0 {
      assert pods[0] == failing;
    } else {
      var d' := Step(d, done[0].name, PodFeatures(done[0]).value);
      assert pods[0] == done[0];
      assert pods[1..] == done[1..] + [failing] + later;
      RunAbortsAt(d', done[1..], failing, later);
      assert Run(d, done) == Run(d', done[1..]);
    }
  }

  /** Agents that all report the baseline's set produce no warnings at all. */
  lemma AgreeingAgentsNoWarnings(pods: seq<Pod>)
    requires |pods| > 0
    requires forall i :: 0 <= i < |pods| ==> PodFeatures(pods[i]) == PodFeatures(pods[0])
    requires PodFeatures(pods[0]).Success?
    ensures DetectFeatures(pods).Success?
    ensures forall i :: 0 <= i < |DetectFeatures(pods).value.warnings| ==>
      DetectFeatures(pods).value.warnings[i] == multiset{}
  {
    var r := DetectFeatures(pods);
    forall i | 0 <= i < |r.value.warnings|
      ensures r.value.warnings[i] == multiset{}
    {
      IdenticalSetsNoWarnings(PodFeatures(pods[0]).value, pods[i + 1].name);
    }
  }

  /** Two agents that disagree only on the host firewall. */
  const ExampleA := Pod("a",
    Success(ConfigMap(Some(map[MonitorAggregationKey := "medium"]))),
    Decoded(StatusResponse(Some(CniChainingStatus("portmap")), Some(ProxyStatus), Some(HostFirewallStatus("true")))))
  const ExampleB := Pod("b",
    Success(ConfigMap(Some(map[MonitorAggregationKey := "medium"]))),
    Decoded(StatusResponse(Some(CniChainingStatus("portmap")), Some(ProxyStatus), None)))

  const ExampleConfigFeatures: FeatureSet := map[MonitorAggregation := FeatureStatus(true, "medium")]

  const ExampleBaseline: FeatureSet := ExampleConfigFeatures
    [CNIChaining := FeatureStatus(true, "portmap")]
    [L7Proxy := FeatureStatus(true, "")]
    [HostFirewall := FeatureStatus(true, "")]

  const ExampleSecond: FeatureSet := ExampleConfigFeatures
    [CNIChaining := FeatureStatus(true, "portmap")]
    [L7Proxy := FeatureStatus(true, "")]
    [HostFirewall := FeatureStatus(false, "")]

  /**
   * The first agent becomes the baseline unchecked; the second yields one
   * mismatch warning for the host firewall, expected "Enabled", found "Disabled".
   */
  lemma TwoAgentExample()
    ensures var expected := FeatureStatus(true, "");
      var found := FeatureStatus(false, "");
      && DetectFeatures([ExampleA, ExampleB])
         == Success(RunState(Some(ExampleBaseline), [multiset{Differs(HostFirewall, "b", expected, found)}]))
      && Render(expected) == "Enabled" && Render(found) == "Disabled"
  {
    ExampleFeaturesA();
    ExampleFeaturesB();
    ExampleDifference();
    var pods := [ExampleA, ExampleB];
    assert pods[1..] == [ExampleB];
    RunFromStart(pods);
    RunUnfold(ExampleBaseline, [], [ExampleB]);
    assert [] + [Warnings(ExampleBaseline, ExampleSecond, "b")] == [Warnings(ExampleBaseline, ExampleSecond, "b")];
  }

  lemma ExampleDifference()
    ensures Warnings(ExampleBaseline, ExampleSecond, "b")
         == multiset{Differs(HostFirewall, "b", FeatureStatus(true, ""), FeatureStatus(false, ""))}
  {
    SingleDifference(ExampleBaseline, ExampleSecond, "b", HostFirewall);
  }

  lemma ExampleFeaturesA()
    ensures PodFeatures(ExampleA) == Success(ExampleBaseline)
  {
    ExampleConfigMap(ExampleA);
  }

  lemma ExampleFeaturesB()
    ensures PodFeatures(ExampleB) == Success(ExampleSecond)
  {
    ExampleConfigMap(ExampleB);
  }

  lemma ExampleConfigMap(pod: Pod)
    requires pod.configMap == Success(ConfigMap(Some(map[MonitorAggregationKey := "medium"])))
    ensures ExtractFromConfigMap(pod.configMap, map[]) == Success(ExampleConfigFeatures)
  {
    assert Lower("medium") == "medium";
  }
}
