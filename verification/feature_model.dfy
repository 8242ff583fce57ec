/**
 * The feature model: which optional agent capabilities exist, the status an
 * agent reports for each, and the requirements test scenarios place on them.
 */
module FeatureModel {
  import opened Wrappers

  /** The catalog of optional capabilities a connectivity test can depend on. */
  datatype Feature = CNIChaining | MonitorAggregation | L7Proxy | HostFirewall

  /** The identifier under which each feature is named in diagnostics. */
  function Name(f: Feature): string {
    match f
    case CNIChaining => "cni-chaining"
    case MonitorAggregation => "monitor-aggregation"
    case L7Proxy => "l7-proxy"
    case HostFirewall => "host-firewall"
  }

  /** Distinct catalog entries carry distinct names. */
  lemma NameInjective(f: Feature, g: Feature)
    ensures Name(f) == Name(g) ==> f == g
  {
  }

  const AllFeatures: set<Feature> := {CNIChaining, MonitorAggregation, L7Proxy, HostFirewall}

  /** Whether a feature is on, plus an optional descriptor of how it runs (possibly empty). */
  datatype FeatureStatus = FeatureStatus(enabled: bool, mode: string)

  /** The status read for a feature that has no entry: the zero value of the status record. */
  const Absent := FeatureStatus(false, "")

  const EnabledWord := "Enabled"
  const DisabledWord := "Disabled"

  function StateWord(enabled: bool): string {
    if enabled then EnabledWord else DisabledWord
  }

  /** The text shown for a status in diagnostics. */
  function Render(s: FeatureStatus): (r: string)
    ensures |r| >= |EnabledWord| && (s.enabled <==> r[..|EnabledWord|] == EnabledWord)
    ensures s.mode == "" <==> r == EnabledWord || r == DisabledWord
    ensures s.mode != "" ==> |r| > |s.mode| && r[|r| - |s.mode| - 1] == ':' && r[|r| - |s.mode|..] == s.mode
    ensures s.mode != "" ==> r[..|r| - |s.mode| - 1] == StateWord(s.enabled)
  {
    var w := StateWord(s.enabled);
    assert DisabledWord[..|EnabledWord|][0] != EnabledWord[0];
    if |s.mode| == 0 then w
    else
      assert (w + ":" + s.mode)[..|EnabledWord|] == w[..|EnabledWord|];
      w + ":" + s.mode
  }

  /** Reads back the text produced by Render; None for text Render never produces. */
  function ParseStatus(t: string): Option<FeatureStatus> {
    if |t| >= |EnabledWord| && t[..|EnabledWord|] == EnabledWord then
      ParseModeSuffix(true, t[|EnabledWord|..])
    else if |t| >= |DisabledWord| && t[..|DisabledWord|] == DisabledWord then
      ParseModeSuffix(false, t[|DisabledWord|..])
    else
      None
  }

  function ParseModeSuffix(enabled: bool, rest: string): Option<FeatureStatus> {
    if rest == "" then Some(FeatureStatus(enabled, ""))
    else if rest[0] == ':' && |rest| > 1 then Some(FeatureStatus(enabled, rest[1..]))
    else None
  }

  /** Rendering loses nothing: the status can be read back from its text. */
  lemma RenderParseRoundTrip(s: FeatureStatus)
    ensures ParseStatus(Render(s)) == Some(s)
  {
  }

  /** Every text that reads back as a status is exactly that status's rendering. */
  lemma ParseRenderRoundTrip(t: string, s: FeatureStatus)
    requires ParseStatus(t) == Some(s)
    ensures Render(s) == t
  {
  }

  /** Distinct statuses render distinctly, so a mismatch warning never shows two equal texts. */
  lemma RenderInjective(a: FeatureStatus, b: FeatureStatus)
    ensures Render(a) == Render(b) ==> a == b
  {
  }

  /** The four rendering shapes: enabled or disabled, with or without a mode. */
  lemma RenderExamples()
    ensures Render(FeatureStatus(true, "")) == "Enabled"
    ensures Render(FeatureStatus(true, "foo")) == "Enabled:foo"
    ensures Render(FeatureStatus(false, "")) == "Disabled"
    ensures Render(FeatureStatus(false, "x")) == "Disabled:x"
  {
  }

  /** The statuses one agent reports, keyed by feature. */
  type FeatureSet = map<Feature, FeatureStatus>

  /** The status a requirement reads for `f`: the entry if there is one, otherwise Absent. */
  function StatusOf(fs: FeatureSet, f: Feature): FeatureStatus {
    if f in fs then fs[f] else Absent
  }

  /**
   * A precondition a test scenario places on one feature: optionally a value the
   * enabled flag must have, optionally a mode the feature must run in.
   */
  datatype FeatureRequirement = FeatureRequirement(
    feature: Feature,
    requiresEnabled: bool,
    enabled: bool,
    requiresMode: bool,
    mode: string)

  /** `fs` meets `req`; an inactive check is met vacuously. */
  predicate Satisfies(fs: FeatureSet, req: FeatureRequirement) {
    var status := StatusOf(fs, req.feature);
    && (!req.requiresEnabled || req.enabled == status.enabled)
    && (!req.requiresMode || req.mode == status.mode)
  }

  /** The requirement that `feature` be enabled, whatever its mode. */
  function RequireFeatureEnabled(feature: Feature): (r: FeatureRequirement)
    ensures r.feature == feature
    ensures forall fs: FeatureSet :: Satisfies(fs, r) <==> feature in fs && fs[feature].enabled
  {
    FeatureRequirement(feature, true, true, false, "")
  }

  /**
   * The requirement that `feature` run in `mode`. It does not also ask for the
   * feature to be enabled: a disabled feature in that mode meets it.
   */
  function RequireFeatureMode(feature: Feature, mode: string): (r: FeatureRequirement)
    ensures r.feature == feature
    ensures forall fs: FeatureSet :: Satisfies(fs, r) <==> StatusOf(fs, feature).mode == mode
    ensures forall fs: FeatureSet :: feature !in fs ==> (Satisfies(fs, r) <==> mode == "")
  {
    FeatureRequirement(feature, false, false, true, mode)
  }

  /**
   * Whether `fs` meets every requirement of `reqs`, checked in order and giving
   * up at the first that fails.
   */
  function MatchRequirements(fs: FeatureSet, reqs: seq<FeatureRequirement>): (r: bool)
    ensures |reqs| == 0 ==> r
    ensures r <==> forall i :: 0 <= i < |reqs| ==> Satisfies(fs, reqs[i])
  {
    if |reqs| == 0 then true
    else if !Satisfies(fs, reqs[0]) then false
    else MatchRequirements(fs, reqs[1..])
  }

  /** Requirements combine by conjunction: matching a concatenation is matching both parts. */
  lemma MatchRequirementsConcat(fs: FeatureSet, a: seq<FeatureRequirement>, b: seq<FeatureRequirement>)
    ensures MatchRequirements(fs, a + b) <==> MatchRequirements(fs, a) && MatchRequirements(fs, b)
  {
    if MatchRequirements(fs, a) && MatchRequirements(fs, b) {
      forall i | 0 <= i < |a + b|
        ensures Satisfies(fs, (a + b)[i])
      {
        if i < |a| {
          assert (a + b)[i] == a[i];
        } else {
          assert (a + b)[i] == b[i - |a|];
        }
      }
    } else if !MatchRequirements(fs, a) {
      var j :| 0 <= j < |a| && !Satisfies(fs, a[j]);
      assert (a + b)[j] == a[j];
    } else {
      var j :| 0 <= j < |b| && !Satisfies(fs, b[j]);
      assert (a + b)[|a| + j] == b[j];
    }
  }

  /**
   * A feature missing from the set fails an enabled requirement, and meets a mode
   * requirement only for the empty mode.
   */
  lemma MissingFeatureReadsAsAbsent(fs: FeatureSet, f: Feature, m: string)
    requires f !in fs
    ensures !MatchRequirements(fs, [RequireFeatureEnabled(f)])
    ensures MatchRequirements(fs, [RequireFeatureMode(f, m)]) <==> m == ""
  {
  }

  /** A mode requirement looks only at the mode: flipping the enabled flag never changes the verdict. */
  lemma ModeRequirementIgnoresEnabled(fs: FeatureSet, f: Feature, m: string, e: bool)
    ensures var flipped := fs[f := FeatureStatus(e, StatusOf(fs, f).mode)];
      MatchRequirements(fs, [RequireFeatureMode(f, m)]) == MatchRequirements(flipped, [RequireFeatureMode(f, m)])
  {
  }

  /** A disabled feature meets a mode requirement for its mode while failing the enabled requirement. */
  lemma ModeDoesNotImplyEnabled(f: Feature, m: string)
    ensures var fs := map[f := FeatureStatus(false, m)];
      MatchRequirements(fs, [RequireFeatureMode(f, m)]) && !MatchRequirements(fs, [RequireFeatureEnabled(f)])
  {
  }
}
