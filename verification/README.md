# Feature detection for connectivity tests

This project models how the cilium-cli connectivity test finds out which
optional Cilium features each agent runs with, and proves properties of that
model in Dafny. The feature-detection code is `connectivity/check/features.go`.

- **Feature model** (`feature_model.dfy`). The four catalog features are CNI
  chaining, monitor aggregation, L7 proxy and host firewall. A `FeatureStatus`
  is an enabled flag plus a mode string. `Render` gives the text shown in
  diagnostics. A `FeatureSet` maps features to statuses. Test requirements are
  built by `RequireFeatureEnabled` and `RequireFeatureMode` and checked by
  `MatchRequirements`. A feature missing from the set reads as
  `{false, ""}`.
- **Extraction** (`extraction.dfy`, `text.dfy`). Two rules derive statuses
  for one agent:
  - The agent configuration map gives monitor aggregation. Its
    `monitor-aggregation` entry is lower-cased, and a missing entry means
    `"none"`.
  - The agent's decoded status document gives the other three features.
    Each optional sub-object is an `Option` field.
  - `ParseBoolStatus` is the fixed list of words that switch the host
    firewall on.
- **Validation** (`validation.dfy`). A later agent's set is compared with the
  baseline. Every disagreement becomes a `Warning` value: a feature the
  baseline lacks, a feature whose status differs, or a baseline feature the
  agent lacks. Go visits map keys in no fixed order, so the warnings form a
  multiset. `Warnings` defines that multiset declaratively.
  `ValidateFeatureSet` runs the program's two loops over the keys in an
  arbitrary order and is proved to give the same result.
- **Detection** (`detection.dfy`). `DetectFeatures` is a fold over the pods
  in order:
  - Each pod's set is built by the configuration-map rule, then the status
    rule.
  - The first pod's set becomes the baseline and is not validated.
  - Each later set is validated against that baseline.
  - The first extraction error ends the run with that error. The baseline
    already assigned and the warnings already emitted stay in effect, so the
    failure (`Aborted`) carries the state reached before the failing pod.

The Go code mutates a shared `ConnectivityTest` object. Here, each extraction
returns a new map, and the run state (`RunState`) holds the baseline and
the warnings of each validated pod. The validator takes the baseline by value, so
it cannot change it.

The host-firewall mode check is not case-insensitive. The code accepts
exactly `"Enabled"`, `"enabled"`, `"True"` and `"true"`, so `"TRUE"` leaves
the firewall off, and the model does the same.
`ParseBoolStatus` states the rule precisely: the word is "enabled" or "true"
when lower-cased, and only its first letter may be upper case.
`ParseBoolStatusIsCaseSensitive` gives `"TRUE"` as the input that separates
the two readings.

## Model

| member | source | states |
|---|---|---|
| Text.Lower | connectivity/check/features.go:125 | the result has the input's length, each character is the lower-case form of the input's character at that position, and no upper-case letter remains |
| Text.LowerIdempotent | connectivity/check/features.go:125 | lower-casing a normalised mode again changes nothing |
| FeatureModel.NameInjective | connectivity/check/features.go:22-27 | the four catalog features have pairwise distinct names |
| FeatureModel.Render | connectivity/check/features.go:40-51 | the text starts with "Enabled" exactly when the feature is enabled; it is the bare word "Enabled" or "Disabled" exactly when the mode is empty; otherwise it is that same word ("Enabled" when enabled, "Disabled" when not), then ':', then the mode |
| FeatureModel.RenderParseRoundTrip | connectivity/check/features.go:40-51 | the status can be read back from its rendering, so rendering loses no information |
| FeatureModel.ParseRenderRoundTrip | connectivity/check/features.go:40-51 | every text that reads back as a status is exactly that status's rendering |
| FeatureModel.RenderInjective | connectivity/check/features.go:40-51 | two statuses with the same rendering are equal, so a mismatch warning never shows the same expected and found text |
| FeatureModel.RenderExamples | connectivity/check/features.go:40-51 | {true,""} renders as "Enabled", {true,"foo"} as "Enabled:foo", {false,""} as "Disabled" and {false,"x"} as "Disabled:x" |
| FeatureModel.RequireFeatureEnabled | connectivity/check/features.go:84-92 | the requirement concerns the given feature, and a set meets it exactly when it holds that feature enabled |
| FeatureModel.RequireFeatureMode | connectivity/check/features.go:94-102 | the requirement concerns the given feature, and a set meets it exactly when the feature's mode (empty if absent) equals the given mode; for an absent feature that means the mode is empty |
| FeatureModel.MatchRequirements | connectivity/check/features.go:56-70 | true for an empty requirement list; in general true exactly when every requirement of the list is met |
| FeatureModel.MatchRequirementsConcat | connectivity/check/features.go:58-69 | requirements combine by AND: matching a concatenation means matching both parts |
| FeatureModel.MissingFeatureReadsAsAbsent | connectivity/check/features.go:60-65 | a missing feature fails an enabled requirement and meets a mode requirement only for the empty mode |
| FeatureModel.ModeRequirementIgnoresEnabled | connectivity/check/features.go:58-70 | changing a feature's enabled flag never changes whether a mode requirement is met |
| FeatureModel.ModeDoesNotImplyEnabled | connectivity/check/features.go:94-102 | a disabled feature in mode m meets the mode-m requirement and fails the enabled requirement |
| Extraction.ParseBoolStatus | connectivity/check/features.go:104-111 | true exactly when the text lower-cases to "enabled" or "true" and agrees with its lower-cased form after the first character |
| Extraction.ParseBoolStatusIsCaseSensitive | connectivity/check/features.go:104-111 | "TRUE" lower-cases to "true" and is still rejected; "off" is rejected and "True" accepted |
| Extraction.ExtractFromConfigMap | connectivity/check/features.go:113-133 | a fetch error becomes ConfigMapUnavailable and a missing payload ConfigMapEmpty; otherwise only the monitor-aggregation entry is written, its mode is lower case, it is enabled exactly when the mode is not "none", the mode is "none" without the entry and the lower-cased entry with it |
| Extraction.MonitorAggregationEnabledIff | connectivity/check/features.go:122-130 | monitor aggregation is enabled exactly when the entry exists and does not lower-case to "none" |
| Extraction.MonitorAggregationExamples | connectivity/check/features.go:122-130 | a missing entry gives {false,"none"}, "Medium" gives {true,"medium"}, "None" gives {false,"none"} |
| Extraction.ExtractFromStatus | connectivity/check/features.go:135-172 | exec and decode failures become distinct errors; a decoded document writes exactly the chaining, proxy and firewall entries and keeps every other entry; chaining is enabled exactly when its mode is non-empty, is {false,""} without the sub-object and carries the sub-object's mode with it; the proxy is enabled exactly when present, with an empty mode; the firewall has an empty mode and is enabled exactly when present with a mode ParseBoolStatus accepts |
| Extraction.HostFirewallExamples | connectivity/check/features.go:162-169 | no firewall sub-object gives disabled, mode "True" gives enabled, mode "off" gives disabled |
| Validation.WarningsAreDue | connectivity/check/features.go:174-191 | each warning appears once if it is due and not at all otherwise: a not-in-reference warning for each agent feature the baseline lacks, a differs warning carrying the baseline and agent statuses for each shared feature whose statuses differ, and a not-found warning for each baseline feature the agent lacks, all naming the agent |
| Validation.ValidateFeatureSet | connectivity/check/features.go:174-191 | the two loops over the agent's keys and then the baseline's keys, in any order, emit exactly the multiset of due warnings |
| Validation.IdenticalSetsNoWarnings | connectivity/check/features.go:174-191 | comparing a set with itself gives no warnings |
| Validation.SingleDifference | connectivity/check/features.go:175-184 | sets that agree except on one feature's status give exactly one differs warning, with the baseline status as expected and the agent's as found |
| Validation.SingleMissing | connectivity/check/features.go:186-190 | an agent set lacking one baseline feature gives exactly one not-found warning |
| Validation.WarningCount | connectivity/check/features.go:174-191 | the number of warnings is the number of extra features plus differing features plus missing features |
| Detection.PodFeatures | connectivity/check/features.go:196-205 | extraction for a pod succeeds exactly when the configuration map is fetched with a payload and the status document is decoded |
| Detection.PodFeaturesMerge | connectivity/check/features.go:196-205 | configuration-map errors win over status errors; a successful set holds all four features and equals the union of what the two rules derive on their own |
| Detection.Run | connectivity/check/features.go:194-213 | the fold succeeds exactly when every pod's extraction succeeds; an established baseline is never replaced; a baseline exists at the end exactly when one existed before or some pod was processed |
| Detection.ValidationsOfAt | connectivity/check/features.go:207-208 | entry i of the validations of a pod list is the warnings of comparing pod i's set with the baseline under pod i's name |
| Detection.RunAfterBaseline | connectivity/check/features.go:207-212 | once the baseline is set, the fold keeps it and appends exactly the later pods' validations to the warnings so far |
| Detection.DetectFeatures | connectivity/check/features.go:193-216 | success exactly when every pod extracts; with no pods nothing is established; otherwise the baseline is the first pod's set, there is one warning entry per later pod, and entry i is that pod's set validated against the baseline |
| Detection.AbortsAtFirstFailure | connectivity/check/features.go:196-213 | when all pods before a failing pod extract, the run fails with the failing pod's error, whatever pods come after it, and keeps the baseline and warnings that detection over the earlier pods produces |
| Detection.AgreeingAgentsNoWarnings | connectivity/check/features.go:207-209 | when every pod reports the first pod's set, detection succeeds with no warnings |
| Detection.TwoAgentExample | connectivity/check/features.go:193-216 | for two agents that differ only in the host firewall, the first agent's set is the baseline and there is exactly one warning, for the second agent and the host firewall, with expected "Enabled" and found "Disabled" |

## Left out

- Kubernetes access is not modelled: fetching the configuration map, exec into the agent container, and the `context` argument. Their outcomes are inputs of each `Pod` (`configMap`, `status`).
- JSON decoding of the status output into `models.StatusResponse` is a foreign library. `StatusProbe` gives either the decoded record (`Decoded`) or the decode failure (`Undecodable`). Only the three sub-objects the code reads are modelled.
- Error and warning text is not modelled. Errors are `Error` values that keep the underlying cause string. Warnings are `Warning` values that carry the feature, the pod name and, for a mismatch, both statuses. The `%q` quoting of the rendered statuses is left out.
- Go map iteration order is not determined. The warnings of one validation are a multiset, and `ValidateFeatureSet` picks each next key arbitrarily.
- The `defaults` constants (config map name, agent container name) and the namespace used for the lookup are configuration plumbing and are not modelled.
- Text.Lower: lower-cases ASCII letters only, because Go's `strings.ToLower` follows the full Unicode case tables, which are not modelled. The mode values it sees are ASCII words.
- Feature is a closed datatype of the four catalog entries. In Go it is a string type, so a map could hold other keys, but the extractors only write catalog features.
- Detection.DetectFeatures: with no pods, the Go code leaves `ct.features` as it was before the call. The model reports no baseline (`Start`) and does not track an earlier value.
