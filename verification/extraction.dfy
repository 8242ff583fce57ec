/**
 * The two per-agent extraction rules: one reads the agent configuration map,
 * the other reads the status document the agent reports about itself.
 */
module Extraction {
  import opened Wrappers
  import opened Text
  import opened FeatureModel

  /** A configuration map as fetched from the cluster; `data` is None when it has no payload. */
  datatype ConfigMap = ConfigMap(data: Option<map<string, string>>)

  /** The chaining sub-object of the status document. */
  datatype CniChainingStatus = CniChainingStatus(mode: string)

  /** The proxy sub-object of the status document; only its presence is used. */
  datatype ProxyStatus = ProxyStatus

  /** The host-firewall sub-object of the status document. */
  datatype HostFirewallStatus = HostFirewallStatus(mode: string)

  /** The decoded status document, with each optional sub-object present or absent. */
  datatype StatusResponse = StatusResponse(
    cniChaining: Option<CniChainingStatus>,
    proxy: Option<ProxyStatus>,
    hostFirewall: Option<HostFirewallStatus>)

  /** What running the status command in an agent's container and decoding its output gave. */
  datatype StatusProbe =
    | ExecFailed(cause: string)
    | Undecodable(cause: string)
    | Decoded(response: StatusResponse)

  /** Why extraction for one agent failed; each one aborts feature detection. */
  datatype Error =
    | ConfigMapUnavailable(cause: string)
    | ConfigMapEmpty
    | StatusFetchFailed(cause: string)
    | StatusUnmarshalFailed(cause: string)

  const MonitorAggregationKey := "monitor-aggregation"
  const AggregationNone := "none"

  /** `after` is `before` with entries written for exactly `keys`; every other entry is kept. */
  predicate WritesOnly(before: FeatureSet, after: FeatureSet, keys: set<Feature>) {
    && after.Keys == before.Keys + keys
    && forall k :: k in before && k !in keys ==> after[k] == before[k]
  }

  /**
   * Whether a host-firewall mode string counts as switched on. The accepted words
   * are "enabled" and "true" written in lower case or with a capital first letter
   * only: the match ignores the case of the first letter and no other.
   */
  function ParseBoolStatus(s: string): (r: bool)
    ensures r <==> && (Lower(s) == "enabled" || Lower(s) == "true")
                   && s[1..] == Lower(s)[1..]
  {
    s == "Enabled" || s == "enabled" || s == "True" || s == "true"
  }

  /** Case-insensitive equality is not enough: the upper-case word is rejected. */
  lemma ParseBoolStatusIsCaseSensitive()
    ensures Lower("TRUE") == "true" && !ParseBoolStatus("TRUE")
    ensures !ParseBoolStatus("off") && ParseBoolStatus("True")
  {
  }

  /**
   * Derives the monitor-aggregation status from the configuration map and
   * writes it into `result`.
   */
  function ExtractFromConfigMap(cm: Result<ConfigMap, string>, result: FeatureSet): (r: Result<FeatureSet, Error>)
    ensures cm.Failure? ==> r == Failure(ConfigMapUnavailable(cm.error))
    ensures cm.Success? && cm.value.data.None? ==> r == Failure(ConfigMapEmpty)
    ensures cm.Success? && cm.value.data.Some? ==> r.Success?
    ensures r.Success? ==> WritesOnly(result, r.value, {MonitorAggregation})
    ensures r.Success? ==>
      var status := r.value[MonitorAggregation];
      var data := cm.value.data.value;
      && IsLowerCase(status.mode)
      && (status.enabled <==> status.mode != AggregationNone)
      && (MonitorAggregationKey !in data ==> status.mode == AggregationNone)
      && (MonitorAggregationKey in data ==> status.mode == Lower(data[MonitorAggregationKey]))
  {
    match cm
    case Failure(e) => Failure(ConfigMapUnavailable(e))
    case Success(m) =>
      match m.data
      case None => Failure(ConfigMapEmpty)
      case Some(data) =>
        var mode := if MonitorAggregationKey in data then Lower(data[MonitorAggregationKey]) else AggregationNone;
        Success(result[MonitorAggregation := FeatureStatus(mode != AggregationNone, mode)])
  }

  /** Monitor aggregation is on exactly when the entry is present and does not lower-case to "none". */
  lemma MonitorAggregationEnabledIff(data: map<string, string>, result: FeatureSet)
    ensures var r := ExtractFromConfigMap(Success(ConfigMap(Some(data))), result);
      r.Success? && (r.value[MonitorAggregation].enabled <==>
        MonitorAggregationKey in data && Lower(data[MonitorAggregationKey]) != AggregationNone)
  {
  }

  /** A missing entry, "Medium" and "None" give the documented statuses. */
  lemma MonitorAggregationExamples()
    ensures ExtractFromConfigMap(Success(ConfigMap(Some(map[]))), map[]).value[MonitorAggregation]
      == FeatureStatus(false, "none")
    ensures ExtractFromConfigMap(Success(ConfigMap(Some(map[MonitorAggregationKey := "Medium"]))), map[]).value[MonitorAggregation]
      == FeatureStatus(true, "medium")
    ensures ExtractFromConfigMap(Success(ConfigMap(Some(map[MonitorAggregationKey := "None"]))), map[]).value[MonitorAggregation]
      == FeatureStatus(false, "none")
  {
    assert Lower("Medium") == "medium";
    assert Lower("None") == "none";
  }

  /** The features the status document describes. */
  const StatusFeatures: set<Feature> := {CNIChaining, L7Proxy, HostFirewall}

  /**
   * Derives the chaining, proxy and host-firewall statuses from the agent's
   * status document and writes them into `result`.
   */
  function ExtractFromStatus(probe: StatusProbe, result: FeatureSet): (r: Result<FeatureSet, Error>)
    ensures probe.ExecFailed? ==> r == Failure(StatusFetchFailed(probe.cause))
    ensures probe.Undecodable? ==> r == Failure(StatusUnmarshalFailed(probe.cause))
    ensures probe.Decoded? <==> r.Success?
    ensures r.Success? ==> WritesOnly(result, r.value, StatusFeatures)
    ensures r.Success? ==>
      var st := probe.response;
      var chaining := r.value[CNIChaining];
      && (chaining.enabled <==> chaining.mode != "")
      && (st.cniChaining.None? ==> chaining == Absent)
      && (st.cniChaining.Some? ==> chaining.mode == st.cniChaining.value.mode)
    ensures r.Success? ==> r.value[L7Proxy] == FeatureStatus(probe.response.proxy.Some?, "")
    ensures r.Success? ==>
      var st := probe.response;
      var firewall := r.value[HostFirewall];
      && firewall.mode == ""
      && (firewall.enabled <==> st.hostFirewall.Some? && ParseBoolStatus(st.hostFirewall.value.mode))
  {
    match probe
    case ExecFailed(e) => Failure(StatusFetchFailed(e))
    case Undecodable(e) => Failure(StatusUnmarshalFailed(e))
    case Decoded(st) =>
      var chainingMode := if st.cniChaining.Some? then st.cniChaining.value.mode else "";
      var firewallOn := st.hostFirewall.Some? && ParseBoolStatus(st.hostFirewall.value.mode);
      Success(result[CNIChaining := FeatureStatus(chainingMode != "", chainingMode)]
                    [L7Proxy := FeatureStatus(st.proxy.Some?, "")]
                    [HostFirewall := FeatureStatus(firewallOn, "")])
  }

  /** The host firewall is off without its sub-object, on for "True", and off for "off". */
  lemma HostFirewallExamples()
    ensures ExtractFromStatus(Decoded(StatusResponse(None, None, None)), map[]).value[HostFirewall].enabled == false
    ensures ExtractFromStatus(Decoded(StatusResponse(None, None, Some(HostFirewallStatus("True")))), map[]).value[HostFirewall].enabled
    ensures !ExtractFromStatus(Decoded(StatusResponse(None, None, Some(HostFirewallStatus("off")))), map[]).value[HostFirewall].enabled
  {
  }
}
