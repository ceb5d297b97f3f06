/** The extension's providerConfig and how the actuator turns it into the
    deployment configuration. */
module ProviderConfigs {
  import opened Kube

  const LOG_LEVEL_INFO := "info"
  const VALID_LOG_LEVELS := {"debug", LOG_LEVEL_INFO, "warn", "error"}
  const CHANNEL_STANDARD := "standard"
  const CHANNEL_EXPERIMENTAL := "experimental"
  const VALID_CHANNELS := {CHANNEL_STANDARD, CHANNEL_EXPERIMENTAL}

  /** Settings of the control plane or of the data plane. */
  datatype Plane = Plane(replicas: Option<int>, logLevel: string)

  /** A decoded EnvoyGatewayConfig; the proxy defaults are passed through. */
  datatype ProviderConfig = ProviderConfig(
    controlPlane: Option<Plane>,
    dataPlane: Option<Plane>,
    channel: string,
    manageCRDs: Option<bool>,
    envoyProxyDefaults: Option<string>,
    manageDataPlaneNetworkPolicies: Option<bool>)

  /** The strict decoder, shared by the webhook and the actuator. */
  type Decoder = string -> Option<ProviderConfig>

  /** Configuration of the deployer. */
  datatype Config = Config(
    controlPlaneReplicas: Option<int>,
    controlPlaneLogLevel: string,
    dataPlaneReplicas: Option<int>,
    dataPlaneLogLevel: string,
    experimentalFeatures: bool,
    manageCRDs: bool,
    envoyProxyDefaults: Option<string>,
    shootKubernetesVersion: string,
    manageDataPlaneNetworkPolicies: bool)

  function DefaultConfig(): Config {
    Config(None, LOG_LEVEL_INFO, None, LOG_LEVEL_INFO, false, true, None, "", false)
  }

  predicate LogLevelOk(p: Option<Plane>) {
    p.Some? ==> p.value.logLevel == "" || p.value.logLevel in VALID_LOG_LEVELS
  }

  predicate ChannelOk(channel: string) {
    channel == "" || channel in VALID_CHANNELS
  }

  /** The checks both components make on a decoded configuration. */
  predicate Acceptable(cfg: ProviderConfig) {
    ChannelOk(cfg.channel) && LogLevelOk(cfg.controlPlane) && LogLevelOk(cfg.dataPlane)
  }

  /** The actuator accepts the raw configuration; absence is fine. */
  predicate ActuatorAccepts(decode: Decoder, raw: Option<string>) {
    raw.Some? ==> decode(raw.value).Some? && Acceptable(decode(raw.value).value)
  }

  function Override<T>(setting: Option<T>, default: T): T {
    if setting.Some? then setting.value else default
  }

  function LogLevelOf(p: Option<Plane>): string {
    if p.Some? && p.value.logLevel != "" then p.value.logLevel else LOG_LEVEL_INFO
  }

  function ReplicasOf(p: Option<Plane>): Option<int> {
    if p.Some? then p.value.replicas else None
  }

  /** The configuration the actuator deploys. */
  function Effective(decode: Decoder, raw: Option<string>, version: string): Config
    requires ActuatorAccepts(decode, raw)
  {
    if raw.None? then DefaultConfig().(shootKubernetesVersion := version) else
    var cfg := decode(raw.value).value;
    Config(ReplicasOf(cfg.controlPlane), LogLevelOf(cfg.controlPlane),
           ReplicasOf(cfg.dataPlane), LogLevelOf(cfg.dataPlane),
           cfg.channel == CHANNEL_EXPERIMENTAL, Override(cfg.manageCRDs, true), cfg.envoyProxyDefaults,
           version, Override(cfg.manageDataPlaneNetworkPolicies, false))
  }

  method ApplyLogLevel(level: string, target: string) returns (ok: bool, result: string)
    ensures ok <==> level == "" || level in VALID_LOG_LEVELS
    ensures result == if ok && level != "" then level else target
  {
    ok, result := true, target;
    if level == "" { return; }
    if level !in VALID_LOG_LEVELS {
      ok := false;
      return;
    }
    result := level;
  }

  /** Log level and replicas of one plane, over the defaults. */
  method ReadPlane(plane: Option<Plane>) returns (ok: bool, level: string, replicas: Option<int>)
    ensures ok <==> LogLevelOk(plane)
    ensures ok ==> level == LogLevelOf(plane) && replicas == ReplicasOf(plane)
  {
    ok, level, replicas := true, LOG_LEVEL_INFO, None;
    if plane.None? { return; }
    ok, level := ApplyLogLevel(plane.value.logLevel, level);
    if ok && plane.value.replicas.Some? {
      replicas := plane.value.replicas;
    }
  }

  /** Fills the configuration field by field, stopping at the first bad value. */
  method ReadConfig(decode: Decoder, raw: Option<string>, version: string) returns (ok: bool, config: Config)
    ensures ok <==> ActuatorAccepts(decode, raw)
    ensures ok ==> config == Effective(decode, raw, version)
  {
    ok := true;
    config := DefaultConfig().(shootKubernetesVersion := version);
    if raw.None? { return; }
    var decoded := decode(raw.value);
    if decoded.None? { ok := false; return; }
    var cfg := decoded.value;
    if cfg.channel != "" {
      if cfg.channel !in VALID_CHANNELS { ok := false; return; }
      config := config.(experimentalFeatures := cfg.channel == CHANNEL_EXPERIMENTAL);
    }
    if cfg.manageCRDs.Some? {
      config := config.(manageCRDs := cfg.manageCRDs.value);
    }
    var level, replicas;
    ok, level, replicas := ReadPlane(cfg.controlPlane);
    if !ok { return; }
    config := config.(controlPlaneLogLevel := level, controlPlaneReplicas := replicas);
    ok, level, replicas := ReadPlane(cfg.dataPlane);
    if !ok { return; }
    config := config.(dataPlaneLogLevel := level, dataPlaneReplicas := replicas);
    config := config.(envoyProxyDefaults := cfg.envoyProxyDefaults);
    if cfg.manageDataPlaneNetworkPolicies.Some? {
      config := config.(manageDataPlaneNetworkPolicies := cfg.manageDataPlaneNetworkPolicies.value);
    }
  }

  // ---- What a configuration means ----

  /** The defaults: one channel, CRDs managed, no network policies, level info, no
      replicas set. */
  lemma DefaultsMeaning(decode: Decoder, version: string)
    ensures var cfg := Effective(decode, None, version);
            && cfg.controlPlaneLogLevel == "info" && cfg.dataPlaneLogLevel == "info"
            && cfg.controlPlaneReplicas.None? && cfg.dataPlaneReplicas.None?
            && !cfg.experimentalFeatures && cfg.manageCRDs && !cfg.manageDataPlaneNetworkPolicies
            && cfg.envoyProxyDefaults.None? && cfg.shootKubernetesVersion == version
  {
  }

  /** What is set arrives where it belongs: the settings of either plane at that plane,
      the channel, the flags, the proxy defaults and the version. */
  lemma SettingsArrive(decode: Decoder, raw: string, version: string)
    requires ActuatorAccepts(decode, Some(raw))
    ensures var from, cfg := decode(raw).value, Effective(decode, Some(raw), version);
            && (from.controlPlane.Some? ==>
                  && cfg.controlPlaneReplicas == from.controlPlane.value.replicas
                  && (from.controlPlane.value.logLevel != "" ==> cfg.controlPlaneLogLevel == from.controlPlane.value.logLevel))
            && (from.dataPlane.Some? ==>
                  && cfg.dataPlaneReplicas == from.dataPlane.value.replicas
                  && (from.dataPlane.value.logLevel != "" ==> cfg.dataPlaneLogLevel == from.dataPlane.value.logLevel))
            && (cfg.experimentalFeatures <==> from.channel == "experimental")
            && (cfg.manageCRDs <==> from.manageCRDs != Some(false))
            && (cfg.manageDataPlaneNetworkPolicies <==> from.manageDataPlaneNetworkPolicies == Some(true))
            && cfg.envoyProxyDefaults == from.envoyProxyDefaults && cfg.shootKubernetesVersion == version
  {
  }

  /** The planes are independent: two configurations that differ in one plane give
      configurations that differ in that plane's two fields at most. */
  lemma PlanesAreApart(decode: Decoder, a: string, b: string, version: string)
    requires ActuatorAccepts(decode, Some(a)) && ActuatorAccepts(decode, Some(b))
    ensures var x, y := Effective(decode, Some(a), version), Effective(decode, Some(b), version);
            && (decode(b).value == decode(a).value.(dataPlane := decode(b).value.dataPlane) ==>
                  y == x.(dataPlaneReplicas := y.dataPlaneReplicas, dataPlaneLogLevel := y.dataPlaneLogLevel))
            && (decode(b).value == decode(a).value.(controlPlane := decode(b).value.controlPlane) ==>
                  y == x.(controlPlaneReplicas := y.controlPlaneReplicas, controlPlaneLogLevel := y.controlPlaneLogLevel))
  {
  }

  /** Acceptable channels and levels, written out. */
  lemma AcceptableMeaning(cfg: ProviderConfig)
    ensures Acceptable(cfg) <==>
            && cfg.channel in {"", "standard", "experimental"}
            && (cfg.controlPlane.Some? ==> cfg.controlPlane.value.logLevel in {"", "debug", "info", "warn", "error"})
            && (cfg.dataPlane.Some? ==> cfg.dataPlane.value.logLevel in {"", "debug", "info", "warn", "error"})
  {
  }
}
