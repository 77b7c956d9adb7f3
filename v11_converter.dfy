/**
 * The converter from version 11 of the configuration model to version 12
 * (V11Converter). It copies the services and their endpoints in order, names each
 * service after its host, port and secure flag, turns a missing security section into
 * an empty one, copies the Diffusion host, port, credentials and secure flag, fills
 * the Diffusion session settings added in version 12 with the client library's
 * defaults, and copies the truststore. The result is always active. A model of any
 * other version is refused.
 */
module V11Converter {
  import opened Wrappers
  import opened Config

  datatype V11BasicAuthenticationConfig = V11BasicAuthenticationConfig(principal: string, credential: string)

  datatype V11SecurityConfig = V11SecurityConfig(basic: Option<V11BasicAuthenticationConfig>)

  datatype V11EndpointConfig = V11EndpointConfig(name: string, url: string, topic: string, produces: string)

  datatype V11ServiceConfig = V11ServiceConfig(
    host: string,
    port: int,
    secure: bool,
    endpoints: seq<V11EndpointConfig>,
    pollPeriod: int,
    topicRoot: string,
    security: Option<V11SecurityConfig>)

  datatype V11DiffusionConfig = V11DiffusionConfig(
    host: string,
    port: int,
    principal: Option<string>,
    password: Option<string>,
    secure: bool)

  datatype V11Model = V11Model(
    services: Option<seq<V11ServiceConfig>>,
    diffusion: Option<V11DiffusionConfig>,
    truststore: Option<string>)

  /** What a converter is handed: a version 11 model, or a model of some other version. */
  datatype AnyModel = Version11(model: V11Model) | OtherVersion(version: nat)

  /** Version 12 of the model: the services, Diffusion and truststore, and the active flag. */
  datatype V12Model = V12Model(
    active: bool,
    services: seq<ServiceConfig>,
    diffusion: DiffusionConfig,
    truststore: Option<string>)

  /** The client library's default session settings (its `SessionAttributes` constants). */
  datatype SessionDefaults = SessionDefaults(
    connectionTimeout: int,
    reconnectionTimeout: int,
    maximumMessageSize: int,
    inputBufferSize: int,
    outputBufferSize: int,
    recoveryBufferSize: int)

  datatype ConversionError =
    | IllegalArgument      // the model is not of version 11
    | NullPointer          // the model has no service list or no Diffusion section

  /** The name given to a converted service: host, port and secure flag joined by colons. */
  function ServiceName(host: string, port: int, secure: bool): string {
    host + ":" + IntToString(port) + ":" + BoolToString(secure)
  }

  function ConvertEndpoint(e: V11EndpointConfig): (r: EndpointConfig)
    ensures r.name == e.name && r.url == e.url && r.topicPath == e.topic && r.produces == e.produces
  {
    EndpointConfig(e.name, e.url, e.topic, e.produces)
  }

  /** A missing security section becomes an empty one; basic authentication is copied when present. */
  function ConvertSecurity(security: Option<V11SecurityConfig>): (r: SecurityConfig)
    ensures r.basic.Some? <==> security.Some? && security.value.basic.Some?
    ensures r.basic.Some? ==>
      r.basic.value.principal == security.value.basic.value.principal
      && r.basic.value.credential == security.value.basic.value.credential
  {
    match security
    case None => SecurityConfig(None)
    case Some(s) =>
      match s.basic
      case None => SecurityConfig(None)
      case Some(b) => SecurityConfig(Some(BasicAuthenticationConfig(b.principal, b.credential)))
  }

  function ConvertService(s: V11ServiceConfig): (r: ServiceConfig)
    ensures r.name == ServiceName(s.host, s.port, s.secure)
    ensures r.host == s.host && r.port == s.port && r.secure == s.secure
    ensures r.pollPeriod == s.pollPeriod && r.topicPathRoot == s.topicRoot
    ensures |r.endpoints| == |s.endpoints|
    ensures forall i :: 0 <= i < |r.endpoints| ==> r.endpoints[i] == ConvertEndpoint(s.endpoints[i])
    ensures r.security == Some(ConvertSecurity(s.security))
  {
    ServiceConfig(
      ServiceName(s.host, s.port, s.secure),
      s.host,
      s.port,
      s.secure,
      seq(|s.endpoints|, i requires 0 <= i < |s.endpoints| => ConvertEndpoint(s.endpoints[i])),
      s.pollPeriod,
      s.topicRoot,
      Some(ConvertSecurity(s.security)))
  }

  function ConvertDiffusion(d: V11DiffusionConfig, defaults: SessionDefaults): (r: DiffusionConfig)
    ensures r.host == d.host && r.port == d.port && r.secure == d.secure
    ensures r.principal == d.principal && r.password == d.password
    ensures r.connectionTimeout == defaults.connectionTimeout
    ensures r.reconnectionTimeout == defaults.reconnectionTimeout
    ensures r.maximumMessageSize == defaults.maximumMessageSize
    ensures r.inputBufferSize == defaults.inputBufferSize
    ensures r.outputBufferSize == defaults.outputBufferSize
    ensures r.recoveryBufferSize == defaults.recoveryBufferSize
  {
    DiffusionConfig(
      d.host, d.port, d.secure, d.principal, d.password,
      defaults.connectionTimeout, defaults.reconnectionTimeout, defaults.maximumMessageSize,
      defaults.inputBufferSize, defaults.outputBufferSize, defaults.recoveryBufferSize)
  }

  /** `convert`: refuses other versions; reading a missing service list or Diffusion section throws. */
  function Convert(m: AnyModel, defaults: SessionDefaults): (r: Result<V12Model, ConversionError>)
    ensures m.OtherVersion? ==> r == Err(IllegalArgument)
    ensures r.Ok? <==> m.Version11? && m.model.services.Some? && m.model.diffusion.Some?
    ensures r.Ok? ==>
      var services := m.model.services.value;
      && r.value.active
      && |r.value.services| == |services|
      && (forall i :: 0 <= i < |services| ==> r.value.services[i] == ConvertService(services[i]))
      && r.value.diffusion == ConvertDiffusion(m.model.diffusion.value, defaults)
      && r.value.truststore == m.model.truststore
  {
    match m
    case OtherVersion(_) => Err(IllegalArgument)
    case Version11(model) =>
      if model.services.None? || model.diffusion.None? then Err(NullPointer)
      else
        var services := model.services.value;
        Ok(V12Model(
          true,
          seq(|services|, i requires 0 <= i < |services| => ConvertService(services[i])),
          ConvertDiffusion(model.diffusion.value, defaults),
          model.truststore))
  }

  /** The last colon of `a + ":" + b` is the one after `a`, when `b` holds none. */
  lemma LastColon(a: string, b: string)
    requires ':' !in b
    ensures (a + ":" + b)[|a|] == ':'
    ensures forall k :: |a| < k < |a + ":" + b| ==> (a + ":" + b)[k] != ':'
  {
    forall k | |a| < k < |a + ":" + b|
      ensures (a + ":" + b)[k] != ':'
    {
      assert (a + ":" + b)[k] == b[k - |a| - 1];
    }
  }

  /** Splitting at the last colon: a colon-free tail is recovered from the joined text. */
  lemma SplitAtLastColon(a1: string, b1: string, a2: string, b2: string)
    requires ':' !in b1 && ':' !in b2
    requires a1 + ":" + b1 == a2 + ":" + b2
    ensures a1 == a2 && b1 == b2
  {
    var s := a1 + ":" + b1;
    LastColon(a1, b1);
    LastColon(a2, b2);
    assert |a1| == |a2|;
    assert a1 == s[..|a1|] == a2;
    assert b1 == s[|a1| + 1..] == b2;
  }

  /**
   * A service name identifies the service's host, port and secure flag: neither the
   * port nor the flag holds a colon, so the name splits back at its last two colons.
   */
  lemma ServiceNameInjective(h1: string, p1: int, s1: bool, h2: string, p2: int, s2: bool)
    requires ServiceName(h1, p1, s1) == ServiceName(h2, p2, s2)
    ensures h1 == h2 && p1 == p2 && s1 == s2
  {
    var i1, i2 := IntToString(p1), IntToString(p2);
    var b1, b2 := BoolToString(s1), BoolToString(s2);
    assert ':' !in b1 && ':' !in b2;
    SplitAtLastColon(h1 + ":" + i1, b1, h2 + ":" + i2, b2);
    NumberHasNoColon(p1);
    NumberHasNoColon(p2);
    SplitAtLastColon(h1, i1, h2, i2);
    IntToStringInjective(p1, p2);
  }

  /** `String.valueOf(int)` holds no colon. */
  lemma NumberHasNoColon(n: int)
    ensures ':' !in IntToString(n)
  {
    var t := IntToString(n);
    forall k | 0 <= k < |t|
      ensures t[k] != ':'
    {
    }
  }

  /**
   * The converted services carry distinct names whenever the version 11 services
   * differ in host, port or secure flag.
   */
  lemma ConvertedNamesDistinct(m: V11Model, defaults: SessionDefaults)
    requires m.services.Some? && m.diffusion.Some?
    requires forall i, j :: 0 <= i < j < |m.services.value| ==>
      var a, b := m.services.value[i], m.services.value[j];
      (a.host, a.port, a.secure) != (b.host, b.port, b.secure)
    ensures var r := Convert(Version11(m), defaults).value;
      forall i, j :: 0 <= i < j < |r.services| ==> r.services[i].name != r.services[j].name
  {
    var services := m.services.value;
    var r := Convert(Version11(m), defaults).value;
    forall i, j | 0 <= i < j < |r.services|
      ensures r.services[i].name != r.services[j].name
    {
      var a, b := services[i], services[j];
      if r.services[i].name == r.services[j].name {
        ServiceNameInjective(a.host, a.port, a.secure, b.host, b.port, b.secure);
      }
    }
  }

  /** The version 11 total of endpoints over a service list. */
  function V11TotalEndpoints(services: seq<V11ServiceConfig>): nat {
    if services == [] then 0 else |services[0].endpoints| + V11TotalEndpoints(services[1..])
  }

  lemma {:induction false} TotalEndpointsKept(services: seq<V11ServiceConfig>, converted: seq<ServiceConfig>)
    requires |converted| == |services|
    requires forall i :: 0 <= i < |services| ==> converted[i] == ConvertService(services[i])
    ensures TotalEndpoints(converted) == V11TotalEndpoints(services)
    decreases |services|
  {
    if services != [] {
      TotalEndpointsKept(services[1..], converted[1..]);
    }
  }

  /**
   * Conversion keeps every endpoint: the converted model has as many endpoints in all
   * as the version 11 model, so it polls exactly when the original had an endpoint.
   */
  lemma ConvertKeepsEndpointCount(m: V11Model, defaults: SessionDefaults)
    requires m.services.Some? && m.diffusion.Some?
    ensures TotalEndpoints(Convert(Version11(m), defaults).value.services) == V11TotalEndpoints(m.services.value)
  {
    TotalEndpointsKept(m.services.value, Convert(Version11(m), defaults).value.services);
  }

  /** A missing security section and one without basic authentication are the same to version 12. */
  function NormaliseSecurity(s: V11ServiceConfig): V11ServiceConfig {
    if s.security.None? then s.(security := Some(V11SecurityConfig(None))) else s
  }

  /**
   * Conversion forgets nothing but the difference between a missing security section
   * and an empty one: two version 11 models with the same conversion agree on every
   * other field.
   */
  lemma ConvertLosesOnlyMissingSecurity(m1: V11Model, m2: V11Model, defaults: SessionDefaults)
    requires Convert(Version11(m1), defaults).Ok? && Convert(Version11(m1), defaults) == Convert(Version11(m2), defaults)
    ensures m1.diffusion == m2.diffusion && m1.truststore == m2.truststore
    ensures |m1.services.value| == |m2.services.value|
    ensures forall i :: 0 <= i < |m1.services.value| ==>
      NormaliseSecurity(m1.services.value[i]) == NormaliseSecurity(m2.services.value[i])
  {
    var s1, s2 := m1.services.value, m2.services.value;
    var r := Convert(Version11(m1), defaults).value;
    forall i | 0 <= i < |s1|
      ensures NormaliseSecurity(s1[i]) == NormaliseSecurity(s2[i])
    {
      assert ConvertService(s1[i]) == r.services[i] == ConvertService(s2[i]);
      ConvertServiceLosesOnlyMissingSecurity(s1[i], s2[i]);
    }
    var d1, d2 := m1.diffusion.value, m2.diffusion.value;
    assert ConvertDiffusion(d1, defaults) == ConvertDiffusion(d2, defaults);
  }

  lemma ConvertServiceLosesOnlyMissingSecurity(a: V11ServiceConfig, b: V11ServiceConfig)
    requires ConvertService(a) == ConvertService(b)
    ensures NormaliseSecurity(a) == NormaliseSecurity(b)
  {
    assert a.endpoints == b.endpoints by {
      forall k | 0 <= k < |a.endpoints|
        ensures a.endpoints[k] == b.endpoints[k]
      {
        assert ConvertEndpoint(a.endpoints[k]) == ConvertEndpoint(b.endpoints[k]);
      }
    }
    assert ConvertSecurity(a.security) == ConvertSecurity(b.security);
  }
}
