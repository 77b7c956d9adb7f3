/**
 * The configuration snapshot the adapter is reconfigured with: immutable values,
 * replaced wholesale on every reconfiguration. A Java field that may be null is an
 * `Option`.
 */
module Config {
  import opened Wrappers

  datatype BasicAuthenticationConfig = BasicAuthenticationConfig(principal: string, credential: string)

  datatype SecurityConfig = SecurityConfig(basic: Option<BasicAuthenticationConfig>)

  /** One REST endpoint: its name, request URL, topic sub-path and content-type identifier. */
  datatype EndpointConfig = EndpointConfig(name: string, url: string, topicPath: string, produces: string)

  /** One REST service. A poll period of zero or less means "poll once". */
  datatype ServiceConfig = ServiceConfig(
    name: string,
    host: string,
    port: int,
    secure: bool,
    endpoints: seq<EndpointConfig>,
    pollPeriod: int,
    topicPathRoot: string,
    security: Option<SecurityConfig>)

  /** Connection settings for the Diffusion server. */
  datatype DiffusionConfig = DiffusionConfig(
    host: string,
    port: int,
    secure: bool,
    principal: Option<string>,
    password: Option<string>,
    connectionTimeout: int,
    reconnectionTimeout: int,
    maximumMessageSize: int,
    inputBufferSize: int,
    outputBufferSize: int,
    recoveryBufferSize: int)

  /** Metrics settings: event counting, and the (opaque) summary and topic reporting sections. */
  datatype MetricsConfig = MetricsConfig(counting: bool, summary: Option<string>, topic: Option<string>)

  /** The configuration snapshot. */
  datatype Model = Model(
    active: bool,
    diffusion: Option<DiffusionConfig>,
    services: Option<seq<ServiceConfig>>,
    truststore: Option<string>,
    metrics: MetricsConfig)

  /** Number of endpoints summed over a list of services. */
  function TotalEndpoints(services: seq<ServiceConfig>): nat {
    if services == [] then 0 else |services[0].endpoints| + TotalEndpoints(services[1..])
  }

  /** The sum of endpoints is zero exactly when no service has an endpoint. */
  lemma {:induction false} TotalEndpointsZero(services: seq<ServiceConfig>)
    ensures TotalEndpoints(services) == 0 <==> forall i :: 0 <= i < |services| ==> services[i].endpoints == []
  {
    if services != [] {
      TotalEndpointsZero(services[1..]);
      assert forall i :: 1 <= i < |services| ==> services[i] == services[1..][i - 1];
    }
  }

  /**
   * "Not polling": no Diffusion configuration, no (or an empty) service list, or no
   * endpoint in any service.
   */
  predicate IsNotPolling(m: Model) {
    || m.diffusion.None?
    || m.services.None?
    || m.services.value == []
    || TotalEndpoints(m.services.value) == 0
  }

  /** A model polls exactly when it has a Diffusion configuration and some service has an endpoint. */
  lemma PollingIffSomeEndpoint(m: Model)
    ensures !IsNotPolling(m) <==>
      m.diffusion.Some? && m.services.Some? &&
      exists i :: 0 <= i < |m.services.value| && m.services.value[i].endpoints != []
  {
    if m.services.Some? {
      TotalEndpointsZero(m.services.value);
    }
  }

  /** The security configurations of the services that have basic authentication, in order. */
  function BasicSecurities(services: seq<ServiceConfig>): seq<SecurityConfig> {
    if services == [] then []
    else
      var rest := BasicSecurities(services[1..]);
      match services[0].security
      case Some(sec) => if sec.basic.Some? then [sec] + rest else rest
      case None => rest
  }

  /** Every element of `BasicSecurities` is the security of some service, and has basic authentication. */
  lemma {:induction false} BasicSecuritiesFromServices(services: seq<ServiceConfig>)
    ensures |BasicSecurities(services)| <= |services|
    ensures forall j :: 0 <= j < |BasicSecurities(services)| ==>
      BasicSecurities(services)[j].basic.Some? &&
      exists i :: 0 <= i < |services| && services[i].security == Some(BasicSecurities(services)[j])
  {
    if services != [] {
      BasicSecuritiesFromServices(services[1..]);
      var rest := BasicSecurities(services[1..]);
      forall j | 0 <= j < |rest|
        ensures exists i :: 0 <= i < |services| && services[i].security == Some(rest[j])
      {
        var i :| 0 <= i < |services[1..]| && services[1..][i].security == Some(rest[j]);
        assert services[i + 1].security == Some(rest[j]);
      }
    }
  }

  /**
   * `BasicSecurities` is the stream `map(getSecurity)`, two `filter`s and `collect` of
   * the adapter: it distributes over concatenation, so it keeps the order of the services.
   */
  lemma {:induction false} BasicSecuritiesAppend(a: seq<ServiceConfig>, b: seq<ServiceConfig>)
    ensures BasicSecurities(a + b) == BasicSecurities(a) + BasicSecurities(b)
    decreases |a|
  {
    if a == [] {
      assert a + b == b;
    } else {
      assert (a + b)[0] == a[0] && (a + b)[1..] == a[1..] + b;
      BasicSecuritiesAppend(a[1..], b);
      var head := match a[0].security
        case Some(sec) => if sec.basic.Some? then [sec] else []
        case None => [];
      assert BasicSecurities(a) == head + BasicSecurities(a[1..]);
      assert BasicSecurities(a + b) == head + (BasicSecurities(a[1..]) + BasicSecurities(b));
    }
  }

  /** Every service with basic authentication contributes its security section. */
  lemma {:induction false} BasicSecuritiesComplete(services: seq<ServiceConfig>, i: nat)
    requires i < |services|
    requires services[i].security.Some? && services[i].security.value.basic.Some?
    ensures services[i].security.value in BasicSecurities(services)
    decreases i
  {
    if i > 0 {
      BasicSecuritiesComplete(services[1..], i - 1);
    }
  }
}
