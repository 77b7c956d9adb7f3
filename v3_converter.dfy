/**
 * The converter from version 3 of the configuration model to version 4 (V3Converter).
 * Version 4 keeps each service's host, port, endpoints and poll period, each
 * endpoint's name, URL and topic, and the Diffusion host and port; lists keep their
 * order. A model of any other version is refused.
 */
module V3Converter {
  import opened Wrappers

  datatype V3Endpoint = V3Endpoint(name: string, url: string, topic: string)
  datatype V3Service = V3Service(host: string, port: int, endpoints: seq<V3Endpoint>, pollPeriod: int)
  datatype V3Diffusion = V3Diffusion(host: string, port: int)
  datatype V3Model = V3Model(services: Option<seq<V3Service>>, diffusion: Option<V3Diffusion>)

  /** What a converter is handed: a version 3 model, or a model of some other version. */
  datatype AnyModel = Version3(model: V3Model) | OtherVersion(version: nat)

  datatype Endpoint = Endpoint(name: string, url: string, topic: string)
  datatype Service = Service(host: string, port: int, endpoints: seq<Endpoint>, pollPeriod: int)
  datatype Diffusion = Diffusion(host: string, port: int)
  /** Version 4 of the model. */
  datatype V4Model = V4Model(services: seq<Service>, diffusion: Diffusion)

  datatype ConversionError =
    | IllegalArgument      // the model is not of version 3
    | NullPointer          // the model has no service list or no Diffusion section

  function ConvertEndpoint(e: V3Endpoint): (r: Endpoint)
    ensures r.name == e.name && r.url == e.url && r.topic == e.topic
  {
    Endpoint(e.name, e.url, e.topic)
  }

  function ConvertService(s: V3Service): (r: Service)
    ensures r.host == s.host && r.port == s.port && r.pollPeriod == s.pollPeriod
    ensures |r.endpoints| == |s.endpoints|
    ensures forall i :: 0 <= i < |r.endpoints| ==> r.endpoints[i] == ConvertEndpoint(s.endpoints[i])
  {
    Service(
      s.host,
      s.port,
      seq(|s.endpoints|, i requires 0 <= i < |s.endpoints| => ConvertEndpoint(s.endpoints[i])),
      s.pollPeriod)
  }

  /** `convert`: refuses other versions; reading a missing service list or Diffusion section throws. */
  function Convert(m: AnyModel): (r: Result<V4Model, ConversionError>)
    ensures m.OtherVersion? ==> r == Err(IllegalArgument)
    ensures r.Ok? <==> m.Version3? && m.model.services.Some? && m.model.diffusion.Some?
    ensures r.Ok? ==>
      var services := m.model.services.value;
      && |r.value.services| == |services|
      && (forall i :: 0 <= i < |services| ==> r.value.services[i] == ConvertService(services[i]))
      && r.value.diffusion.host == m.model.diffusion.value.host
      && r.value.diffusion.port == m.model.diffusion.value.port
  {
    match m
    case OtherVersion(_) => Err(IllegalArgument)
    case Version3(model) =>
      if model.services.None? || model.diffusion.None? then Err(NullPointer)
      else
        var services := model.services.value;
        Ok(V4Model(
          seq(|services|, i requires 0 <= i < |services| => ConvertService(services[i])),
          Diffusion(model.diffusion.value.host, model.diffusion.value.port)))
  }

  /** Reading the version 3 fields back out of a converted model. */
  function Restore(m: V4Model): (r: V3Model)
    ensures r.services.Some? && |r.services.value| == |m.services|
  {
    V3Model(
      Some(seq(|m.services|, i requires 0 <= i < |m.services| =>
        var s := m.services[i];
        V3Service(
          s.host,
          s.port,
          seq(|s.endpoints|, k requires 0 <= k < |s.endpoints| =>
            V3Endpoint(s.endpoints[k].name, s.endpoints[k].url, s.endpoints[k].topic)),
          s.pollPeriod))),
      Some(V3Diffusion(m.diffusion.host, m.diffusion.port)))
  }

  /**
   * Conversion forgets none of the fields it reads: every service, endpoint and
   * Diffusion field of the version 3 model can be read back, in the same order.
   */
  lemma ConvertIsLossless(m: V3Model)
    requires m.services.Some? && m.diffusion.Some?
    ensures Restore(Convert(Version3(m)).value) == m
  {
    var services := m.services.value;
    var r := Convert(Version3(m)).value;
    var back := Restore(r).services.value;
    forall i | 0 <= i < |services|
      ensures back[i] == services[i]
    {
      var s := services[i];
      assert r.services[i] == ConvertService(s);
      assert back[i].endpoints == s.endpoints;
    }
    assert back == services;
  }

  /** Two version 3 models with the same conversion are the same model. */
  lemma ConvertInjective(m1: V3Model, m2: V3Model)
    requires Convert(Version3(m1)).Ok? && Convert(Version3(m1)) == Convert(Version3(m2))
    ensures m1 == m2
  {
    ConvertIsLossless(m1);
    ConvertIsLossless(m2);
  }
}
