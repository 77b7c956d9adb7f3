/**
 * The endpoint types the adapter can process (EndpointType): JSON, plain text and
 * binary. Each has a list of identifiers (its name and the media types it stands
 * for), a Diffusion topic type and a predicate over response content types. A static
 * lookup registers every identifier of every type, refusing any identifier already
 * registered. The parsers and Diffusion data types are opaque and not modelled.
 */
module EndpointTypes {
  import opened Wrappers

  datatype TopicType = JsonTopic | StringTopic | BinaryTopic

  datatype EndpointType = Json | PlainText | Binary

  /** The identifiers of each type; the first is its name. */
  function Identifiers(t: EndpointType): (r: seq<string>)
    ensures |r| >= 2
  {
    match t
    case Json => ["json", "application/json", "text/json"]
    case PlainText => ["string", "text/plain"]
    case Binary => ["binary", "application/octet-stream"]
  }

  function TopicTypeOf(t: EndpointType): TopicType {
    match t
    case Json => JsonTopic
    case PlainText => StringTopic
    case Binary => BinaryTopic
  }

  /** `getIdentifier`: the first identifier of the type's list. */
  function GetIdentifier(t: EndpointType): (r: string)
    ensures r in Identifiers(t)
  {
    Identifiers(t)[0]
  }

  /** JSON's content-type predicate. */
  predicate IsJsonContent(contentType: Option<string>) {
    contentType.Some? &&
    (StartsWith(contentType.value, "application/json") || StartsWith(contentType.value, "text/json"))
  }

  /** `canHandle(contentType)`; a null content type is `None`. PLAIN_TEXT defers to JSON's predicate. */
  predicate CanHandle(t: EndpointType, contentType: Option<string>) {
    match t
    case Json => IsJsonContent(contentType)
    case PlainText => contentType.Some? && (StartsWith(contentType.value, "text/plain") || IsJsonContent(contentType))
    case Binary => true
  }

  /** The order of registration in the static initialiser. */
  const Shipped: seq<EndpointType> := [Json, PlainText, Binary]

  /** One registration: an identifier and the type it resolves to. */
  datatype Entry = Entry(identifier: string, endpointType: EndpointType)

  function EntriesOf(t: EndpointType): (r: seq<Entry>)
  {
    seq(|Identifiers(t)|, i requires 0 <= i < |Identifiers(t)| => Entry(Identifiers(t)[i], t))
  }

  /** Every registration the initialiser performs, type by type, identifier by identifier. */
  function Entries(types: seq<EndpointType>): seq<Entry> {
    if types == [] then [] else EntriesOf(types[0]) + Entries(types[1..])
  }

  /**
   * The initialiser's `putIfAbsent` walk from `lookup`: `None` when some identifier
   * is already present (the IllegalStateException), otherwise the filled lookup.
   */
  function Register(entries: seq<Entry>, lookup: map<string, EndpointType>): Option<map<string, EndpointType>> {
    if entries == [] then Some(lookup)
    else if entries[0].identifier in lookup then None
    else Register(entries[1..], lookup[entries[0].identifier := entries[0].endpointType])
  }

  function IdentifiersOf(entries: seq<Entry>): (r: seq<string>)
    ensures |r| == |entries|
    ensures forall i :: 0 <= i < |r| ==> r[i] == entries[i].identifier
  {
    seq(|entries|, i requires 0 <= i < |entries| => entries[i].identifier)
  }

  predicate Distinct(s: seq<string>) {
    forall i, j :: 0 <= i < j < |s| ==> s[i] != s[j]
  }

  lemma DistinctCons(s: seq<string>)
    requires s != []
    ensures Distinct(s) <==> s[0] !in s[1..] && Distinct(s[1..])
  {
    if s[0] !in s[1..] && Distinct(s[1..]) {
      forall i, j | 0 <= i < j < |s|
        ensures s[i] != s[j]
      {
        assert s[j] == s[1..][j - 1];
        if i > 0 {
          assert s[i] == s[1..][i - 1];
        }
      }
    }
    if Distinct(s) {
      forall i, j | 0 <= i < j < |s| - 1
        ensures s[1..][i] != s[1..][j]
      {
        assert s[1..][i] == s[i + 1] && s[1..][j] == s[j + 1];
      }
    }
  }

  /**
   * Registration succeeds exactly when no identifier repeats and none is already
   * registered; it then maps each identifier to its entry's type and adds nothing else.
   */
  lemma {:induction false} RegisterSucceedsIffDistinct(entries: seq<Entry>, lookup: map<string, EndpointType>)
    ensures Register(entries, lookup).Some? <==>
      Distinct(IdentifiersOf(entries)) && forall i :: 0 <= i < |entries| ==> entries[i].identifier !in lookup
    ensures Register(entries, lookup).Some? ==>
      && (forall k :: k in Register(entries, lookup).value <==> k in lookup || k in IdentifiersOf(entries))
      && (forall k :: k in lookup ==> Register(entries, lookup).value[k] == lookup[k])
      && (forall i :: 0 <= i < |entries| ==> Register(entries, lookup).value[entries[i].identifier] == entries[i].endpointType)
    decreases |entries|
  {
    if entries != [] {
      var e := entries[0];
      var rest := entries[1..];
      var ids := IdentifiersOf(entries);
      assert ids[1..] == IdentifiersOf(rest);
      DistinctCons(ids);
      if e.identifier !in lookup {
        var next := lookup[e.identifier := e.endpointType];
        RegisterSucceedsIffDistinct(rest, next);
        assert Register(entries, lookup) == Register(rest, next);
        assert forall i :: 1 <= i < |entries| ==> entries[i] == rest[i - 1];
      }
    }
  }

  /** The lookup the shipped types produce: the seven identifiers, each to its type. */
  function ShippedLookup(): map<string, EndpointType> {
    map[
      "json" := Json, "application/json" := Json, "text/json" := Json,
      "string" := PlainText, "text/plain" := PlainText,
      "binary" := Binary, "application/octet-stream" := Binary]
  }

  /** The registrations of the shipped types, in order. */
  lemma ShippedEntries()
    ensures Entries(Shipped) == [
      Entry("json", Json), Entry("application/json", Json), Entry("text/json", Json),
      Entry("string", PlainText), Entry("text/plain", PlainText),
      Entry("binary", Binary), Entry("application/octet-stream", Binary)]
  {
    assert Entries(Shipped[2..]) == EntriesOf(Binary) + Entries([]);
    assert Entries(Shipped[1..]) == EntriesOf(PlainText) + Entries(Shipped[2..]);
  }

  /** The shipped identifiers are pairwise distinct, so the static initialiser succeeds with the shipped lookup. */
  lemma ShippedRegistrationSucceeds()
    ensures Register(Entries(Shipped), map[]) == Some(ShippedLookup())
    ensures Distinct(IdentifiersOf(Entries(Shipped)))
  {
    ShippedEntries();
    var e := Entries(Shipped);
    var m1 := map["json" := Json];
    var m2 := m1["application/json" := Json];
    var m3 := m2["text/json" := Json];
    var m4 := m3["string" := PlainText];
    var m5 := m4["text/plain" := PlainText];
    var m6 := m5["binary" := Binary];
    var m7 := m6["application/octet-stream" := Binary];
    assert Register(e, map[]) == Register(e[1..], m1);
    assert Register(e[1..], m1) == Register(e[2..], m2);
    assert Register(e[2..], m2) == Register(e[3..], m3);
    assert Register(e[3..], m3) == Register(e[4..], m4);
    assert Register(e[4..], m4) == Register(e[5..], m5);
    assert Register(e[5..], m5) == Register(e[6..], m6);
    assert Register(e[6..], m6) == Register(e[7..], m7);
    assert m7 == ShippedLookup();
    RegisterSucceedsIffDistinct(e, map[]);
  }

  /** `from(identifier)`: the registered type, or the IllegalArgumentException message. */
  function From(identifier: string): (r: Result<EndpointType, string>)
    ensures r.Ok? <==> identifier in ShippedLookup()
    ensures r.Err? ==> r.error == "Unknown endpoint type " + identifier
  {
    if identifier in ShippedLookup() then Ok(ShippedLookup()[identifier])
    else Err("Unknown endpoint type " + identifier)
  }

  /** `from` accepts exactly the identifiers the types list, and resolves each to its own type. */
  lemma FromResolvesIdentifiers(identifier: string, t: EndpointType)
    ensures From(identifier) == Ok(t) <==> identifier in Identifiers(t)
    ensures From(identifier).Ok? <==>
      identifier in {"json", "application/json", "text/json", "string", "text/plain", "binary", "application/octet-stream"}
  {
  }

  /** Round trip: `from(t.getIdentifier())` is `t`. */
  lemma FromGetIdentifier(t: EndpointType)
    ensures From(GetIdentifier(t)) == Ok(t)
  {
  }

  /** PLAIN_TEXT accepts every content type JSON accepts. */
  lemma PlainTextAcceptsJson(contentType: Option<string>)
    ensures CanHandle(Json, contentType) ==> CanHandle(PlainText, contentType)
  {
  }

  /** `inferFromContentType`: the first of JSON, PLAIN_TEXT and BINARY that can handle it. */
  function InferFromContentType(contentType: Option<string>): (r: EndpointType)
    ensures CanHandle(r, contentType)
    ensures r == Json <==> CanHandle(Json, contentType)
    ensures r == PlainText <==> !CanHandle(Json, contentType) && CanHandle(PlainText, contentType)
    ensures r == Binary <==> !CanHandle(PlainText, contentType)
  {
    if CanHandle(Json, contentType) then Json
    else if CanHandle(PlainText, contentType) then PlainText
    else Binary
  }

  /** Registering `a + b` registers `a`, then `b` into what `a` produced, failing if either fails. */
  lemma {:induction false} RegisterAppend(a: seq<Entry>, b: seq<Entry>, lookup: map<string, EndpointType>)
    ensures Register(a + b, lookup) ==
      if Register(a, lookup).None? then None else Register(b, Register(a, lookup).value)
    decreases |a|
  {
    if a == [] {
      assert a + b == b;
    } else {
      assert (a + b)[0] == a[0];
      assert (a + b)[1..] == a[1..] + b;
      if a[0].identifier !in lookup {
        RegisterAppend(a[1..], b, lookup[a[0].identifier := a[0].endpointType]);
      }
    }
  }

  /**
   * The registrations of one type: `putIfAbsent` for each identifier in order, stopping
   * with IllegalStateException at the first one already present.
   */
  method RegisterType(t: EndpointType, lookup: map<string, EndpointType>)
    returns (result: map<string, EndpointType>, threw: bool)
    ensures threw <==> Register(EntriesOf(t), lookup).None?
    ensures !threw ==> Register(EntriesOf(t), lookup) == Some(result)
  {
    var identifiers := Identifiers(t);
    result := lookup;
    threw := false;
    var j := 0;
    while j < |identifiers|
      invariant 0 <= j <= |identifiers|
      invariant Register(EntriesOf(t), lookup) == Register(EntriesOf(t)[j..], result)
    {
      var rest := EntriesOf(t)[j..];
      assert rest[0] == Entry(identifiers[j], t);
      if identifiers[j] in result {
        threw := true;
        return;
      }
      assert rest[1..] == EntriesOf(t)[j + 1..];
      result := result[identifiers[j] := t];
      j := j + 1;
    }
  }

  /** The static initialiser: registers the identifiers of `types`, type by type. */
  method Initialise(types: seq<EndpointType>) returns (lookup: map<string, EndpointType>, threw: bool)
    ensures threw <==> Register(Entries(types), map[]).None?
    ensures !threw ==> Register(Entries(types), map[]) == Some(lookup)
  {
    lookup := map[];
    threw := false;
    var i := 0;
    while i < |types|
      invariant 0 <= i <= |types|
      invariant Register(Entries(types), map[]) == Register(Entries(types[i..]), lookup)
    {
      assert Entries(types[i..]) == EntriesOf(types[i]) + Entries(types[i + 1..]) by {
        assert types[i..][0] == types[i];
        assert types[i..][1..] == types[i + 1..];
      }
      RegisterAppend(EntriesOf(types[i]), Entries(types[i + 1..]), lookup);
      lookup, threw := RegisterType(types[i], lookup);
      if threw {
        return;
      }
      i := i + 1;
    }
    assert types[i..] == [];
  }

  /** The shipped identifiers are pairwise distinct, so initialisation succeeds with the shipped lookup. */
  method InitialiseShipped() returns (lookup: map<string, EndpointType>, threw: bool)
    ensures !threw && lookup == ShippedLookup()
  {
    lookup, threw := Initialise(Shipped);
    ShippedRegistrationSucceeds();
  }
}
