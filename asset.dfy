/** `Asset`: the metadata of a glTF asset, four nullable strings. A null
    `copyright` or `generator` is not written; `version` is always written,
    null or not; `minVersion` is read but never written. */
module AssetSchema {
  import opened JsonTokens
  import opened JsonStream
  import opened GltfProperty

  datatype AssetValue = AssetValue(
    copyright: Option<string>,
    generator: Option<string>,
    version: Option<string>,
    minVersion: Option<string>,
    extensions: seq<Member>)

  /** The fields of a new Asset: all four strings null. */
  const DefaultAsset: AssetValue :=
    AssetValue(None, None, None, None, [])

  /** The property names Deserialize recognises. */
  const AssetNames: set<string> := {"copyright", "generator", "version", "minVersion"}

  datatype AssetField = Copyright | Generator | Version | MinVersion

  function NameOf(f: AssetField): string
  {
    match f
    case Copyright => "copyright"
    case Generator => "generator"
    case Version => "version"
    case MinVersion => "minVersion"
  }

  /** The field a property name is dispatched to, by exact match. */
  function FieldNamed(name: string): (r: Option<AssetField>)
    ensures r.Some? <==> name in AssetNames
    ensures forall f :: r == Some(f) <==> NameOf(f) == name
  {
    if name == "copyright" then Some(Copyright)
    else if name == "generator" then Some(Generator)
    else if name == "version" then Some(Version)
    else if name == "minVersion" then Some(MinVersion)
    else None
  }

  function Get(v: AssetValue, f: AssetField): Option<string>
  {
    match f
    case Copyright => v.copyright
    case Generator => v.generator
    case Version => v.version
    case MinVersion => v.minVersion
  }

  function Set(v: AssetValue, f: AssetField, x: Option<string>): (w: AssetValue)
    ensures forall g :: Get(w, g) == if g == f then x else Get(v, g)
    ensures w.extensions == v.extensions
  {
    match f
    case Copyright => v.(copyright := x)
    case Generator => v.(generator := x)
    case Version => v.(version := x)
    case MinVersion => v.(minVersion := x)
  }

  /** One pass of the dispatch switch: the property `name` has been read and
      `s` holds the tokens after it. A recognised name sets its own field
      and nothing else; any other name adds one bag entry. */
  function ReadProperty(v: AssetValue, name: string, s: seq<Token>): (r: Result<(AssetValue, seq<Token>)>)
    ensures r.Ok? ==> SuffixOf(r.value.1, s)
    ensures r.Ok? && s != [] ==> |r.value.1| < |s|
    ensures name in AssetNames ==> (r.Ok? <==> s == [] || s[0].Str? || s[0].Null?)
    ensures r.Ok? && name in AssetNames ==>
              r.value.1 == (if s == [] then [] else s[1..]) && r.value.0.extensions == v.extensions &&
              forall g :: if NameOf(g) == name then (s == [] && Get(r.value.0, g) == None) || (s != [] && s[0] == StringToken(Get(r.value.0, g)))
                          else Get(r.value.0, g) == Get(v, g)
    ensures name !in AssetNames ==> (r.Ok? <==> NextValue(s).Ok?)
    ensures r.Ok? && name !in AssetNames ==>
              r.value.0 == v.(extensions := v.extensions + [Member(name, s[..|s| - |r.value.1|])])
    ensures r.Ok? && ValidExtensions(v.extensions, AssetNames) ==>
              ValidExtensions(r.value.0.extensions, AssetNames)
  {
    match FieldNamed(name)
    case Some(f) =>
      (match NextString(s)
       case Err(e) => Err(e)
       case Ok((x, rest)) => Ok((Set(v, f, x), rest)))
    case None =>
      (match UnknownProperty(name, s)
       case Err(e) => Err(e)
       case Ok((m, rest)) =>
         assert m.raw == s[..|s| - |rest|];
         Ok((v.(extensions := v.extensions + [m]), rest)))
  }

  /** The loop `while (reader.Read() && reader.TokenType == PropertyName)`:
      it ends, consuming it, at the first token that is not a property name,
      or at the end of the stream. */
  function ReadProperties(s: seq<Token>, v: AssetValue): (r: Result<(AssetValue, seq<Token>)>)
    ensures r.Ok? ==> SuffixOf(r.value.1, s)
    ensures r.Err? ==> r.error != NotAnObject
    decreases |s|
  {
    if s == [] then Ok((v, []))
    else if !s[0].PropertyName? then Ok((v, s[1..]))
    else
      match ReadProperty(v, s[0].name, s[1..])
      case Err(e) => Err(e)
      case Ok((w, rest)) => ReadProperties(rest, w)
  }

  /** `Asset.Deserialize`: a token that is read and is not
      StartObject fails; an exhausted stream gives the default asset. */
  function DeserializeAsset(s: seq<Token>): (r: Result<(AssetValue, seq<Token>)>)
    ensures r.Ok? ==> SuffixOf(r.value.1, s)
    ensures r == Err(NotAnObject) <==> s != [] && s[0] != StartObject
  {
    if s != [] && s[0] != StartObject then Err(NotAnObject)
    else ReadProperties(if s == [] then [] else s[1..], DefaultAsset)
  }

  /** The loop keeps the bag as deserialization leaves it. */
  lemma {:induction false} ReadPropertiesKeepsBagValid(s: seq<Token>, v: AssetValue)
    requires ValidExtensions(v.extensions, AssetNames)
    requires ReadProperties(s, v).Ok?
    ensures ValidExtensions(ReadProperties(s, v).value.0.extensions, AssetNames)
    decreases |s|
  {
    if s != [] && s[0].PropertyName? {
      var w := ReadProperty(v, s[0].name, s[1..]).value;
      ReadPropertiesKeepsBagValid(w.1, w.0);
    }
  }

  /** Every bag entry Deserialize creates has an unrecognised name and one
      complete value. */
  lemma DeserializedBagIsValid(s: seq<Token>)
    requires DeserializeAsset(s).Ok?
    ensures ValidExtensions(DeserializeAsset(s).value.0.extensions, AssetNames)
  {
    ReadPropertiesKeepsBagValid(if s == [] then [] else s[1..], DefaultAsset);
  }

  /** The tokens Serialize writes for the strings: `copyright` and
      `generator` only when not null, `version` always, `minVersion` never. */
  function FieldTokens(v: AssetValue): seq<Token>
  {
    (if v.copyright.Some? then [PropertyName("copyright"), StringToken(v.copyright)] else [])
    + (if v.generator.Some? then [PropertyName("generator"), StringToken(v.generator)] else [])
    + [PropertyName("version"), StringToken(v.version)]
  }

  /** The tokens `Serialize` writes. */
  function AssetTokens(v: AssetValue): seq<Token>
  {
    [StartObject] + FieldTokens(v) + MembersTokens(v.extensions) + [EndObject]
  }

  /** A property as it can appear in an asset object: one of the four
      strings, or anything else, which goes to the extension bag. */
  datatype AssetProperty = Assign(field: AssetField, x: Option<string>) | Extra(m: Member)

  function PropertyTokens(p: AssetProperty): seq<Token>
  {
    match p
    case Assign(f, x) => [PropertyName(NameOf(f)), StringToken(x)]
    case Extra(m) => [PropertyName(m.name)] + m.raw
  }

  function PropertiesTokens(ps: seq<AssetProperty>): seq<Token>
    decreases |ps|
  {
    if ps == [] then [] else PropertyTokens(ps[0]) + PropertiesTokens(ps[1..])
  }

  /** Every property outside the four carries a name Deserialize does not
      recognise and one complete value. */
  ghost predicate WellFormed(ps: seq<AssetProperty>)
  {
    forall i :: 0 <= i < |ps| ==> ps[i].Extra? ==> ps[i].m.name !in AssetNames && Complete(ps[i].m.raw)
  }

  /** What one property does to the asset. */
  function Apply(v: AssetValue, p: AssetProperty): AssetValue
  {
    match p
    case Assign(f, x) => Set(v, f, x)
    case Extra(m) => v.(extensions := v.extensions + [m])
  }

  /** The properties applied in input order. */
  function ApplyAll(v: AssetValue, ps: seq<AssetProperty>): AssetValue
    decreases |ps|
  {
    if ps == [] then v else ApplyAll(Apply(v, ps[0]), ps[1..])
  }

  /** The string in the last property of `ps` that names `f`, or `dflt`
      when none does. */
  function LastAssigned(ps: seq<AssetProperty>, f: AssetField, dflt: Option<string>): Option<string>
    decreases |ps|
  {
    if ps == [] then dflt
    else if ps[|ps| - 1].Assign? && ps[|ps| - 1].field == f then ps[|ps| - 1].x
    else LastAssigned(ps[..|ps| - 1], f, dflt)
  }

  /** The unrecognised properties of `ps`, in order. */
  function Extras(ps: seq<AssetProperty>): seq<Member>
    decreases |ps|
  {
    if ps == [] then []
    else Extras(ps[..|ps| - 1]) + (if ps[|ps| - 1].Extra? then [ps[|ps| - 1].m] else [])
  }

  lemma {:induction false} ReadsAssignment(f: AssetField, x: Option<string>, tail: seq<Token>, v: AssetValue)
    ensures ReadProperties([PropertyName(NameOf(f)), StringToken(x)] + tail, v) == ReadProperties(tail, Set(v, f, x))
  {
    var s := [PropertyName(NameOf(f)), StringToken(x)] + tail;
    assert s[1..] == [StringToken(x)] + tail;
    StringTokenRoundTrip(x, tail);
  }

  lemma {:induction false} ReadsExtra(m: Member, tail: seq<Token>, v: AssetValue)
    requires m.name !in AssetNames && Complete(m.raw)
    ensures ReadProperties([PropertyName(m.name)] + m.raw + tail, v) ==
            ReadProperties(tail, v.(extensions := v.extensions + [m]))
  {
    var s := [PropertyName(m.name)] + m.raw + tail;
    assert s[1..] == m.raw + tail;
    UnknownPropertyRoundTrip(m, tail);
  }

  /** Reading the tokens of well-formed properties applies them in order. */
  lemma {:induction false} ReadsProperties(ps: seq<AssetProperty>, tail: seq<Token>, v: AssetValue)
    requires WellFormed(ps)
    ensures ReadProperties(PropertiesTokens(ps) + tail, v) == ReadProperties(tail, ApplyAll(v, ps))
    decreases |ps|
  {
    if ps == [] {
      assert PropertiesTokens(ps) + tail == tail;
    } else {
      var rest := PropertiesTokens(ps[1..]) + tail;
      assert PropertiesTokens(ps) + tail == PropertyTokens(ps[0]) + rest;
      match ps[0] {
        case Assign(f, x) =>
          ReadsAssignment(f, x, rest, v);
        case Extra(m) =>
          assert PropertyTokens(ps[0]) + rest == [PropertyName(m.name)] + m.raw + rest;
          ReadsExtra(m, rest, v);
      }
      assert WellFormed(ps[1..]) by {
        forall i | 0 <= i < |ps[1..]| ensures ps[1..][i] == ps[i + 1] { }
      }
      ReadsProperties(ps[1..], tail, Apply(v, ps[0]));
    }
  }

  /** Deserialize on a well-formed object, whatever the order of its
      properties and however often a name repeats. */
  lemma {:induction false} ReadsObject(ps: seq<AssetProperty>, rest: seq<Token>)
    requires WellFormed(ps)
    ensures DeserializeAsset([StartObject] + PropertiesTokens(ps) + [EndObject] + rest) ==
            Ok((ApplyAll(DefaultAsset, ps), rest))
  {
    var tail := [EndObject] + rest;
    var body := PropertiesTokens(ps) + tail;
    var s := [StartObject] + PropertiesTokens(ps) + [EndObject] + rest;
    assert s == [StartObject] + body;
    assert s[0] == StartObject && s[1..] == body;
    assert DeserializeAsset(s) == ReadProperties(body, DefaultAsset);
    ReadsProperties(ps, tail, DefaultAsset);
    assert tail[0] == EndObject && tail[1..] == rest;
    assert ReadProperties(tail, ApplyAll(DefaultAsset, ps)) == Ok((ApplyAll(DefaultAsset, ps), rest));
  }

  lemma {:induction false} ApplyAllAppend(v: AssetValue, ps: seq<AssetProperty>, qs: seq<AssetProperty>)
    ensures ApplyAll(v, ps + qs) == ApplyAll(ApplyAll(v, ps), qs)
    decreases |ps|
  {
    if ps == [] {
      assert ps + qs == qs;
    } else {
      assert (ps + qs)[0] == ps[0];
      assert (ps + qs)[1..] == ps[1..] + qs;
      ApplyAllAppend(Apply(v, ps[0]), ps[1..], qs);
    }
  }

  /** Last one wins: each field ends up with the string of the last property
      naming it, or keeps its value; the unrecognised properties are added
      to the bag in input order. */
  lemma {:induction false} LastOneWins(v: AssetValue, ps: seq<AssetProperty>)
    ensures forall f :: Get(ApplyAll(v, ps), f) == LastAssigned(ps, f, Get(v, f))
    ensures ApplyAll(v, ps).extensions == v.extensions + Extras(ps)
    decreases |ps|
  {
    if ps != [] {
      var init, p := ps[..|ps| - 1], ps[|ps| - 1];
      assert ps == init + [p];
      ApplyAllAppend(v, init, [p]);
      LastOneWins(v, init);
      assert ApplyAll(v, ps) == Apply(ApplyAll(v, init), p);
    }
  }

  /** A field no property names keeps its value. */
  lemma {:induction false} UnassignedKeepsDefault(ps: seq<AssetProperty>, f: AssetField, dflt: Option<string>)
    requires forall i :: 0 <= i < |ps| ==> !(ps[i].Assign? && ps[i].field == f)
    ensures LastAssigned(ps, f, dflt) == dflt
    decreases |ps|
  {
    if ps != [] {
      UnassignedKeepsDefault(ps[..|ps| - 1], f, dflt);
    }
  }

  /** A string an object leaves out stays null. */
  lemma {:induction false} AbsentFieldIsNull(ps: seq<AssetProperty>, f: AssetField, rest: seq<Token>)
    requires WellFormed(ps)
    requires forall i :: 0 <= i < |ps| ==> !(ps[i].Assign? && ps[i].field == f)
    ensures DeserializeAsset([StartObject] + PropertiesTokens(ps) + [EndObject] + rest).Ok?
    ensures Get(DeserializeAsset([StartObject] + PropertiesTokens(ps) + [EndObject] + rest).value.0, f) == None
  {
    var w := ApplyAll(DefaultAsset, ps);
    ReadsObject(ps, rest);
    LastOneWins(DefaultAsset, ps);
    UnassignedKeepsDefault(ps, f, None);
    assert Get(DefaultAsset, f) == None;
    assert Get(w, f) == None;
  }

  /** The properties Serialize writes for the strings. */
  function FieldProperties(v: AssetValue): seq<AssetProperty>
  {
    (if v.copyright.Some? then [Assign(Copyright, v.copyright)] else [])
    + (if v.generator.Some? then [Assign(Generator, v.generator)] else [])
    + [Assign(Version, v.version)]
  }

  /** The bag entries as properties. */
  function ExtraProperties(ms: seq<Member>): (ps: seq<AssetProperty>)
    ensures |ps| == |ms| && forall i :: 0 <= i < |ms| ==> ps[i] == Extra(ms[i])
  {
    seq(|ms|, i requires 0 <= i < |ms| => Extra(ms[i]))
  }

  lemma {:induction false} PropertiesTokensAppend(ps: seq<AssetProperty>, qs: seq<AssetProperty>)
    ensures PropertiesTokens(ps + qs) == PropertiesTokens(ps) + PropertiesTokens(qs)
    decreases |ps|
  {
    if ps == [] {
      assert ps + qs == qs;
    } else {
      assert (ps + qs)[0] == ps[0];
      assert (ps + qs)[1..] == ps[1..] + qs;
      PropertiesTokensAppend(ps[1..], qs);
    }
  }

  lemma {:induction false} ExtraPropertiesTokens(ms: seq<Member>)
    ensures PropertiesTokens(ExtraProperties(ms)) == MembersTokens(ms)
    decreases |ms|
  {
    if ms != [] {
      assert ExtraProperties(ms)[1..] == ExtraProperties(ms[1..]);
      ExtraPropertiesTokens(ms[1..]);
    }
  }

  lemma {:induction false} ApplyExtraProperties(v: AssetValue, ms: seq<Member>)
    ensures ApplyAll(v, ExtraProperties(ms)) == v.(extensions := v.extensions + ms)
    decreases |ms|
  {
    if ms == [] {
      assert v.extensions + ms == v.extensions;
    } else {
      assert ExtraProperties(ms)[1..] == ExtraProperties(ms[1..]);
      ApplyExtraProperties(v.(extensions := v.extensions + [ms[0]]), ms[1..]);
      assert v.extensions + [ms[0]] + ms[1..] == v.extensions + ms;
    }
  }

  lemma {:induction false} PropertiesTokensCons(p: AssetProperty, ps: seq<AssetProperty>)
    ensures PropertiesTokens([p] + ps) == PropertyTokens(p) + PropertiesTokens(ps)
  {
    assert ([p] + ps)[0] == p && ([p] + ps)[1..] == ps;
  }

  lemma {:induction false} ApplyAllCons(v: AssetValue, p: AssetProperty, ps: seq<AssetProperty>)
    ensures ApplyAll(v, [p] + ps) == ApplyAll(Apply(v, p), ps)
  {
    assert ([p] + ps)[0] == p && ([p] + ps)[1..] == ps;
  }

  lemma FieldPropertiesTokens(v: AssetValue)
    ensures PropertiesTokens(FieldProperties(v)) == FieldTokens(v)
  {
    var cp := if v.copyright.Some? then [Assign(Copyright, v.copyright)] else [];
    var gn := if v.generator.Some? then [Assign(Generator, v.generator)] else [];
    var vs := [Assign(Version, v.version)];
    assert PropertiesTokens(vs) == [PropertyName("version"), StringToken(v.version)] by {
      PropertiesTokensCons(vs[0], []);
      assert vs == [vs[0]] + [];
    }
    assert PropertiesTokens(gn) == (if v.generator.Some? then [PropertyName("generator"), StringToken(v.generator)] else []) by {
      if v.generator.Some? {
        PropertiesTokensCons(gn[0], []);
        assert gn == [gn[0]] + [];
      }
    }
    assert PropertiesTokens(cp) == (if v.copyright.Some? then [PropertyName("copyright"), StringToken(v.copyright)] else []) by {
      if v.copyright.Some? {
        PropertiesTokensCons(cp[0], []);
        assert cp == [cp[0]] + [];
      }
    }
    PropertiesTokensAppend(cp, gn);
    PropertiesTokensAppend(cp + gn, vs);
  }

  /** Reading what Serialize writes for the strings restores every field
      except `minVersion`, which stays null. */
  lemma FieldPropertiesApply(v: AssetValue)
    ensures ApplyAll(DefaultAsset, FieldProperties(v)) == v.(minVersion := None, extensions := [])
  {
    var cp := if v.copyright.Some? then [Assign(Copyright, v.copyright)] else [];
    var gn := if v.generator.Some? then [Assign(Generator, v.generator)] else [];
    var vs := [Assign(Version, v.version)];
    var w1 := DefaultAsset.(copyright := v.copyright);
    var w2 := w1.(generator := v.generator);
    assert ApplyAll(DefaultAsset, cp) == w1 by {
      if v.copyright.Some? {
        ApplyAllCons(DefaultAsset, cp[0], []);
        assert cp == [cp[0]] + [];
      }
    }
    assert ApplyAll(w1, gn) == w2 by {
      if v.generator.Some? {
        ApplyAllCons(w1, gn[0], []);
        assert gn == [gn[0]] + [];
      }
    }
    assert ApplyAll(w2, vs) == v.(minVersion := None, extensions := []) by {
      ApplyAllCons(w2, vs[0], []);
      assert vs == [vs[0]] + [];
    }
    ApplyAllAppend(DefaultAsset, cp, gn);
    ApplyAllAppend(DefaultAsset, cp + gn, vs);
  }

  /** The properties Serialize writes, in the order it writes them. */
  function WrittenProperties(v: AssetValue): seq<AssetProperty>
  {
    FieldProperties(v) + ExtraProperties(v.extensions)
  }

  /** Serialize writes exactly the tokens of its properties, inside one
      object. */
  lemma {:induction false} WrittenPropertiesTokens(v: AssetValue)
    ensures AssetTokens(v) == [StartObject] + PropertiesTokens(WrittenProperties(v)) + [EndObject]
  {
    var fp, ep := FieldProperties(v), ExtraProperties(v.extensions);
    PropertiesTokensAppend(fp, ep);
    FieldPropertiesTokens(v);
    ExtraPropertiesTokens(v.extensions);
    AppendAssoc([StartObject], FieldTokens(v), MembersTokens(v.extensions));
  }

  /** Applying the written properties to a new asset gives the asset back,
      with `minVersion` null. */
  lemma {:induction false} WrittenPropertiesApply(v: AssetValue)
    ensures ApplyAll(DefaultAsset, WrittenProperties(v)) == v.(minVersion := None)
  {
    var fp, ep := FieldProperties(v), ExtraProperties(v.extensions);
    FieldPropertiesApply(v);
    ApplyAllAppend(DefaultAsset, fp, ep);
    ApplyExtraProperties(v.(minVersion := None, extensions := []), v.extensions);
    assert [] + v.extensions == v.extensions;
  }

  /** A bag as deserialization leaves it makes the written properties well
      formed. */
  lemma {:induction false} WrittenPropertiesWellFormed(v: AssetValue)
    requires ValidExtensions(v.extensions, AssetNames)
    ensures WellFormed(WrittenProperties(v))
  {
    var fp: seq<AssetProperty>, ep: seq<AssetProperty> := FieldProperties(v), ExtraProperties(v.extensions);
    forall i | |fp| <= i < |fp + ep|
      ensures (fp + ep)[i] == ep[i - |fp|]
    {
    }
  }

  /** Round trip: what Serialize writes, Deserialize reads back as the same
      asset except for `minVersion`, which is lost, for every asset whose bag
      is as deserialization leaves it. */
  lemma {:induction false} RoundTrip(v: AssetValue, rest: seq<Token>)
    requires ValidExtensions(v.extensions, AssetNames)
    ensures DeserializeAsset(AssetTokens(v) + rest) == Ok((v.(minVersion := None), rest))
  {
    WrittenPropertiesTokens(v);
    WrittenPropertiesApply(v);
    WrittenPropertiesWellFormed(v);
    ReadsObject(WrittenProperties(v), rest);
  }

  /** An asset read from any stream, written and read again, comes back
      with `minVersion` null and everything else unchanged. */
  lemma {:induction false} SerializeIsStable(s: seq<Token>, rest: seq<Token>)
    requires DeserializeAsset(s).Ok?
    ensures DeserializeAsset(AssetTokens(DeserializeAsset(s).value.0) + rest) ==
            Ok((DeserializeAsset(s).value.0.(minVersion := None), rest))
  {
    DeserializedBagIsValid(s);
    RoundTrip(DeserializeAsset(s).value.0, rest);
  }

  /** `{"version": "2.0"}` reads with the other three strings null and is
      written back exactly. */
  lemma {:induction false} VersionOnlyExample(rest: seq<Token>)
    ensures DeserializeAsset([StartObject, PropertyName("version"), Str("2.0"), EndObject] + rest) ==
            Ok((AssetValue(None, None, Some("2.0"), None, []), rest))
    ensures AssetTokens(AssetValue(None, None, Some("2.0"), None, [])) ==
            [StartObject, PropertyName("version"), Str("2.0"), EndObject]
  {
    var v := AssetValue(None, None, Some("2.0"), None, []);
    var s := [StartObject, PropertyName("version"), Str("2.0"), EndObject];
    assert AssetTokens(v) == s;
    RoundTrip(v, rest);
  }

  /** `minVersion` is never written, whatever its value. */
  lemma MinVersionNotWritten(v: AssetValue)
    ensures AssetTokens(v) == AssetTokens(v.(minVersion := None))
    ensures PropertyName("minVersion") !in FieldTokens(v)
  {
  }

  /** With a bag as deserialization leaves it, no property Serialize writes
      is named `minVersion`: neither a field nor a bag entry. */
  lemma MinVersionNeverWritten(v: AssetValue)
    requires ValidExtensions(v.extensions, AssetNames)
    ensures forall i :: 0 <= i < |WrittenProperties(v)| ==>
              match WrittenProperties(v)[i]
              case Assign(f, _) => f != MinVersion
              case Extra(m) => m.name != "minVersion"
  {
    var fp, ep := FieldProperties(v), ExtraProperties(v.extensions);
    forall i | 0 <= i < |fp + ep|
      ensures match (fp + ep)[i]
              case Assign(f, _) => f != MinVersion
              case Extra(m) => m.name != "minVersion"
    {
      if i >= |fp| {
        assert (fp + ep)[i] == Extra(v.extensions[i - |fp|]);
      } else {
        assert (fp + ep)[i] == fp[i];
      }
    }
  }

  /** An exhausted stream gives the default asset and no error. */
  lemma EmptyStreamGivesDefault()
    ensures DeserializeAsset([]) == Ok((DefaultAsset, []))
  {
  }

  /** A stream that ends right after a string field's name gives the asset
      read so far, with that field null: `ReadAsString()` gives null at the
      end of the stream. */
  lemma TruncatedAfterStringName(v: AssetValue, name: string)
    requires name in AssetNames
    ensures ReadProperties([PropertyName(name)], v) == Ok((Set(v, FieldNamed(name).value, None), []))
  {
    assert [PropertyName(name)][1..] == [];
    assert ReadProperty(v, name, []) == Ok((Set(v, FieldNamed(name).value, None), []));
  }

  class Asset {
    var copyright: Option<string>
    var generator: Option<string>
    var version: Option<string>
    var minVersion: Option<string>
    /** The inherited extension bag. */
    var extensions: seq<Member>

    function Value(): AssetValue
      reads this
    {
      AssetValue(copyright, generator, version, minVersion, extensions)
    }

    constructor ()
      ensures copyright == None && generator == None && version == None && minVersion == None && extensions == []
      ensures Value() == DefaultAsset
    {
      copyright, generator, version, minVersion := None, None, None, None;
      extensions := [];
    }

    /** The copy constructor; a null asset leaves the defaults. */
    constructor Copy(other: Asset?)
      ensures other != null ==> Value() == other.Value()
      ensures other == null ==> Value() == DefaultAsset
    {
      copyright, generator, version, minVersion := None, None, None, None;
      extensions := [];
      if other != null {
        extensions := other.extensions;
        copyright := other.copyright;
        generator := other.generator;
        version := other.version;
        minVersion := other.minVersion;
      }
    }

    static method Deserialize(reader: JsonReader) returns (r: Result<Asset>)
      requires reader.Valid()
      modifies reader
      ensures reader.Valid()
      ensures match DeserializeAsset(old(reader.Remaining()))
              case Ok((v, rest)) => r.Ok? && fresh(r.value) && r.value.Value() == v && reader.Remaining() == rest
              case Err(e) => r == Err(e)
    {
      var asset := new Asset();
      var more := reader.Read();
      if more && reader.current.value != StartObject {
        return Err(NotAnObject);
      }
      var ok := asset.ReadPropertiesFrom(reader);
      if ok.Err? {
        return Err(ok.error);
      }
      r := Ok(asset);
    }

    /** The loop of Deserialize: one property per pass while the token read
        is a property name. */
    method ReadPropertiesFrom(reader: JsonReader) returns (r: Result<()>)
      requires reader.Valid()
      modifies this, reader
      ensures reader.Valid()
      ensures match ReadProperties(old(reader.Remaining()), old(Value()))
              case Ok((v, rest)) => r.Ok? && Value() == v && reader.Remaining() == rest
              case Err(e) => r == Err(e)
    {
      ghost var before := reader.Remaining();
      var more := reader.Read();
      while more && reader.current.value.PropertyName?
        invariant reader.Valid()
        invariant ReadProperties(old(reader.Remaining()), old(Value())) == ReadProperties(before, Value())
        invariant more == (before != [])
        invariant more ==> reader.current == Some(before[0]) && reader.Remaining() == before[1..]
        invariant !more ==> reader.Remaining() == [] && before == []
        decreases |reader.Remaining()| + (if more then 1 else 0)
      {
        var ok := DispatchProperty(reader);
        if ok.Err? {
          return Err(ok.error);
        }
        before := reader.Remaining();
        more := reader.Read();
      }
      r := Ok(());
    }

    /** The body of the loop in Deserialize: the switch on the property name
        the reader is on. */
    method DispatchProperty(reader: JsonReader) returns (r: Result<()>)
      requires reader.Valid() && reader.current.Some? && reader.current.value.PropertyName?
      modifies this, reader
      ensures reader.Valid()
      ensures match ReadProperty(old(Value()), old(reader.current.value.name), old(reader.Remaining()))
              case Ok((v, rest)) => r.Ok? && Value() == v && reader.Remaining() == rest
              case Err(e) => r == Err(e)
    {
      var name := reader.current.value.name;
      if name == "copyright" {
        var x :- reader.ReadAsString();
        copyright := x;
      } else if name == "generator" {
        var x :- reader.ReadAsString();
        generator := x;
      } else if name == "version" {
        var x :- reader.ReadAsString();
        version := x;
      } else if name == "minVersion" {
        var x :- reader.ReadAsString();
        minVersion := x;
      } else {
        var m :- DefaultPropertyDeserializer(reader);
        extensions := extensions + [m];
      }
      r := Ok(());
    }

    method Serialize(writer: JsonWriter)
      modifies writer
      ensures writer.output == old(writer.output) + AssetTokens(Value())
    {
      ghost var out := writer.output;
      ghost var fields := FieldTokens(Value());
      writer.WriteStartObject();
      WriteFields(writer);
      assert writer.output == out + [StartObject] + fields;
      WriteExtensions(writer, extensions);
      assert writer.output == out + [StartObject] + fields + MembersTokens(extensions);
      writer.WriteEndObject();
      AppendAssoc(out, [StartObject], fields);
      AppendedInOrder(out, [StartObject] + fields, MembersTokens(extensions), [EndObject]);
    }

    /** The strings, as Serialize writes them. */
    method WriteFields(writer: JsonWriter)
      modifies writer
      ensures writer.output == old(writer.output) + FieldTokens(Value())
    {
      ghost var out := writer.output;
      ghost var c := if copyright.Some? then [PropertyName("copyright"), StringToken(copyright)] else [];
      ghost var g := if generator.Some? then [PropertyName("generator"), StringToken(generator)] else [];
      if copyright.Some? {
        writer.WriteStringProperty("copyright", copyright);
      }
      assert writer.output == out + c;
      if generator.Some? {
        writer.WriteStringProperty("generator", generator);
      }
      AppendAssoc(out, c, g);
      writer.WriteStringProperty("version", version);
      AppendAssoc(out, c + g, [PropertyName("version"), StringToken(version)]);
    }
  }
}
