/** `CameraOrthographic`: the four parameters of an orthographic projection.
    All four start at 0 and all four are always written. */
module Orthographic {
  import opened JsonTokens
  import opened JsonStream
  import opened GltfProperty

  datatype OrthographicValue = OrthographicValue(
    xmag: Double,
    ymag: Double,
    zfar: Double,
    znear: Double,
    extensions: seq<Member>)

  /** The fields of a new CameraOrthographic. */
  const DefaultOrthographic: OrthographicValue :=
    OrthographicValue(Zero, Zero, Zero, Zero, [])

  /** The property names Deserialize recognises. */
  const OrthographicNames: set<string> := {"xmag", "ymag", "zfar", "znear"}

  datatype OrthographicField = Xmag | Ymag | Zfar | Znear

  function NameOf(f: OrthographicField): string
  {
    match f
    case Xmag => "xmag"
    case Ymag => "ymag"
    case Zfar => "zfar"
    case Znear => "znear"
  }

  /** The field a property name is dispatched to, by exact match. */
  function FieldNamed(name: string): (r: Option<OrthographicField>)
    ensures r.Some? <==> name in OrthographicNames
    ensures forall f :: r == Some(f) <==> NameOf(f) == name
  {
    if name == "xmag" then Some(Xmag)
    else if name == "ymag" then Some(Ymag)
    else if name == "zfar" then Some(Zfar)
    else if name == "znear" then Some(Znear)
    else None
  }

  function Get(v: OrthographicValue, f: OrthographicField): Double
  {
    match f
    case Xmag => v.xmag
    case Ymag => v.ymag
    case Zfar => v.zfar
    case Znear => v.znear
  }

  function Set(v: OrthographicValue, f: OrthographicField, d: Double): (w: OrthographicValue)
    ensures forall g :: Get(w, g) == if g == f then d else Get(v, g)
    ensures w.extensions == v.extensions
  {
    match f
    case Xmag => v.(xmag := d)
    case Ymag => v.(ymag := d)
    case Zfar => v.(zfar := d)
    case Znear => v.(znear := d)
  }

  /** One pass of the dispatch switch: the property `name` has been read and
      `s` holds the tokens after it. A recognised name sets its own field
      and nothing else; any other name adds one bag entry. */
  function ReadProperty(v: OrthographicValue, name: string, s: seq<Token>): (r: Result<(OrthographicValue, seq<Token>)>)
    ensures r.Ok? ==> SuffixOf(r.value.1, s) && |r.value.1| < |s|
    ensures name in OrthographicNames ==> (r.Ok? <==> s != [] && s[0].Number?)
    ensures r.Ok? && name in OrthographicNames ==>
              r.value.1 == s[1..] && r.value.0.extensions == v.extensions &&
              forall g :: Get(r.value.0, g) == if NameOf(g) == name then s[0].d else Get(v, g)
    ensures name in OrthographicNames && (s == [] || s[0].Null?) ==> r == Err(NullNumber)
    ensures name !in OrthographicNames ==> (r.Ok? <==> NextValue(s).Ok?)
    ensures r.Ok? && name !in OrthographicNames ==>
              r.value.0 == v.(extensions := v.extensions + [Member(name, s[..|s| - |r.value.1|])])
    ensures r.Ok? && ValidExtensions(v.extensions, OrthographicNames) ==>
              ValidExtensions(r.value.0.extensions, OrthographicNames)
  {
    match FieldNamed(name)
    case Some(f) =>
      (match NextNumber(s)
       case Err(e) => Err(e)
       case Ok((d, rest)) => Ok((Set(v, f, d), rest)))
    case None =>
      (match UnknownProperty(name, s)
       case Err(e) => Err(e)
       case Ok((m, rest)) =>
         assert m.raw == s[..|s| - |rest|];
         Ok((v.(extensions := v.extensions + [m]), rest)))
  }

  /** The loop `while (reader.Read() && reader.TokenType == PropertyName)`:
      it ends, consuming it, at the first token that is not a property name,
      or at the end of the stream. */
  function ReadProperties(s: seq<Token>, v: OrthographicValue): (r: Result<(OrthographicValue, seq<Token>)>)
    ensures r.Ok? ==> SuffixOf(r.value.1, s)
    ensures r.Err? ==> r.error != NotAnObject
    decreases |s|
  {
    if s == [] then Ok((v, []))
    else if !s[0].PropertyName? then Ok((v, s[1..]))
    else
      match ReadProperty(v, s[0].name, s[1..])
      case Err(e) => Err(e)
      case Ok((w, rest)) => ReadProperties(rest, w)
  }

  /** `CameraOrthographic.Deserialize`: a token that is read and is not
      StartObject fails; an exhausted stream gives the default camera. */
  function DeserializeOrthographic(s: seq<Token>): (r: Result<(OrthographicValue, seq<Token>)>)
    ensures r.Ok? ==> SuffixOf(r.value.1, s)
    ensures r == Err(NotAnObject) <==> s != [] && s[0] != StartObject
  {
    if s != [] && s[0] != StartObject then Err(NotAnObject)
    else ReadProperties(if s == [] then [] else s[1..], DefaultOrthographic)
  }

  /** The loop keeps the bag as deserialization leaves it. */
  lemma {:induction false} ReadPropertiesKeepsBagValid(s: seq<Token>, v: OrthographicValue)
    requires ValidExtensions(v.extensions, OrthographicNames)
    requires ReadProperties(s, v).Ok?
    ensures ValidExtensions(ReadProperties(s, v).value.0.extensions, OrthographicNames)
    decreases |s|
  {
    if s != [] && s[0].PropertyName? {
      var w := ReadProperty(v, s[0].name, s[1..]).value;
      ReadPropertiesKeepsBagValid(w.1, w.0);
    }
  }

  /** Every bag entry Deserialize creates has an unrecognised name and one
      complete value. */
  lemma DeserializedBagIsValid(s: seq<Token>)
    requires DeserializeOrthographic(s).Ok?
    ensures ValidExtensions(DeserializeOrthographic(s).value.0.extensions, OrthographicNames)
  {
    ReadPropertiesKeepsBagValid(if s == [] then [] else s[1..], DefaultOrthographic);
  }

  /** The tokens Serialize writes for the four numbers, all of them always. */
  function FieldTokens(v: OrthographicValue): seq<Token>
  {
    [PropertyName("xmag"), Number(v.xmag), PropertyName("ymag"), Number(v.ymag),
     PropertyName("zfar"), Number(v.zfar), PropertyName("znear"), Number(v.znear)]
  }

  /** The tokens `Serialize` writes. */
  function OrthographicTokens(v: OrthographicValue): seq<Token>
  {
    [StartObject] + FieldTokens(v) + MembersTokens(v.extensions) + [EndObject]
  }

  /** A property as it can appear in a orthographic camera object: one of the
      four numbers, or anything else, which goes to the extension bag. */
  datatype OrthographicProperty = Assign(field: OrthographicField, d: Double) | Extra(m: Member)

  function PropertyTokens(p: OrthographicProperty): seq<Token>
  {
    match p
    case Assign(f, d) => [PropertyName(NameOf(f)), Number(d)]
    case Extra(m) => [PropertyName(m.name)] + m.raw
  }

  function PropertiesTokens(ps: seq<OrthographicProperty>): seq<Token>
    decreases |ps|
  {
    if ps == [] then [] else PropertyTokens(ps[0]) + PropertiesTokens(ps[1..])
  }

  /** Every property outside the four carries a name Deserialize does not
      recognise and one complete value. */
  ghost predicate WellFormed(ps: seq<OrthographicProperty>)
  {
    forall i :: 0 <= i < |ps| ==> ps[i].Extra? ==> ps[i].m.name !in OrthographicNames && Complete(ps[i].m.raw)
  }

  /** What one property does to the camera. */
  function Apply(v: OrthographicValue, p: OrthographicProperty): OrthographicValue
  {
    match p
    case Assign(f, d) => Set(v, f, d)
    case Extra(m) => v.(extensions := v.extensions + [m])
  }

  /** The properties applied in input order. */
  function ApplyAll(v: OrthographicValue, ps: seq<OrthographicProperty>): OrthographicValue
    decreases |ps|
  {
    if ps == [] then v else ApplyAll(Apply(v, ps[0]), ps[1..])
  }

  /** The number in the last property of `ps` that names `f`, or `dflt` when
      none does. */
  function LastAssigned(ps: seq<OrthographicProperty>, f: OrthographicField, dflt: Double): Double
    decreases |ps|
  {
    if ps == [] then dflt
    else if ps[|ps| - 1].Assign? && ps[|ps| - 1].field == f then ps[|ps| - 1].d
    else LastAssigned(ps[..|ps| - 1], f, dflt)
  }

  /** The unrecognised properties of `ps`, in order. */
  function Extras(ps: seq<OrthographicProperty>): seq<Member>
    decreases |ps|
  {
    if ps == [] then []
    else Extras(ps[..|ps| - 1]) + (if ps[|ps| - 1].Extra? then [ps[|ps| - 1].m] else [])
  }

  lemma {:induction false} ReadsAssignment(f: OrthographicField, d: Double, tail: seq<Token>, v: OrthographicValue)
    ensures ReadProperties([PropertyName(NameOf(f)), Number(d)] + tail, v) == ReadProperties(tail, Set(v, f, d))
  {
    var s := [PropertyName(NameOf(f)), Number(d)] + tail;
    assert s[1..] == [Number(d)] + tail;
    assert ([Number(d)] + tail)[1..] == tail;
  }

  lemma {:induction false} ReadsExtra(m: Member, tail: seq<Token>, v: OrthographicValue)
    requires m.name !in OrthographicNames && Complete(m.raw)
    ensures ReadProperties([PropertyName(m.name)] + m.raw + tail, v) ==
            ReadProperties(tail, v.(extensions := v.extensions + [m]))
  {
    var s := [PropertyName(m.name)] + m.raw + tail;
    assert s[1..] == m.raw + tail;
    UnknownPropertyRoundTrip(m, tail);
  }

  /** Reading the tokens of well-formed properties applies them in order. */
  lemma {:induction false} ReadsProperties(ps: seq<OrthographicProperty>, tail: seq<Token>, v: OrthographicValue)
    requires WellFormed(ps)
    ensures ReadProperties(PropertiesTokens(ps) + tail, v) == ReadProperties(tail, ApplyAll(v, ps))
    decreases |ps|
  {
    if ps == [] {
      assert PropertiesTokens(ps) + tail == tail;
    } else {
      var rest := PropertiesTokens(ps[1..]) + tail;
      assert PropertiesTokens(ps) + tail == PropertyTokens(ps[0]) + rest;
      match ps[0] {
        case Assign(f, d) =>
          ReadsAssignment(f, d, rest, v);
        case Extra(m) =>
          assert PropertyTokens(ps[0]) + rest == [PropertyName(m.name)] + m.raw + rest;
          ReadsExtra(m, rest, v);
      }
      assert WellFormed(ps[1..]) by {
        forall i | 0 <= i < |ps[1..]| ensures ps[1..][i] == ps[i + 1] { }
      }
      ReadsProperties(ps[1..], tail, Apply(v, ps[0]));
    }
  }

  /** Deserialize on a well-formed object, whatever the order of its
      properties and however often a name repeats. */
  lemma {:induction false} ReadsObject(ps: seq<OrthographicProperty>, rest: seq<Token>)
    requires WellFormed(ps)
    ensures DeserializeOrthographic([StartObject] + PropertiesTokens(ps) + [EndObject] + rest) ==
            Ok((ApplyAll(DefaultOrthographic, ps), rest))
  {
    var tail := [EndObject] + rest;
    var body := PropertiesTokens(ps) + tail;
    var s := [StartObject] + PropertiesTokens(ps) + [EndObject] + rest;
    assert s == [StartObject] + body;
    assert s[0] == StartObject && s[1..] == body;
    assert DeserializeOrthographic(s) == ReadProperties(body, DefaultOrthographic);
    ReadsProperties(ps, tail, DefaultOrthographic);
    assert tail[0] == EndObject && tail[1..] == rest;
    assert ReadProperties(tail, ApplyAll(DefaultOrthographic, ps)) == Ok((ApplyAll(DefaultOrthographic, ps), rest));
  }

  lemma {:induction false} ApplyAllAppend(v: OrthographicValue, ps: seq<OrthographicProperty>, qs: seq<OrthographicProperty>)
    ensures ApplyAll(v, ps + qs) == ApplyAll(ApplyAll(v, ps), qs)
    decreases |ps|
  {
    if ps == [] {
      assert ps + qs == qs;
    } else {
      assert (ps + qs)[0] == ps[0];
      assert (ps + qs)[1..] == ps[1..] + qs;
      ApplyAllAppend(Apply(v, ps[0]), ps[1..], qs);
    }
  }

  /** Last one wins: each field ends up with the number of the last property
      naming it, or keeps its value; the unrecognised properties are added
      to the bag in input order. */
  lemma {:induction false} LastOneWins(v: OrthographicValue, ps: seq<OrthographicProperty>)
    ensures forall f :: Get(ApplyAll(v, ps), f) == LastAssigned(ps, f, Get(v, f))
    ensures ApplyAll(v, ps).extensions == v.extensions + Extras(ps)
    decreases |ps|
  {
    if ps != [] {
      var init, p := ps[..|ps| - 1], ps[|ps| - 1];
      assert ps == init + [p];
      ApplyAllAppend(v, init, [p]);
      LastOneWins(v, init);
      assert ApplyAll(v, ps) == Apply(ApplyAll(v, init), p);
    }
  }

  /** A field no property names keeps its value. */
  lemma {:induction false} UnassignedKeepsDefault(ps: seq<OrthographicProperty>, f: OrthographicField, dflt: Double)
    requires forall i :: 0 <= i < |ps| ==> !(ps[i].Assign? && ps[i].field == f)
    ensures LastAssigned(ps, f, dflt) == dflt
    decreases |ps|
  {
    if ps != [] {
      UnassignedKeepsDefault(ps[..|ps| - 1], f, dflt);
    }
  }

  /** A number an object leaves out stays 0. */
  lemma {:induction false} AbsentFieldIsZero(ps: seq<OrthographicProperty>, f: OrthographicField, rest: seq<Token>)
    requires WellFormed(ps)
    requires forall i :: 0 <= i < |ps| ==> !(ps[i].Assign? && ps[i].field == f)
    ensures DeserializeOrthographic([StartObject] + PropertiesTokens(ps) + [EndObject] + rest).Ok?
    ensures Get(DeserializeOrthographic([StartObject] + PropertiesTokens(ps) + [EndObject] + rest).value.0, f) == Zero
  {
    var w := ApplyAll(DefaultOrthographic, ps);
    ReadsObject(ps, rest);
    LastOneWins(DefaultOrthographic, ps);
    UnassignedKeepsDefault(ps, f, Zero);
    assert Get(DefaultOrthographic, f) == Zero;
    assert Get(w, f) == Zero;
  }

  /** The properties Serialize writes for the four numbers. */
  function FieldProperties(v: OrthographicValue): seq<OrthographicProperty>
  {
    [Assign(Xmag, v.xmag), Assign(Ymag, v.ymag), Assign(Zfar, v.zfar), Assign(Znear, v.znear)]
  }

  /** The bag entries as properties. */
  function ExtraProperties(ms: seq<Member>): (ps: seq<OrthographicProperty>)
    ensures |ps| == |ms| && forall i :: 0 <= i < |ms| ==> ps[i] == Extra(ms[i])
  {
    seq(|ms|, i requires 0 <= i < |ms| => Extra(ms[i]))
  }

  lemma {:induction false} PropertiesTokensAppend(ps: seq<OrthographicProperty>, qs: seq<OrthographicProperty>)
    ensures PropertiesTokens(ps + qs) == PropertiesTokens(ps) + PropertiesTokens(qs)
    decreases |ps|
  {
    if ps == [] {
      assert ps + qs == qs;
    } else {
      assert (ps + qs)[0] == ps[0];
      assert (ps + qs)[1..] == ps[1..] + qs;
      PropertiesTokensAppend(ps[1..], qs);
    }
  }

  lemma {:induction false} ExtraPropertiesTokens(ms: seq<Member>)
    ensures PropertiesTokens(ExtraProperties(ms)) == MembersTokens(ms)
    decreases |ms|
  {
    if ms != [] {
      assert ExtraProperties(ms)[1..] == ExtraProperties(ms[1..]);
      ExtraPropertiesTokens(ms[1..]);
    }
  }

  lemma {:induction false} ApplyExtraProperties(v: OrthographicValue, ms: seq<Member>)
    ensures ApplyAll(v, ExtraProperties(ms)) == v.(extensions := v.extensions + ms)
    decreases |ms|
  {
    if ms == [] {
      assert v.extensions + ms == v.extensions;
    } else {
      assert ExtraProperties(ms)[1..] == ExtraProperties(ms[1..]);
      ApplyExtraProperties(v.(extensions := v.extensions + [ms[0]]), ms[1..]);
      assert v.extensions + [ms[0]] + ms[1..] == v.extensions + ms;
    }
  }

  lemma {:induction false} PropertiesTokensCons(p: OrthographicProperty, ps: seq<OrthographicProperty>)
    ensures PropertiesTokens([p] + ps) == PropertyTokens(p) + PropertiesTokens(ps)
  {
    assert ([p] + ps)[0] == p && ([p] + ps)[1..] == ps;
  }

  lemma {:induction false} ApplyAllCons(v: OrthographicValue, p: OrthographicProperty, ps: seq<OrthographicProperty>)
    ensures ApplyAll(v, [p] + ps) == ApplyAll(Apply(v, p), ps)
  {
    assert ([p] + ps)[0] == p && ([p] + ps)[1..] == ps;
  }

  lemma FieldPropertiesTokens(v: OrthographicValue)
    ensures PropertiesTokens(FieldProperties(v)) == FieldTokens(v)
  {
    var a, b, c, d := Assign(Xmag, v.xmag), Assign(Ymag, v.ymag), Assign(Zfar, v.zfar), Assign(Znear, v.znear);
    assert FieldProperties(v) == [a] + ([b] + ([c] + ([d] + [])));
    PropertiesTokensCons(d, []);
    PropertiesTokensCons(c, [d] + []);
    PropertiesTokensCons(b, [c] + ([d] + []));
    PropertiesTokensCons(a, [b] + ([c] + ([d] + [])));
  }

  lemma FieldPropertiesApply(v: OrthographicValue)
    ensures ApplyAll(DefaultOrthographic, FieldProperties(v)) == v.(extensions := [])
  {
    var a, b, c, d := Assign(Xmag, v.xmag), Assign(Ymag, v.ymag), Assign(Zfar, v.zfar), Assign(Znear, v.znear);
    assert FieldProperties(v) == [a] + ([b] + ([c] + ([d] + [])));
    var w1 := Apply(DefaultOrthographic, a);
    var w2 := Apply(w1, b);
    var w3 := Apply(w2, c);
    ApplyAllCons(DefaultOrthographic, a, [b] + ([c] + ([d] + [])));
    ApplyAllCons(w1, b, [c] + ([d] + []));
    ApplyAllCons(w2, c, [d] + []);
    ApplyAllCons(w3, d, []);
  }

  /** The properties Serialize writes, in the order it writes them. */
  function WrittenProperties(v: OrthographicValue): seq<OrthographicProperty>
  {
    FieldProperties(v) + ExtraProperties(v.extensions)
  }

  /** Serialize writes exactly the tokens of its properties, inside one
      object. */
  lemma {:induction false} WrittenPropertiesTokens(v: OrthographicValue)
    ensures OrthographicTokens(v) == [StartObject] + PropertiesTokens(WrittenProperties(v)) + [EndObject]
  {
    var fp, ep := FieldProperties(v), ExtraProperties(v.extensions);
    PropertiesTokensAppend(fp, ep);
    FieldPropertiesTokens(v);
    ExtraPropertiesTokens(v.extensions);
    AppendAssoc([StartObject], FieldTokens(v), MembersTokens(v.extensions));
  }

  /** Applying the written properties to a new camera gives the camera back. */
  lemma {:induction false} WrittenPropertiesApply(v: OrthographicValue)
    ensures ApplyAll(DefaultOrthographic, WrittenProperties(v)) == v
  {
    var fp, ep := FieldProperties(v), ExtraProperties(v.extensions);
    FieldPropertiesApply(v);
    ApplyAllAppend(DefaultOrthographic, fp, ep);
    ApplyExtraProperties(v.(extensions := []), v.extensions);
    assert [] + v.extensions == v.extensions;
  }

  /** A bag as deserialization leaves it makes the written properties well
      formed. */
  lemma {:induction false} WrittenPropertiesWellFormed(v: OrthographicValue)
    requires ValidExtensions(v.extensions, OrthographicNames)
    ensures WellFormed(WrittenProperties(v))
  {
    var fp: seq<OrthographicProperty>, ep: seq<OrthographicProperty> := FieldProperties(v), ExtraProperties(v.extensions);
    forall i | |fp| <= i < |fp + ep|
      ensures (fp + ep)[i] == ep[i - |fp|]
    {
    }
  }

  /** Round trip: what Serialize writes, Deserialize reads back as the same
      camera, for every camera whose bag is as deserialization leaves it. */
  lemma {:induction false} RoundTrip(v: OrthographicValue, rest: seq<Token>)
    requires ValidExtensions(v.extensions, OrthographicNames)
    ensures DeserializeOrthographic(OrthographicTokens(v) + rest) == Ok((v, rest))
  {
    WrittenPropertiesTokens(v);
    WrittenPropertiesApply(v);
    WrittenPropertiesWellFormed(v);
    ReadsObject(WrittenProperties(v), rest);
  }

  /** Deserializing the output of Serialize and serializing again writes the
      same tokens. */
  lemma {:induction false} SerializeIsStable(s: seq<Token>, rest: seq<Token>)
    requires DeserializeOrthographic(s).Ok?
    ensures DeserializeOrthographic(OrthographicTokens(DeserializeOrthographic(s).value.0) + rest) ==
            Ok((DeserializeOrthographic(s).value.0, rest))
  {
    DeserializedBagIsValid(s);
    RoundTrip(DeserializeOrthographic(s).value.0, rest);
  }

  /** `{"ymag": b, "xmag": a}` reads with the other two numbers at 0 and is
      written back in the fixed order, with all four numbers. */
  lemma {:induction false} AnyOrderExample(a: Double, b: Double, rest: seq<Token>)
    ensures DeserializeOrthographic([StartObject] + [PropertyName("ymag"), Number(b)] + [PropertyName("xmag"), Number(a)]
                                    + [EndObject] + rest) ==
            Ok((OrthographicValue(a, b, Zero, Zero, []), rest))
    ensures OrthographicTokens(OrthographicValue(a, b, Zero, Zero, [])) ==
            [StartObject]
            + [PropertyName("xmag"), Number(a), PropertyName("ymag"), Number(b),
               PropertyName("zfar"), Number(Zero), PropertyName("znear"), Number(Zero)]
            + [EndObject]
  {
    var y, x := Assign(Ymag, b), Assign(Xmag, a);
    var ps := [y] + ([x] + []);
    assert PropertiesTokens(ps) == PropertyTokens(y) + PropertyTokens(x) by {
      PropertiesTokensCons(x, []);
      PropertiesTokensCons(y, [x] + []);
    }
    assert ApplyAll(DefaultOrthographic, ps) == OrthographicValue(a, b, Zero, Zero, []) by {
      ApplyAllCons(DefaultOrthographic, y, [x] + []);
      ApplyAllCons(DefaultOrthographic.(ymag := b), x, []);
    }
    ReadsObject(ps, rest);
    AppendAssoc([StartObject], PropertyTokens(y), PropertyTokens(x));
  }

  /** An exhausted stream gives the default camera and no error. */
  lemma EmptyStreamGivesDefault()
    ensures DeserializeOrthographic([]) == Ok((DefaultOrthographic, []))
  {
  }

  class CameraOrthographic {
    var xmag: Double
    var ymag: Double
    var zfar: Double
    var znear: Double
    /** The inherited extension bag. */
    var extensions: seq<Member>

    function Value(): OrthographicValue
      reads this
    {
      OrthographicValue(xmag, ymag, zfar, znear, extensions)
    }

    constructor ()
      ensures xmag == Zero && ymag == Zero && zfar == Zero && znear == Zero && extensions == []
      ensures Value() == DefaultOrthographic
    {
      xmag, ymag, zfar, znear := Zero, Zero, Zero, Zero;
      extensions := [];
    }

    /** The copy constructor; it takes a camera that is not null. */
    constructor Copy(other: CameraOrthographic)
      ensures Value() == other.Value()
    {
      extensions := other.extensions;
      xmag := other.xmag;
      ymag := other.ymag;
      zfar := other.zfar;
      znear := other.znear;
    }

    static method Deserialize(reader: JsonReader) returns (r: Result<CameraOrthographic>)
      requires reader.Valid()
      modifies reader
      ensures reader.Valid()
      ensures match DeserializeOrthographic(old(reader.Remaining()))
              case Ok((v, rest)) => r.Ok? && fresh(r.value) && r.value.Value() == v && reader.Remaining() == rest
              case Err(e) => r == Err(e)
    {
      var camera := new CameraOrthographic();
      var more := reader.Read();
      if more && reader.current.value != StartObject {
        return Err(NotAnObject);
      }
      var ok := camera.ReadPropertiesFrom(reader);
      if ok.Err? {
        return Err(ok.error);
      }
      r := Ok(camera);
    }

    /** The loop of Deserialize: one property per pass while the token read
        is a property name. */
    method ReadPropertiesFrom(reader: JsonReader) returns (r: Result<()>)
      requires reader.Valid()
      modifies this, reader
      ensures reader.Valid()
      ensures match ReadProperties(old(reader.Remaining()), old(Value()))
              case Ok((v, rest)) => r.Ok? && Value() == v && reader.Remaining() == rest
              case Err(e) => r == Err(e)
    {
      ghost var before := reader.Remaining();
      var more := reader.Read();
      while more && reader.current.value.PropertyName?
        invariant reader.Valid()
        invariant ReadProperties(old(reader.Remaining()), old(Value())) == ReadProperties(before, Value())
        invariant more == (before != [])
        invariant more ==> reader.current == Some(before[0]) && reader.Remaining() == before[1..]
        invariant !more ==> reader.Remaining() == [] && before == []
        decreases |reader.Remaining()|
      {
        var ok := DispatchProperty(reader);
        if ok.Err? {
          return Err(ok.error);
        }
        before := reader.Remaining();
        more := reader.Read();
      }
      r := Ok(());
    }

    /** The body of the loop in Deserialize: the switch on the property name
        the reader is on. */
    method DispatchProperty(reader: JsonReader) returns (r: Result<()>)
      requires reader.Valid() && reader.current.Some? && reader.current.value.PropertyName?
      modifies this, reader
      ensures reader.Valid()
      ensures match ReadProperty(old(Value()), old(reader.current.value.name), old(reader.Remaining()))
              case Ok((v, rest)) => r.Ok? && Value() == v && reader.Remaining() == rest
              case Err(e) => r == Err(e)
    {
      var name := reader.current.value.name;
      if name == "xmag" {
        var d :- ReadDoubleValue(reader);
        xmag := d;
      } else if name == "ymag" {
        var d :- ReadDoubleValue(reader);
        ymag := d;
      } else if name == "zfar" {
        var d :- ReadDoubleValue(reader);
        zfar := d;
      } else if name == "znear" {
        var d :- ReadDoubleValue(reader);
        znear := d;
      } else {
        var m :- DefaultPropertyDeserializer(reader);
        extensions := extensions + [m];
      }
      r := Ok(());
    }

    method Serialize(writer: JsonWriter)
      modifies writer
      ensures writer.output == old(writer.output) + OrthographicTokens(Value())
    {
      ghost var out := writer.output;
      ghost var fields := FieldTokens(Value());
      writer.WriteStartObject();
      WriteFields(writer);
      assert writer.output == out + [StartObject] + fields;
      WriteExtensions(writer, extensions);
      assert writer.output == out + [StartObject] + fields + MembersTokens(extensions);
      writer.WriteEndObject();
      AppendAssoc(out, [StartObject], fields);
      AppendedInOrder(out, [StartObject] + fields, MembersTokens(extensions), [EndObject]);
    }

    /** The four numbers, as Serialize writes them. */
    method WriteFields(writer: JsonWriter)
      modifies writer
      ensures writer.output == old(writer.output) + FieldTokens(Value())
    {
      writer.WriteNumberProperty("xmag", xmag);
      writer.WriteNumberProperty("ymag", ymag);
      writer.WriteNumberProperty("zfar", zfar);
      writer.WriteNumberProperty("znear", znear);
    }
  }
}
