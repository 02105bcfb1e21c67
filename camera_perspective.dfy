/** `CameraPerspective`: the four parameters of a perspective projection.
    `zfar` starts at positive infinity, which stands for "no far clipping
    plane" and is never written out; `aspectRatio` is not written while it
    is 0. */
module Perspective {
  import opened JsonTokens
  import opened JsonStream
  import opened GltfProperty

  datatype PerspectiveValue = PerspectiveValue(
    aspectRatio: Double,
    yfov: Double,
    zfar: Double,
    znear: Double,
    extensions: seq<Member>)

  /** The fields of a new CameraPerspective. */
  const DefaultPerspective: PerspectiveValue :=
    PerspectiveValue(Zero, Zero, PositiveInfinity, Zero, [])

  /** The property names Deserialize recognises. */
  const PerspectiveNames: set<string> := {"aspectRatio", "yfov", "zfar", "znear"}

  datatype PerspectiveField = AspectRatio | Yfov | Zfar | Znear

  function NameOf(f: PerspectiveField): string
  {
    match f
    case AspectRatio => "aspectRatio"
    case Yfov => "yfov"
    case Zfar => "zfar"
    case Znear => "znear"
  }

  /** The field a property name is dispatched to, by exact match. */
  function FieldNamed(name: string): (r: Option<PerspectiveField>)
    ensures r.Some? <==> name in PerspectiveNames
    ensures forall f :: r == Some(f) <==> NameOf(f) == name
  {
    if name == "aspectRatio" then Some(AspectRatio)
    else if name == "yfov" then Some(Yfov)
    else if name == "zfar" then Some(Zfar)
    else if name == "znear" then Some(Znear)
    else None
  }

  function Get(v: PerspectiveValue, f: PerspectiveField): Double
  {
    match f
    case AspectRatio => v.aspectRatio
    case Yfov => v.yfov
    case Zfar => v.zfar
    case Znear => v.znear
  }

  function Set(v: PerspectiveValue, f: PerspectiveField, d: Double): (w: PerspectiveValue)
    ensures forall g :: Get(w, g) == if g == f then d else Get(v, g)
    ensures w.extensions == v.extensions
  {
    match f
    case AspectRatio => v.(aspectRatio := d)
    case Yfov => v.(yfov := d)
    case Zfar => v.(zfar := d)
    case Znear => v.(znear := d)
  }

  /** One pass of the dispatch switch: the property `name` has been read and
      `s` holds the tokens after it. A recognised name sets its own field
      and nothing else; any other name adds one bag entry. */
  function ReadProperty(v: PerspectiveValue, name: string, s: seq<Token>): (r: Result<(PerspectiveValue, seq<Token>)>)
    ensures r.Ok? ==> SuffixOf(r.value.1, s) && |r.value.1| < |s|
    ensures name in PerspectiveNames ==> (r.Ok? <==> s != [] && s[0].Number?)
    ensures r.Ok? && name in PerspectiveNames ==>
              r.value.1 == s[1..] && r.value.0.extensions == v.extensions &&
              forall g :: Get(r.value.0, g) == if NameOf(g) == name then s[0].d else Get(v, g)
    ensures name in PerspectiveNames && (s == [] || s[0].Null?) ==> r == Err(NullNumber)
    ensures name !in PerspectiveNames ==> (r.Ok? <==> NextValue(s).Ok?)
    ensures r.Ok? && name !in PerspectiveNames ==>
              r.value.0 == v.(extensions := v.extensions + [Member(name, s[..|s| - |r.value.1|])])
    ensures r.Ok? && ValidExtensions(v.extensions, PerspectiveNames) ==>
              ValidExtensions(r.value.0.extensions, PerspectiveNames)
  {
    match FieldNamed(name)
    case Some(f) =>
      (match NextNumber(s)
       case Err(e) => Err(e)
       case Ok((d, rest)) => Ok((Set(v, f, d), rest)))
    case None =>
      (match UnknownProperty(name, s)
       case Err(e) => Err(e)
       case Ok((m, rest)) =>
         assert m.raw == s[..|s| - |rest|];
         Ok((v.(extensions := v.extensions + [m]), rest)))
  }

  /** The loop `while (reader.Read() && reader.TokenType == PropertyName)`:
      it ends, consuming it, at the first token that is not a property name,
      or at the end of the stream. */
  function ReadProperties(s: seq<Token>, v: PerspectiveValue): (r: Result<(PerspectiveValue, seq<Token>)>)
    ensures r.Ok? ==> SuffixOf(r.value.1, s)
    ensures r.Err? ==> r.error != NotAnObject
    decreases |s|
  {
    if s == [] then Ok((v, []))
    else if !s[0].PropertyName? then Ok((v, s[1..]))
    else
      match ReadProperty(v, s[0].name, s[1..])
      case Err(e) => Err(e)
      case Ok((w, rest)) => ReadProperties(rest, w)
  }

  /** `CameraPerspective.Deserialize`: a token that is read and is not
      StartObject fails; an exhausted stream gives the default camera. */
  function DeserializePerspective(s: seq<Token>): (r: Result<(PerspectiveValue, seq<Token>)>)
    ensures r.Ok? ==> SuffixOf(r.value.1, s)
    ensures r == Err(NotAnObject) <==> s != [] && s[0] != StartObject
  {
    if s != [] && s[0] != StartObject then Err(NotAnObject)
    else ReadProperties(if s == [] then [] else s[1..], DefaultPerspective)
  }

  /** The loop keeps the bag as deserialization leaves it. */
  lemma {:induction false} ReadPropertiesKeepsBagValid(s: seq<Token>, v: PerspectiveValue)
    requires ValidExtensions(v.extensions, PerspectiveNames)
    requires ReadProperties(s, v).Ok?
    ensures ValidExtensions(ReadProperties(s, v).value.0.extensions, PerspectiveNames)
    decreases |s|
  {
    if s != [] && s[0].PropertyName? {
      var w := ReadProperty(v, s[0].name, s[1..]).value;
      ReadPropertiesKeepsBagValid(w.1, w.0);
    }
  }

  /** Every bag entry Deserialize creates has an unrecognised name and one
      complete value. */
  lemma DeserializedBagIsValid(s: seq<Token>)
    requires DeserializePerspective(s).Ok?
    ensures ValidExtensions(DeserializePerspective(s).value.0.extensions, PerspectiveNames)
  {
    ReadPropertiesKeepsBagValid(if s == [] then [] else s[1..], DefaultPerspective);
  }

  /** The tokens Serialize writes for the four numbers: `aspectRatio` only
      when it is not 0, `zfar` only when it is not positive infinity. */
  function FieldTokens(v: PerspectiveValue): seq<Token>
  {
    (if v.aspectRatio != Zero then [PropertyName("aspectRatio"), Number(v.aspectRatio)] else [])
    + [PropertyName("yfov"), Number(v.yfov)]
    + (if v.zfar != PositiveInfinity then [PropertyName("zfar"), Number(v.zfar)] else [])
    + [PropertyName("znear"), Number(v.znear)]
  }

  /** The tokens `Serialize` writes. */
  function PerspectiveTokens(v: PerspectiveValue): seq<Token>
  {
    [StartObject] + FieldTokens(v) + MembersTokens(v.extensions) + [EndObject]
  }

  /** A property as it can appear in a perspective camera object: one of the
      four numbers, or anything else, which goes to the extension bag. */
  datatype PerspectiveProperty = Assign(field: PerspectiveField, d: Double) | Extra(m: Member)

  function PropertyTokens(p: PerspectiveProperty): seq<Token>
  {
    match p
    case Assign(f, d) => [PropertyName(NameOf(f)), Number(d)]
    case Extra(m) => [PropertyName(m.name)] + m.raw
  }

  function PropertiesTokens(ps: seq<PerspectiveProperty>): seq<Token>
    decreases |ps|
  {
    if ps == [] then [] else PropertyTokens(ps[0]) + PropertiesTokens(ps[1..])
  }

  /** Every property outside the four carries a name Deserialize does not
      recognise and one complete value. */
  ghost predicate WellFormed(ps: seq<PerspectiveProperty>)
  {
    forall i :: 0 <= i < |ps| ==> ps[i].Extra? ==> ps[i].m.name !in PerspectiveNames && Complete(ps[i].m.raw)
  }

  /** What one property does to the camera. */
  function Apply(v: PerspectiveValue, p: PerspectiveProperty): PerspectiveValue
  {
    match p
    case Assign(f, d) => Set(v, f, d)
    case Extra(m) => v.(extensions := v.extensions + [m])
  }

  /** The properties applied in input order. */
  function ApplyAll(v: PerspectiveValue, ps: seq<PerspectiveProperty>): PerspectiveValue
    decreases |ps|
  {
    if ps == [] then v else ApplyAll(Apply(v, ps[0]), ps[1..])
  }

  /** The number in the last property of `ps` that names `f`, or `dflt` when
      none does. */
  function LastAssigned(ps: seq<PerspectiveProperty>, f: PerspectiveField, dflt: Double): Double
    decreases |ps|
  {
    if ps == [] then dflt
    else if ps[|ps| - 1].Assign? && ps[|ps| - 1].field == f then ps[|ps| - 1].d
    else LastAssigned(ps[..|ps| - 1], f, dflt)
  }

  /** The unrecognised properties of `ps`, in order. */
  function Extras(ps: seq<PerspectiveProperty>): seq<Member>
    decreases |ps|
  {
    if ps == [] then []
    else Extras(ps[..|ps| - 1]) + (if ps[|ps| - 1].Extra? then [ps[|ps| - 1].m] else [])
  }

  lemma {:induction false} ReadsAssignment(f: PerspectiveField, d: Double, tail: seq<Token>, v: PerspectiveValue)
    ensures ReadProperties([PropertyName(NameOf(f)), Number(d)] + tail, v) == ReadProperties(tail, Set(v, f, d))
  {
    var s := [PropertyName(NameOf(f)), Number(d)] + tail;
    assert s[1..] == [Number(d)] + tail;
    assert ([Number(d)] + tail)[1..] == tail;
  }

  lemma {:induction false} ReadsExtra(m: Member, tail: seq<Token>, v: PerspectiveValue)
    requires m.name !in PerspectiveNames && Complete(m.raw)
    ensures ReadProperties([PropertyName(m.name)] + m.raw + tail, v) ==
            ReadProperties(tail, v.(extensions := v.extensions + [m]))
  {
    var s := [PropertyName(m.name)] + m.raw + tail;
    assert s[1..] == m.raw + tail;
    UnknownPropertyRoundTrip(m, tail);
  }

  /** Reading the tokens of well-formed properties applies them in order. */
  lemma {:induction false} ReadsProperties(ps: seq<PerspectiveProperty>, tail: seq<Token>, v: PerspectiveValue)
    requires WellFormed(ps)
    ensures ReadProperties(PropertiesTokens(ps) + tail, v) == ReadProperties(tail, ApplyAll(v, ps))
    decreases |ps|
  {
    if ps == [] {
      assert PropertiesTokens(ps) + tail == tail;
    } else {
      var rest := PropertiesTokens(ps[1..]) + tail;
      assert PropertiesTokens(ps) + tail == PropertyTokens(ps[0]) + rest;
      match ps[0] {
        case Assign(f, d) =>
          ReadsAssignment(f, d, rest, v);
        case Extra(m) =>
          assert PropertyTokens(ps[0]) + rest == [PropertyName(m.name)] + m.raw + rest;
          ReadsExtra(m, rest, v);
      }
      assert WellFormed(ps[1..]) by {
        forall i | 0 <= i < |ps[1..]| ensures ps[1..][i] == ps[i + 1] { }
      }
      ReadsProperties(ps[1..], tail, Apply(v, ps[0]));
    }
  }

  /** Deserialize on a well-formed object, whatever the order of its
      properties and however often a name repeats. */
  lemma {:induction false} ReadsObject(ps: seq<PerspectiveProperty>, rest: seq<Token>)
    requires WellFormed(ps)
    ensures DeserializePerspective([StartObject] + PropertiesTokens(ps) + [EndObject] + rest) ==
            Ok((ApplyAll(DefaultPerspective, ps), rest))
  {
    var tail := [EndObject] + rest;
    var body := PropertiesTokens(ps) + tail;
    var s := [StartObject] + PropertiesTokens(ps) + [EndObject] + rest;
    assert s == [StartObject] + body;
    assert s[0] == StartObject && s[1..] == body;
    assert DeserializePerspective(s) == ReadProperties(body, DefaultPerspective);
    ReadsProperties(ps, tail, DefaultPerspective);
    assert tail[0] == EndObject && tail[1..] == rest;
    assert ReadProperties(tail, ApplyAll(DefaultPerspective, ps)) == Ok((ApplyAll(DefaultPerspective, ps), rest));
  }

  lemma {:induction false} ApplyAllAppend(v: PerspectiveValue, ps: seq<PerspectiveProperty>, qs: seq<PerspectiveProperty>)
    ensures ApplyAll(v, ps + qs) == ApplyAll(ApplyAll(v, ps), qs)
    decreases |ps|
  {
    if ps == [] {
      assert ps + qs == qs;
    } else {
      assert (ps + qs)[0] == ps[0];
      assert (ps + qs)[1..] == ps[1..] + qs;
      ApplyAllAppend(Apply(v, ps[0]), ps[1..], qs);
    }
  }

  /** Last one wins: each field ends up with the number of the last property
      naming it, or keeps its value; the unrecognised properties are added
      to the bag in input order. */
  lemma {:induction false} LastOneWins(v: PerspectiveValue, ps: seq<PerspectiveProperty>)
    ensures forall f :: Get(ApplyAll(v, ps), f) == LastAssigned(ps, f, Get(v, f))
    ensures ApplyAll(v, ps).extensions == v.extensions + Extras(ps)
    decreases |ps|
  {
    if ps != [] {
      var init, p := ps[..|ps| - 1], ps[|ps| - 1];
      assert ps == init + [p];
      ApplyAllAppend(v, init, [p]);
      LastOneWins(v, init);
      assert ApplyAll(v, ps) == Apply(ApplyAll(v, init), p);
    }
  }

  /** A field no property names keeps its value. */
  lemma {:induction false} UnassignedKeepsDefault(ps: seq<PerspectiveProperty>, f: PerspectiveField, dflt: Double)
    requires forall i :: 0 <= i < |ps| ==> !(ps[i].Assign? && ps[i].field == f)
    ensures LastAssigned(ps, f, dflt) == dflt
    decreases |ps|
  {
    if ps != [] {
      UnassignedKeepsDefault(ps[..|ps| - 1], f, dflt);
    }
  }

  /** An object without `zfar` leaves it at positive infinity. */
  lemma {:induction false} AbsentZfarIsInfinite(ps: seq<PerspectiveProperty>, rest: seq<Token>)
    requires WellFormed(ps)
    requires forall i :: 0 <= i < |ps| ==> !(ps[i].Assign? && ps[i].field == Zfar)
    ensures DeserializePerspective([StartObject] + PropertiesTokens(ps) + [EndObject] + rest).Ok?
    ensures DeserializePerspective([StartObject] + PropertiesTokens(ps) + [EndObject] + rest).value.0.zfar == PositiveInfinity
  {
    var w := ApplyAll(DefaultPerspective, ps);
    ReadsObject(ps, rest);
    LastOneWins(DefaultPerspective, ps);
    UnassignedKeepsDefault(ps, Zfar, PositiveInfinity);
    assert Get(w, Zfar) == PositiveInfinity;
    assert w.zfar == PositiveInfinity;
  }

  /** The properties Serialize writes for the four numbers. */
  function FieldProperties(v: PerspectiveValue): seq<PerspectiveProperty>
  {
    (if v.aspectRatio != Zero then [Assign(AspectRatio, v.aspectRatio)] else [])
    + [Assign(Yfov, v.yfov)]
    + (if v.zfar != PositiveInfinity then [Assign(Zfar, v.zfar)] else [])
    + [Assign(Znear, v.znear)]
  }

  /** The bag entries as properties. */
  function ExtraProperties(ms: seq<Member>): (ps: seq<PerspectiveProperty>)
    ensures |ps| == |ms| && forall i :: 0 <= i < |ms| ==> ps[i] == Extra(ms[i])
  {
    seq(|ms|, i requires 0 <= i < |ms| => Extra(ms[i]))
  }

  lemma {:induction false} PropertiesTokensAppend(ps: seq<PerspectiveProperty>, qs: seq<PerspectiveProperty>)
    ensures PropertiesTokens(ps + qs) == PropertiesTokens(ps) + PropertiesTokens(qs)
    decreases |ps|
  {
    if ps == [] {
      assert ps + qs == qs;
    } else {
      assert (ps + qs)[0] == ps[0];
      assert (ps + qs)[1..] == ps[1..] + qs;
      PropertiesTokensAppend(ps[1..], qs);
    }
  }

  lemma {:induction false} ExtraPropertiesTokens(ms: seq<Member>)
    ensures PropertiesTokens(ExtraProperties(ms)) == MembersTokens(ms)
    decreases |ms|
  {
    if ms != [] {
      assert ExtraProperties(ms)[1..] == ExtraProperties(ms[1..]);
      ExtraPropertiesTokens(ms[1..]);
    }
  }

  lemma {:induction false} ApplyExtraProperties(v: PerspectiveValue, ms: seq<Member>)
    ensures ApplyAll(v, ExtraProperties(ms)) == v.(extensions := v.extensions + ms)
    decreases |ms|
  {
    if ms == [] {
      assert v.extensions + ms == v.extensions;
    } else {
      assert ExtraProperties(ms)[1..] == ExtraProperties(ms[1..]);
      ApplyExtraProperties(v.(extensions := v.extensions + [ms[0]]), ms[1..]);
      assert v.extensions + [ms[0]] + ms[1..] == v.extensions + ms;
    }
  }

  lemma FieldPropertiesTokens(v: PerspectiveValue)
    ensures PropertiesTokens(FieldProperties(v)) == FieldTokens(v)
  {
    var ar := if v.aspectRatio != Zero then [Assign(AspectRatio, v.aspectRatio)] else [];
    var zf := if v.zfar != PositiveInfinity then [Assign(Zfar, v.zfar)] else [];
    assert PropertiesTokens([Assign(Znear, v.znear)]) == [PropertyName("znear"), Number(v.znear)];
    assert PropertiesTokens([Assign(Yfov, v.yfov)]) == [PropertyName("yfov"), Number(v.yfov)];
    assert PropertiesTokens([Assign(Zfar, v.zfar)]) == [PropertyName("zfar"), Number(v.zfar)];
    assert PropertiesTokens([Assign(AspectRatio, v.aspectRatio)]) == [PropertyName("aspectRatio"), Number(v.aspectRatio)];
    PropertiesTokensAppend(ar, [Assign(Yfov, v.yfov)]);
    PropertiesTokensAppend(ar + [Assign(Yfov, v.yfov)], zf);
    PropertiesTokensAppend(ar + [Assign(Yfov, v.yfov)] + zf, [Assign(Znear, v.znear)]);
  }

  lemma FieldPropertiesApply(v: PerspectiveValue)
    ensures ApplyAll(DefaultPerspective, FieldProperties(v)) == v.(extensions := [])
  {
    var ar := if v.aspectRatio != Zero then [Assign(AspectRatio, v.aspectRatio)] else [];
    var zf := if v.zfar != PositiveInfinity then [Assign(Zfar, v.zfar)] else [];
    var w1 := DefaultPerspective.(aspectRatio := v.aspectRatio);
    var w2 := w1.(yfov := v.yfov);
    var w3 := w2.(zfar := v.zfar);
    assert ApplyAll(DefaultPerspective, ar) == w1;
    assert ApplyAll(w1, [Assign(Yfov, v.yfov)]) == w2;
    assert ApplyAll(w2, zf) == w3;
    assert ApplyAll(w3, [Assign(Znear, v.znear)]) == v.(extensions := []);
    ApplyAllAppend(DefaultPerspective, ar, [Assign(Yfov, v.yfov)]);
    ApplyAllAppend(DefaultPerspective, ar + [Assign(Yfov, v.yfov)], zf);
    ApplyAllAppend(DefaultPerspective, ar + [Assign(Yfov, v.yfov)] + zf, [Assign(Znear, v.znear)]);
  }

  /** The properties Serialize writes, in the order it writes them. */
  function WrittenProperties(v: PerspectiveValue): seq<PerspectiveProperty>
  {
    FieldProperties(v) + ExtraProperties(v.extensions)
  }

  /** Serialize writes exactly the tokens of its properties, inside one
      object. */
  lemma {:induction false} WrittenPropertiesTokens(v: PerspectiveValue)
    ensures PerspectiveTokens(v) == [StartObject] + PropertiesTokens(WrittenProperties(v)) + [EndObject]
  {
    var fp, ep := FieldProperties(v), ExtraProperties(v.extensions);
    PropertiesTokensAppend(fp, ep);
    FieldPropertiesTokens(v);
    ExtraPropertiesTokens(v.extensions);
    AppendAssoc([StartObject], FieldTokens(v), MembersTokens(v.extensions));
  }

  /** Applying the written properties to a new camera gives the camera back. */
  lemma {:induction false} WrittenPropertiesApply(v: PerspectiveValue)
    ensures ApplyAll(DefaultPerspective, WrittenProperties(v)) == v
  {
    var fp, ep := FieldProperties(v), ExtraProperties(v.extensions);
    FieldPropertiesApply(v);
    ApplyAllAppend(DefaultPerspective, fp, ep);
    ApplyExtraProperties(v.(extensions := []), v.extensions);
    assert [] + v.extensions == v.extensions;
  }

  /** A bag as deserialization leaves it makes the written properties well
      formed. */
  lemma {:induction false} WrittenPropertiesWellFormed(v: PerspectiveValue)
    requires ValidExtensions(v.extensions, PerspectiveNames)
    ensures WellFormed(WrittenProperties(v))
  {
    var fp: seq<PerspectiveProperty>, ep: seq<PerspectiveProperty> := FieldProperties(v), ExtraProperties(v.extensions);
    forall i | |fp| <= i < |fp + ep|
      ensures (fp + ep)[i] == ep[i - |fp|]
    {
    }
  }

  /** Round trip: what Serialize writes, Deserialize reads back as the same
      camera, for every camera whose bag is as deserialization leaves it. */
  lemma {:induction false} RoundTrip(v: PerspectiveValue, rest: seq<Token>)
    requires ValidExtensions(v.extensions, PerspectiveNames)
    ensures DeserializePerspective(PerspectiveTokens(v) + rest) == Ok((v, rest))
  {
    WrittenPropertiesTokens(v);
    WrittenPropertiesApply(v);
    WrittenPropertiesWellFormed(v);
    ReadsObject(WrittenProperties(v), rest);
  }

  /** Deserializing the output of Serialize and serializing again writes the
      same tokens. */
  lemma {:induction false} SerializeIsStable(s: seq<Token>, rest: seq<Token>)
    requires DeserializePerspective(s).Ok?
    ensures DeserializePerspective(PerspectiveTokens(DeserializePerspective(s).value.0) + rest) ==
            Ok((DeserializePerspective(s).value.0, rest))
  {
    DeserializedBagIsValid(s);
    RoundTrip(DeserializePerspective(s).value.0, rest);
  }

  /** `{"yfov": a, "znear": b}` reads with zfar at positive infinity and is
      written back exactly, `aspectRatio` and `zfar` both left out. */
  lemma {:induction false} YfovZnearExample(a: Double, b: Double)
    ensures DeserializePerspective([StartObject, PropertyName("yfov"), Number(a), PropertyName("znear"), Number(b), EndObject]) ==
            Ok((PerspectiveValue(Zero, a, PositiveInfinity, b, []), []))
    ensures PerspectiveTokens(PerspectiveValue(Zero, a, PositiveInfinity, b, [])) ==
            [StartObject, PropertyName("yfov"), Number(a), PropertyName("znear"), Number(b), EndObject]
  {
    var v := PerspectiveValue(Zero, a, PositiveInfinity, b, []);
    var s := [StartObject, PropertyName("yfov"), Number(a), PropertyName("znear"), Number(b), EndObject];
    assert PerspectiveTokens(v) == s;
    RoundTrip(v, []);
    assert s + [] == s;
  }

  /** An exhausted stream gives the default camera and no error. */
  lemma EmptyStreamGivesDefault()
    ensures DeserializePerspective([]) == Ok((DefaultPerspective, []))
  {
  }

  /** A stream that ends right after a number field's name fails as a null
      number: `ReadAsDouble().Value` has no value there. */
  lemma TruncatedAfterNumberName(v: PerspectiveValue, name: string)
    requires name in PerspectiveNames
    ensures ReadProperties([PropertyName(name)], v) == Err(NullNumber)
  {
    assert [PropertyName(name)][1..] == [];
    assert ReadProperty(v, name, []) == Err(NullNumber);
  }

  /** A stream that ends inside an unknown value fails as an unexpected end. */
  lemma TruncatedInsideUnknownValue(v: PerspectiveValue, name: string, t: Token)
    requires name !in PerspectiveNames && Opens(t)
    ensures ReadProperties([PropertyName(name), t], v) == Err(UnexpectedEnd)
  {
    assert [PropertyName(name), t][1..] == [t] && [t][1..] == [];
    assert NextValue([t]) == Err(UnexpectedEnd);
    assert ReadProperty(v, name, [t]) == Err(UnexpectedEnd);
  }

  class CameraPerspective {
    var aspectRatio: Double
    var yfov: Double
    var zfar: Double
    var znear: Double
    /** The inherited extension bag. */
    var extensions: seq<Member>

    function Value(): PerspectiveValue
      reads this
    {
      PerspectiveValue(aspectRatio, yfov, zfar, znear, extensions)
    }

    constructor ()
      ensures aspectRatio == Zero && yfov == Zero && znear == Zero
      ensures zfar == PositiveInfinity && extensions == []
      ensures Value() == DefaultPerspective
    {
      aspectRatio, yfov, zfar, znear := Zero, Zero, PositiveInfinity, Zero;
      extensions := [];
    }

    /** The copy constructor; a null camera leaves the defaults. */
    constructor Copy(other: CameraPerspective?)
      ensures other != null ==> Value() == other.Value()
      ensures other == null ==> Value() == DefaultPerspective
    {
      aspectRatio, yfov, zfar, znear := Zero, Zero, PositiveInfinity, Zero;
      extensions := [];
      if other != null {
        extensions := other.extensions;
        aspectRatio := other.aspectRatio;
        yfov := other.yfov;
        zfar := other.zfar;
        znear := other.znear;
      }
    }

    static method Deserialize(reader: JsonReader) returns (r: Result<CameraPerspective>)
      requires reader.Valid()
      modifies reader
      ensures reader.Valid()
      ensures match DeserializePerspective(old(reader.Remaining()))
              case Ok((v, rest)) => r.Ok? && fresh(r.value) && r.value.Value() == v && reader.Remaining() == rest
              case Err(e) => r == Err(e)
    {
      var camera := new CameraPerspective();
      var more := reader.Read();
      if more && reader.current.value != StartObject {
        return Err(NotAnObject);
      }
      var ok := camera.ReadPropertiesFrom(reader);
      if ok.Err? {
        return Err(ok.error);
      }
      r := Ok(camera);
    }

    /** The loop of Deserialize: one property per pass while the token read
        is a property name. */
    method ReadPropertiesFrom(reader: JsonReader) returns (r: Result<()>)
      requires reader.Valid()
      modifies this, reader
      ensures reader.Valid()
      ensures match ReadProperties(old(reader.Remaining()), old(Value()))
              case Ok((v, rest)) => r.Ok? && Value() == v && reader.Remaining() == rest
              case Err(e) => r == Err(e)
    {
      ghost var before := reader.Remaining();
      var more := reader.Read();
      while more && reader.current.value.PropertyName?
        invariant reader.Valid()
        invariant ReadProperties(old(reader.Remaining()), old(Value())) == ReadProperties(before, Value())
        invariant more == (before != [])
        invariant more ==> reader.current == Some(before[0]) && reader.Remaining() == before[1..]
        invariant !more ==> reader.Remaining() == [] && before == []
        decreases |reader.Remaining()|
      {
        var ok := DispatchProperty(reader);
        if ok.Err? {
          return Err(ok.error);
        }
        before := reader.Remaining();
        more := reader.Read();
      }
      r := Ok(());
    }

    /** The body of the loop in Deserialize: the switch on the property name
        the reader is on. */
    method DispatchProperty(reader: JsonReader) returns (r: Result<()>)
      requires reader.Valid() && reader.current.Some? && reader.current.value.PropertyName?
      modifies this, reader
      ensures reader.Valid()
      ensures match ReadProperty(old(Value()), old(reader.current.value.name), old(reader.Remaining()))
              case Ok((v, rest)) => r.Ok? && Value() == v && reader.Remaining() == rest
              case Err(e) => r == Err(e)
    {
      var name := reader.current.value.name;
      if name == "aspectRatio" {
        var d :- ReadDoubleValue(reader);
        aspectRatio := d;
      } else if name == "yfov" {
        var d :- ReadDoubleValue(reader);
        yfov := d;
      } else if name == "zfar" {
        var d :- ReadDoubleValue(reader);
        zfar := d;
      } else if name == "znear" {
        var d :- ReadDoubleValue(reader);
        znear := d;
      } else {
        var m :- DefaultPropertyDeserializer(reader);
        extensions := extensions + [m];
      }
      r := Ok(());
    }

    method Serialize(writer: JsonWriter)
      modifies writer
      ensures writer.output == old(writer.output) + PerspectiveTokens(Value())
    {
      ghost var out := writer.output;
      ghost var fields := FieldTokens(Value());
      writer.WriteStartObject();
      WriteFields(writer);
      assert writer.output == out + [StartObject] + fields;
      WriteExtensions(writer, extensions);
      assert writer.output == out + [StartObject] + fields + MembersTokens(extensions);
      writer.WriteEndObject();
      AppendAssoc(out, [StartObject], fields);
      AppendedInOrder(out, [StartObject] + fields, MembersTokens(extensions), [EndObject]);
    }

    /** The four numbers, as Serialize writes them. */
    method WriteFields(writer: JsonWriter)
      modifies writer
      ensures writer.output == old(writer.output) + FieldTokens(Value())
    {
      ghost var out := writer.output;
      ghost var a := if aspectRatio != Zero then [PropertyName("aspectRatio"), Number(aspectRatio)] else [];
      ghost var z := if zfar != PositiveInfinity then [PropertyName("zfar"), Number(zfar)] else [];
      if aspectRatio != Zero {
        writer.WriteNumberProperty("aspectRatio", aspectRatio);
      }
      assert writer.output == out + a;
      writer.WriteNumberProperty("yfov", yfov);
      ghost var y := [PropertyName("yfov"), Number(yfov)];
      AppendAssoc(out, a, y);
      if zfar != PositiveInfinity {
        writer.WriteNumberProperty("zfar", zfar);
      }
      AppendAssoc(out, a + y, z);
      writer.WriteNumberProperty("znear", znear);
      AppendAssoc(out, a + y + z, [PropertyName("znear"), Number(znear)]);
    }
  }
}
