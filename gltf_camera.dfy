/** `GLTFCamera`: a camera node, holding at most one orthographic and at most
    one perspective projection. Deserialize reads the BODY of the object: the
    caller has already consumed its StartObject. Only `orthographic` and
    `perspective` are recognised; every other name, `type` included, goes to
    the extension bag, so the `type` string is never set by Deserialize. */
module Camera {
  import opened JsonTokens
  import opened JsonStream
  import opened GltfProperty
  import P = Perspective
  import O = Orthographic

  /** The `CameraType` enum; its default value is `perspective`. */
  datatype CameraType = PerspectiveType | OrthographicType

  datatype CameraValue = CameraValue(
    typeName: Option<string>,
    orthographic: Option<O.OrthographicValue>,
    perspective: Option<P.PerspectiveValue>,
    cameraType: CameraType,
    extensions: seq<Member>)

  /** The fields of a new GLTFCamera. */
  const DefaultCamera: CameraValue := CameraValue(None, None, None, PerspectiveType, [])

  /** The property names Deserialize recognises. */
  const CameraNames: set<string> := {"orthographic", "perspective"}

  /** One pass of the dispatch switch: the property `name` has been read and
      `s` holds the tokens after it. `orthographic` and `perspective` hand
      the stream to the sub-deserializer and replace that sub-object only;
      any other name adds one bag entry. */
  function ReadProperty(v: CameraValue, name: string, s: seq<Token>): (r: Result<(CameraValue, seq<Token>)>)
    ensures r.Ok? ==> SuffixOf(r.value.1, s)
    ensures name !in CameraNames ==> (r.Ok? <==> NextValue(s).Ok?)
    ensures r.Ok? && name !in CameraNames ==>
              r.value.0 == v.(extensions := v.extensions + [Member(name, s[..|s| - |r.value.1|])])
    ensures name == "orthographic" ==> (r.Ok? <==> O.DeserializeOrthographic(s).Ok?)
    ensures r.Ok? && name == "orthographic" ==>
              r.value.0 == v.(orthographic := Some(O.DeserializeOrthographic(s).value.0)) &&
              r.value.1 == O.DeserializeOrthographic(s).value.1
    ensures name == "perspective" ==> (r.Ok? <==> P.DeserializePerspective(s).Ok?)
    ensures r.Ok? && name == "perspective" ==>
              r.value.0 == v.(perspective := Some(P.DeserializePerspective(s).value.0)) &&
              r.value.1 == P.DeserializePerspective(s).value.1
    ensures r.Ok? ==> r.value.0.typeName == v.typeName && r.value.0.cameraType == v.cameraType
  {
    if name == "orthographic" then
      match O.DeserializeOrthographic(s)
      case Err(e) => Err(e)
      case Ok((o, rest)) => Ok((v.(orthographic := Some(o)), rest))
    else if name == "perspective" then
      match P.DeserializePerspective(s)
      case Err(e) => Err(e)
      case Ok((p, rest)) => Ok((v.(perspective := Some(p)), rest))
    else
      match UnknownProperty(name, s)
      case Err(e) => Err(e)
      case Ok((m, rest)) =>
        assert m.raw == s[..|s| - |rest|];
        Ok((v.(extensions := v.extensions + [m]), rest))
  }

  /** The loop `while (reader.Read() && reader.TokenType == PropertyName)`:
      it ends, consuming it, at the first token that is not a property name,
      or at the end of the stream. */
  function ReadProperties(s: seq<Token>, v: CameraValue): (r: Result<(CameraValue, seq<Token>)>)
    ensures r.Ok? ==> SuffixOf(r.value.1, s)
    decreases |s|
  {
    if s == [] then Ok((v, []))
    else if !s[0].PropertyName? then Ok((v, s[1..]))
    else
      match ReadProperty(v, s[0].name, s[1..])
      case Err(e) => Err(e)
      case Ok((w, rest)) => ReadProperties(rest, w)
  }

  /** `GLTFCamera.Deserialize`, on the tokens after the camera's StartObject. */
  function DeserializeCamera(s: seq<Token>): (r: Result<(CameraValue, seq<Token>)>)
    ensures r.Ok? ==> SuffixOf(r.value.1, s)
  {
    ReadProperties(s, DefaultCamera)
  }

  /** Deserialize never sets the `type` string or the `Type` enum. */
  lemma {:induction false} TypeNeverRead(s: seq<Token>, v: CameraValue)
    requires ReadProperties(s, v).Ok?
    ensures ReadProperties(s, v).value.0.typeName == v.typeName
    ensures ReadProperties(s, v).value.0.cameraType == v.cameraType
    decreases |s|
  {
    if s != [] && s[0].PropertyName? {
      var w := ReadProperty(v, s[0].name, s[1..]).value;
      TypeNeverRead(w.1, w.0);
    }
  }

  /** A camera read from a stream has a null `type` string and the default
      projection type, whatever the stream says. */
  lemma DeserializedTypeIsDefault(s: seq<Token>)
    requires DeserializeCamera(s).Ok?
    ensures DeserializeCamera(s).value.0.typeName == None
    ensures DeserializeCamera(s).value.0.cameraType == PerspectiveType
  {
    TypeNeverRead(s, DefaultCamera);
  }

  /** The bags of a camera and of its sub-objects are as deserialization
      leaves them: unrecognised names, each with one complete value. */
  ghost predicate ValidBags(v: CameraValue)
  {
    && ValidExtensions(v.extensions, CameraNames)
    && (v.orthographic.Some? ==> ValidExtensions(v.orthographic.value.extensions, O.OrthographicNames))
    && (v.perspective.Some? ==> ValidExtensions(v.perspective.value.extensions, P.PerspectiveNames))
  }

  /** One pass of the switch keeps every bag valid: a sub-object comes from
      its own Deserialize, and an unknown name adds one complete value. */
  lemma {:induction false} ReadPropertyKeepsBagsValid(v: CameraValue, name: string, s: seq<Token>)
    requires ValidBags(v)
    requires ReadProperty(v, name, s).Ok?
    ensures ValidBags(ReadProperty(v, name, s).value.0)
  {
    if name == "orthographic" {
      O.DeserializedBagIsValid(s);
    } else if name == "perspective" {
      P.DeserializedBagIsValid(s);
    } else {
      var m := UnknownProperty(name, s).value.0;
      var bag := ReadProperty(v, name, s).value.0.extensions;
      assert bag == v.extensions + [m];
      forall i | 0 <= i < |bag|
        ensures bag[i].name !in CameraNames && Complete(bag[i].raw)
      {
        if i < |v.extensions| {
          assert bag[i] == v.extensions[i];
        }
      }
    }
  }

  /** The loop keeps every bag valid. */
  lemma {:induction false} ReadPropertiesKeepsBagValid(s: seq<Token>, v: CameraValue)
    requires ValidBags(v)
    requires ReadProperties(s, v).Ok?
    ensures ValidBags(ReadProperties(s, v).value.0)
    decreases |s|
  {
    if s != [] && s[0].PropertyName? {
      ReadPropertyKeepsBagsValid(v, s[0].name, s[1..]);
      var w := ReadProperty(v, s[0].name, s[1..]).value;
      ReadPropertiesKeepsBagValid(w.1, w.0);
    }
  }

  /** Every bag Deserialize leaves, the camera's own and those of its
      sub-objects, holds unrecognised names with one complete value each. */
  lemma DeserializedBagIsValid(s: seq<Token>)
    requires DeserializeCamera(s).Ok?
    ensures ValidBags(DeserializeCamera(s).value.0)
  {
    ReadPropertiesKeepsBagValid(s, DefaultCamera);
  }

  /** A body that ends right after `orthographic` or `perspective` gives the
      camera read so far with a default sub-object under that name: the
      sub-object's Deserialize finds the stream exhausted. */
  lemma TruncatedAfterProjectionName(v: CameraValue, name: string)
    requires name in CameraNames
    ensures ReadProperties([PropertyName(name)], v)
            == Ok((if name == "orthographic" then v.(orthographic := Some(O.DefaultOrthographic))
                   else v.(perspective := Some(P.DefaultPerspective)), []))
  {
    assert [PropertyName(name)][1..] == [];
    O.EmptyStreamGivesDefault();
    P.EmptyStreamGivesDefault();
  }

  /** Handed the camera's own StartObject, Deserialize stops at once: the
      object start is just a token that is not a property name. */
  lemma LeadingStartObjectEndsAtOnce(rest: seq<Token>)
    ensures DeserializeCamera([StartObject] + rest) == Ok((DefaultCamera, rest))
  {
    assert ([StartObject] + rest)[1..] == rest;
  }

  /** The tokens `Serialize` writes for the sub-objects. */
  function ProjectionTokens(v: CameraValue): seq<Token>
  {
    (if v.orthographic.Some? then [PropertyName("orthographic")] + O.OrthographicTokens(v.orthographic.value) else [])
    + (if v.perspective.Some? then [PropertyName("perspective")] + P.PerspectiveTokens(v.perspective.value) else [])
  }

  /** The tokens `Serialize` writes: the sub-objects that are not null, then
      `type`, then the bag. `cameraType` plays no part. */
  function CameraTokens(v: CameraValue): seq<Token>
  {
    [StartObject] + ProjectionTokens(v) + [PropertyName("type"), StringToken(v.typeName)]
    + MembersTokens(v.extensions) + [EndObject]
  }

  /** Which sub-objects are written depends on neither `type` nor `Type`. */
  lemma SerializeIgnoresType(v: CameraValue, t: Option<string>, k: CameraType)
    ensures ProjectionTokens(v.(typeName := t, cameraType := k)) == ProjectionTokens(v)
    ensures CameraTokens(v.(cameraType := k)) == CameraTokens(v)
  {
  }

  /** A property as it can appear in a camera object. */
  datatype CameraProperty =
    | Ortho(o: O.OrthographicValue)
    | Persp(p: P.PerspectiveValue)
    | Extra(m: Member)

  function PropertyTokens(q: CameraProperty): seq<Token>
  {
    match q
    case Ortho(o) => [PropertyName("orthographic")] + O.OrthographicTokens(o)
    case Persp(p) => [PropertyName("perspective")] + P.PerspectiveTokens(p)
    case Extra(m) => [PropertyName(m.name)] + m.raw
  }

  function PropertiesTokens(qs: seq<CameraProperty>): seq<Token>
    decreases |qs|
  {
    if qs == [] then [] else PropertyTokens(qs[0]) + PropertiesTokens(qs[1..])
  }

  /** Each sub-object's bag is as its own Deserialize leaves it, and every
      other property carries an unrecognised name and one complete value. */
  ghost predicate WellFormedProperty(q: CameraProperty)
  {
    match q
    case Ortho(o) => ValidExtensions(o.extensions, O.OrthographicNames)
    case Persp(p) => ValidExtensions(p.extensions, P.PerspectiveNames)
    case Extra(m) => m.name !in CameraNames && Complete(m.raw)
  }

  ghost predicate WellFormed(qs: seq<CameraProperty>)
  {
    forall i :: 0 <= i < |qs| ==> WellFormedProperty(qs[i])
  }

  /** What one property does to the camera. */
  function Apply(v: CameraValue, q: CameraProperty): CameraValue
  {
    match q
    case Ortho(o) => v.(orthographic := Some(o))
    case Persp(p) => v.(perspective := Some(p))
    case Extra(m) => v.(extensions := v.extensions + [m])
  }

  function ApplyAll(v: CameraValue, qs: seq<CameraProperty>): CameraValue
    decreases |qs|
  {
    if qs == [] then v else ApplyAll(Apply(v, qs[0]), qs[1..])
  }

  /** The last orthographic sub-object of `qs`, or `dflt`. */
  function LastOrtho(qs: seq<CameraProperty>, dflt: Option<O.OrthographicValue>): Option<O.OrthographicValue>
    decreases |qs|
  {
    if qs == [] then dflt
    else if qs[|qs| - 1].Ortho? then Some(qs[|qs| - 1].o)
    else LastOrtho(qs[..|qs| - 1], dflt)
  }

  /** The last perspective sub-object of `qs`, or `dflt`. */
  function LastPersp(qs: seq<CameraProperty>, dflt: Option<P.PerspectiveValue>): Option<P.PerspectiveValue>
    decreases |qs|
  {
    if qs == [] then dflt
    else if qs[|qs| - 1].Persp? then Some(qs[|qs| - 1].p)
    else LastPersp(qs[..|qs| - 1], dflt)
  }

  /** The unrecognised properties of `qs`, in order. */
  function Extras(qs: seq<CameraProperty>): seq<Member>
    decreases |qs|
  {
    if qs == [] then []
    else Extras(qs[..|qs| - 1]) + (if qs[|qs| - 1].Extra? then [qs[|qs| - 1].m] else [])
  }

  /** ReadProperties on a property name: one pass of the loop. */
  lemma {:induction false} ReadPropertiesUnfold(s: seq<Token>, v: CameraValue)
    requires s != [] && s[0].PropertyName?
    ensures ReadProperties(s, v) ==
            match ReadProperty(v, s[0].name, s[1..])
            case Err(e) => Err(e)
            case Ok((w, rest)) => ReadProperties(rest, w)
  {
  }

  lemma {:induction false} ReadPropertiesStep(name: string, s: seq<Token>, v: CameraValue, w: CameraValue, rest: seq<Token>)
    requires ReadProperty(v, name, s) == Ok((w, rest))
    ensures ReadProperties([PropertyName(name)] + s, v) == ReadProperties(rest, w)
  {
    ConsParts(PropertyName(name), s);
    ReadPropertiesUnfold([PropertyName(name)] + s, v);
  }

  /** A property that is read moves the loop on to what follows it. */
  lemma {:induction false} ReadPropertiesOk(s: seq<Token>, v: CameraValue)
    requires s != [] && s[0].PropertyName?
    requires ReadProperty(v, s[0].name, s[1..]).Ok?
    ensures ReadProperties(s, v) == ReadProperties(ReadProperty(v, s[0].name, s[1..]).value.1, ReadProperty(v, s[0].name, s[1..]).value.0)
  {
    ReadPropertiesUnfold(s, v);
  }

  /** A property that fails to read ends the loop with its error. */
  lemma {:induction false} ReadPropertiesErr(s: seq<Token>, v: CameraValue, e: Error)
    requires s != [] && s[0].PropertyName?
    requires ReadProperty(v, s[0].name, s[1..]) == Err(e)
    ensures ReadProperties(s, v) == Err(e)
  {
    ReadPropertiesUnfold(s, v);
  }

  /** The loop ends, consuming it, at a token that is not a property name. */
  lemma {:induction false} ReadPropertiesStop(s: seq<Token>, v: CameraValue)
    requires s != [] && !s[0].PropertyName?
    ensures ReadProperties(s, v) == Ok((v, s[1..]))
  {
  }

  /** An `orthographic` property as Serialize writes it is one pass of the
      loop that sets the orthographic sub-object. */
  lemma {:induction false} ReadsOrthographic(o: O.OrthographicValue, tail: seq<Token>, v: CameraValue)
    requires ValidExtensions(o.extensions, O.OrthographicNames)
    ensures ReadProperties(PropertyTokens(Ortho(o)) + tail, v) == ReadProperties(tail, v.(orthographic := Some(o)))
  {
    AppendAssoc([PropertyName("orthographic")], O.OrthographicTokens(o), tail);
    O.RoundTrip(o, tail);
    ReadsOrthographicFrom(O.OrthographicTokens(o) + tail, o, tail, v);
  }

  lemma {:induction false} ReadsOrthographicFrom(s: seq<Token>, o: O.OrthographicValue, tail: seq<Token>, v: CameraValue)
    requires O.DeserializeOrthographic(s) == Ok((o, tail))
    ensures ReadProperties([PropertyName("orthographic")] + s, v) == ReadProperties(tail, v.(orthographic := Some(o)))
  {
    ReadPropertiesStep("orthographic", s, v, v.(orthographic := Some(o)), tail);
  }

  /** Likewise for `perspective`. */
  lemma {:induction false} ReadsPerspective(p: P.PerspectiveValue, tail: seq<Token>, v: CameraValue)
    requires ValidExtensions(p.extensions, P.PerspectiveNames)
    ensures ReadProperties(PropertyTokens(Persp(p)) + tail, v) == ReadProperties(tail, v.(perspective := Some(p)))
  {
    AppendAssoc([PropertyName("perspective")], P.PerspectiveTokens(p), tail);
    P.RoundTrip(p, tail);
    ReadsPerspectiveFrom(P.PerspectiveTokens(p) + tail, p, tail, v);
  }

  lemma {:induction false} ReadsPerspectiveFrom(s: seq<Token>, p: P.PerspectiveValue, tail: seq<Token>, v: CameraValue)
    requires P.DeserializePerspective(s) == Ok((p, tail))
    ensures ReadProperties([PropertyName("perspective")] + s, v) == ReadProperties(tail, v.(perspective := Some(p)))
  {
    ReadPropertiesStep("perspective", s, v, v.(perspective := Some(p)), tail);
  }

  /** An unrecognised property is one pass of the loop that adds a bag entry. */
  lemma {:induction false} ReadsExtra(m: Member, tail: seq<Token>, v: CameraValue)
    requires m.name !in CameraNames && Complete(m.raw)
    ensures ReadProperties(PropertyTokens(Extra(m)) + tail, v) == ReadProperties(tail, v.(extensions := v.extensions + [m]))
  {
    AppendAssoc([PropertyName(m.name)], m.raw, tail);
    UnknownPropertyRoundTrip(m, tail);
    ReadPropertiesStep(m.name, m.raw + tail, v, v.(extensions := v.extensions + [m]), tail);
  }

  lemma {:induction false} ReadsOne(q: CameraProperty, tail: seq<Token>, v: CameraValue)
    requires WellFormedProperty(q)
    ensures ReadProperties(PropertyTokens(q) + tail, v) == ReadProperties(tail, Apply(v, q))
  {
    match q {
      case Ortho(o) => ReadsOrthographic(o, tail, v);
      case Persp(p) => ReadsPerspective(p, tail, v);
      case Extra(m) => ReadsExtra(m, tail, v);
    }
  }

  /** Reading the tokens of well-formed properties applies them in order. */
  lemma {:induction false} ReadsProperties(qs: seq<CameraProperty>, tail: seq<Token>, v: CameraValue)
    requires WellFormed(qs)
    ensures ReadProperties(PropertiesTokens(qs) + tail, v) == ReadProperties(tail, ApplyAll(v, qs))
    decreases |qs|
  {
    if qs == [] {
      AppendEmpty(tail);
    } else {
      AppendAssoc(PropertyTokens(qs[0]), PropertiesTokens(qs[1..]), tail);
      assert WellFormedProperty(qs[0]);
      ReadsOne(qs[0], PropertiesTokens(qs[1..]) + tail, v);
      assert WellFormed(qs[1..]) by {
        forall i | 0 <= i < |qs[1..]| ensures qs[1..][i] == qs[i + 1] { }
      }
      ReadsProperties(qs[1..], tail, Apply(v, qs[0]));
    }
  }

  /** The loop over well-formed properties followed by the object's end. */
  lemma {:induction false} ReadsPropertiesToEnd(qs: seq<CameraProperty>, rest: seq<Token>, v: CameraValue)
    requires WellFormed(qs)
    ensures ReadProperties(PropertiesTokens(qs) + [EndObject] + rest, v) == Ok((ApplyAll(v, qs), rest))
  {
    AppendAssoc(PropertiesTokens(qs), [EndObject], rest);
    ReadsProperties(qs, [EndObject] + rest, v);
    ConsParts(EndObject, rest);
    ReadPropertiesStop([EndObject] + rest, ApplyAll(v, qs));
  }

  /** Deserialize on the body of a well-formed camera object, whatever the
      order of its properties and however often a name repeats. */
  lemma {:induction false} ReadsBody(qs: seq<CameraProperty>, rest: seq<Token>)
    requires WellFormed(qs)
    ensures DeserializeCamera(PropertiesTokens(qs) + [EndObject] + rest) ==
            Ok((ApplyAll(DefaultCamera, qs), rest))
  {
    ReadsPropertiesToEnd(qs, rest, DefaultCamera);
  }

  lemma {:induction false} ApplyAllAppend(v: CameraValue, ps: seq<CameraProperty>, qs: seq<CameraProperty>)
    ensures ApplyAll(v, ps + qs) == ApplyAll(ApplyAll(v, ps), qs)
    decreases |ps|
  {
    if ps == [] {
      assert ps + qs == qs;
    } else {
      assert (ps + qs)[0] == ps[0];
      assert (ps + qs)[1..] == ps[1..] + qs;
      ApplyAllAppend(Apply(v, ps[0]), ps[1..], qs);
    }
  }

  /** Last one wins: each sub-object is the last one given, or keeps its
      value; both kinds can be present at once. The unrecognised properties
      are added to the bag in input order, and `type` is untouched. */
  lemma {:induction false} LastOneWins(v: CameraValue, qs: seq<CameraProperty>)
    ensures ApplyAll(v, qs).orthographic == LastOrtho(qs, v.orthographic)
    ensures ApplyAll(v, qs).perspective == LastPersp(qs, v.perspective)
    ensures ApplyAll(v, qs).extensions == v.extensions + Extras(qs)
    ensures ApplyAll(v, qs).typeName == v.typeName && ApplyAll(v, qs).cameraType == v.cameraType
    decreases |qs|
  {
    if qs != [] {
      var init, q := qs[..|qs| - 1], qs[|qs| - 1];
      assert qs == init + [q];
      ApplyAllAppend(v, init, [q]);
      LastOneWins(v, init);
      assert ApplyAll(v, qs) == Apply(ApplyAll(v, init), q);
    }
  }

  /** A body holding only `perspective` gives a camera with that perspective
      and no orthographic sub-object; writing it back writes only
      `perspective` and `type`. */
  lemma {:induction false} OnlyPerspective(p: P.PerspectiveValue, rest: seq<Token>)
    requires ValidExtensions(p.extensions, P.PerspectiveNames)
    ensures DeserializeCamera([PropertyName("perspective")] + P.PerspectiveTokens(p) + [EndObject] + rest) ==
            Ok((CameraValue(None, None, Some(p), PerspectiveType, []), rest))
  {
    PropertiesTokensSingle(Persp(p));
    ApplyAllSingle(DefaultCamera, Persp(p));
    ReadsBody([Persp(p)], rest);
  }

  /** A body holding `orthographic` and then `perspective` keeps both. */
  lemma {:induction false} BothProjectionsKept(o: O.OrthographicValue, p: P.PerspectiveValue, rest: seq<Token>)
    requires ValidExtensions(o.extensions, O.OrthographicNames)
    requires ValidExtensions(p.extensions, P.PerspectiveNames)
    ensures DeserializeCamera(PropertyTokens(Ortho(o)) + PropertyTokens(Persp(p)) + [EndObject] + rest) ==
            Ok((CameraValue(None, Some(o), Some(p), PerspectiveType, []), rest))
  {
    var qs := [Ortho(o)] + [Persp(p)];
    PropertiesTokensAppend([Ortho(o)], [Persp(p)]);
    PropertiesTokensSingle(Ortho(o));
    PropertiesTokensSingle(Persp(p));
    ApplyAllAppend(DefaultCamera, [Ortho(o)], [Persp(p)]);
    ApplyAllSingle(DefaultCamera, Ortho(o));
    ApplyAllSingle(Apply(DefaultCamera, Ortho(o)), Persp(p));
    assert WellFormed(qs) by {
      assert qs[0] == Ortho(o) && qs[1] == Persp(p);
    }
    ReadsBody(qs, rest);
  }

  /** Writing a camera that has only a perspective writes `perspective`, then
      `type` as null. */
  lemma OnlyPerspectiveTokens(p: P.PerspectiveValue)
    ensures CameraTokens(CameraValue(None, None, Some(p), PerspectiveType, [])) ==
            [StartObject] + ([PropertyName("perspective")] + P.PerspectiveTokens(p)) + [PropertyName("type"), Null] + [EndObject]
  {
    var x := [PropertyName("perspective")] + P.PerspectiveTokens(p);
    AppendEmpty(x);
    AppendEmpty([StartObject] + x + [PropertyName("type"), Null]);
  }

  lemma {:induction false} ApplyAllSingle(v: CameraValue, q: CameraProperty)
    ensures ApplyAll(v, [q]) == Apply(v, q)
  {
    assert [q][1..] == [];
  }

  /** The bag entries as properties. */
  function ExtraProperties(ms: seq<Member>): (qs: seq<CameraProperty>)
    ensures |qs| == |ms| && forall i :: 0 <= i < |ms| ==> qs[i] == Extra(ms[i])
  {
    seq(|ms|, i requires 0 <= i < |ms| => Extra(ms[i]))
  }

  /** The properties Serialize writes, in the order it writes them: the
      sub-objects, `type` (which goes to the bag when read back), then the
      bag. */
  function WrittenProperties(v: CameraValue): seq<CameraProperty>
  {
    ProjectionProperties(v) + [TypeProperty(v)] + ExtraProperties(v.extensions)
  }

  /** The sub-objects that are not null, as properties. */
  function ProjectionProperties(v: CameraValue): seq<CameraProperty>
  {
    (if v.orthographic.Some? then [Ortho(v.orthographic.value)] else [])
    + (if v.perspective.Some? then [Persp(v.perspective.value)] else [])
  }

  /** The `type` property, as the bag entry it becomes when read back. */
  function TypeProperty(v: CameraValue): CameraProperty
  {
    Extra(Member("type", [StringToken(v.typeName)]))
  }

  /** The camera Deserialize makes of what Serialize writes for `v`: the same
      sub-objects, the `type` string moved to the front of the bag, and the
      `type` string and `Type` enum back at their defaults. */
  function ReadBack(v: CameraValue): CameraValue
  {
    CameraValue(None, v.orthographic, v.perspective, PerspectiveType,
                [Member("type", [StringToken(v.typeName)])] + v.extensions)
  }

  lemma {:induction false} PropertiesTokensAppend(ps: seq<CameraProperty>, qs: seq<CameraProperty>)
    ensures PropertiesTokens(ps + qs) == PropertiesTokens(ps) + PropertiesTokens(qs)
    decreases |ps|
  {
    if ps == [] {
      assert ps + qs == qs;
    } else {
      assert (ps + qs)[0] == ps[0];
      assert (ps + qs)[1..] == ps[1..] + qs;
      PropertiesTokensAppend(ps[1..], qs);
    }
  }

  lemma {:induction false} ExtrasTokens(ms: seq<Member>)
    ensures PropertiesTokens(ExtraProperties(ms)) == MembersTokens(ms)
    decreases |ms|
  {
    if ms != [] {
      var es := ExtraProperties(ms);
      assert es[1..] == ExtraProperties(ms[1..]);
      ExtrasTokens(ms[1..]);
    }
  }

  lemma {:induction false} ApplyExtras(v: CameraValue, ms: seq<Member>)
    ensures ApplyAll(v, ExtraProperties(ms)) == v.(extensions := v.extensions + ms)
    decreases |ms|
  {
    var es := ExtraProperties(ms);
    if ms == [] {
      assert v.extensions + ms == v.extensions;
    } else {
      assert es[1..] == ExtraProperties(ms[1..]);
      ApplyExtras(v.(extensions := v.extensions + [ms[0]]), ms[1..]);
      assert v.extensions + [ms[0]] + ms[1..] == v.extensions + ms;
    }
  }

  lemma {:induction false} PropertiesTokensSingle(q: CameraProperty)
    ensures PropertiesTokens([q]) == PropertyTokens(q)
  {
    assert [q][1..] == [];
  }

  lemma {:induction false} ProjectionPropertiesTokens(v: CameraValue)
    ensures PropertiesTokens(ProjectionProperties(v)) == ProjectionTokens(v)
  {
    var os: seq<CameraProperty> := if v.orthographic.Some? then [Ortho(v.orthographic.value)] else [];
    var ps: seq<CameraProperty> := if v.perspective.Some? then [Persp(v.perspective.value)] else [];
    PropertiesTokensAppend(os, ps);
    if v.orthographic.Some? { PropertiesTokensSingle(os[0]); }
    if v.perspective.Some? { PropertiesTokensSingle(ps[0]); }
  }

  lemma {:induction false} WrittenPropertiesTokens(v: CameraValue)
    ensures CameraTokens(v) == [StartObject] + PropertiesTokens(WrittenProperties(v)) + [EndObject]
  {
    var pp, tp, es := ProjectionProperties(v), [TypeProperty(v)], ExtraProperties(v.extensions);
    var pj, ty := ProjectionTokens(v), [PropertyName("type"), StringToken(v.typeName)];
    PropertiesTokensAppend(pp + tp, es);
    PropertiesTokensAppend(pp, tp);
    PropertiesTokensSingle(TypeProperty(v));
    assert PropertyTokens(TypeProperty(v)) == ty;
    ExtrasTokens(v.extensions);
    ProjectionPropertiesTokens(v);
    AppendAssoc([StartObject], pj, ty);
    AppendAssoc([StartObject], pj + ty, MembersTokens(v.extensions));
  }

  lemma {:induction false} WrittenPropertiesApply(v: CameraValue)
    ensures ApplyAll(DefaultCamera, WrittenProperties(v)) == ReadBack(v)
  {
    var os := if v.orthographic.Some? then [Ortho(v.orthographic.value)] else [];
    var ps := if v.perspective.Some? then [Persp(v.perspective.value)] else [];
    var ts := [Extra(Member("type", [StringToken(v.typeName)]))];
    var es := ExtraProperties(v.extensions);
    var w1 := DefaultCamera.(orthographic := v.orthographic);
    var w2 := w1.(perspective := v.perspective);
    var w3 := w2.(extensions := [Member("type", [StringToken(v.typeName)])]);
    assert ApplyAll(DefaultCamera, os) == w1 by {
      if v.orthographic.Some? { assert os[1..] == []; }
    }
    assert ApplyAll(w1, ps) == w2 by {
      if v.perspective.Some? { assert ps[1..] == []; }
    }
    assert ApplyAll(w2, ts) == w3 by {
      assert ts[1..] == [];
    }
    ApplyExtras(w3, v.extensions);
    ApplyAllAppend(DefaultCamera, os, ps);
    ApplyAllAppend(DefaultCamera, os + ps, ts);
    ApplyAllAppend(DefaultCamera, os + ps + ts, es);
  }

  lemma {:induction false} WrittenPropertiesWellFormed(v: CameraValue)
    requires ValidExtensions(v.extensions, CameraNames)
    requires v.orthographic.Some? ==> ValidExtensions(v.orthographic.value.extensions, O.OrthographicNames)
    requires v.perspective.Some? ==> ValidExtensions(v.perspective.value.extensions, P.PerspectiveNames)
    ensures WellFormed(WrittenProperties(v))
  {
    var qs := WrittenProperties(v);
    var head: seq<CameraProperty> :=
      (if v.orthographic.Some? then [Ortho(v.orthographic.value)] else [])
      + (if v.perspective.Some? then [Persp(v.perspective.value)] else [])
      + [Extra(Member("type", [StringToken(v.typeName)]))];
    var es: seq<CameraProperty> := ExtraProperties(v.extensions);
    assert qs == head + es;
    assert Complete([StringToken(v.typeName)]);
    forall i | 0 <= i < |qs| ensures WellFormedProperty(qs[i])
    {
      if i >= |head| {
        assert qs[i] == es[i - |head|];
      }
    }
  }

  /** Round trip: Deserialize, given the body of what Serialize writes, reads
      back the same sub-objects; the `type` string comes back as the first
      bag entry, and the `type` field and `Type` enum at their defaults. */
  lemma {:induction false} RoundTrip(v: CameraValue, rest: seq<Token>)
    requires ValidExtensions(v.extensions, CameraNames)
    requires v.orthographic.Some? ==> ValidExtensions(v.orthographic.value.extensions, O.OrthographicNames)
    requires v.perspective.Some? ==> ValidExtensions(v.perspective.value.extensions, P.PerspectiveNames)
    ensures DeserializeCamera(CameraTokens(v)[1..] + rest) == Ok((ReadBack(v), rest))
  {
    WrittenPropertiesTokens(v);
    WrittenPropertiesApply(v);
    WrittenPropertiesWellFormed(v);
    var ts := PropertiesTokens(WrittenProperties(v));
    AppendAssoc([StartObject], ts, [EndObject]);
    ConsParts(StartObject, ts + [EndObject]);
    ReadsBody(WrittenProperties(v), rest);
  }

  /** Read, write, read again: a camera that Deserialize produced comes back
      with the same sub-objects and the same bag, except that the bag gains a
      `type` entry holding null at its front. So reading back is not stable:
      every further cycle adds one more `type` entry. */
  lemma ReadWriteReadAddsType(s: seq<Token>, rest: seq<Token>)
    requires DeserializeCamera(s).Ok?
    ensures DeserializeCamera(CameraTokens(DeserializeCamera(s).value.0)[1..] + rest)
            == Ok((DeserializeCamera(s).value.0.(extensions := [Member("type", [Null])] + DeserializeCamera(s).value.0.extensions), rest))
  {
    var w := DeserializeCamera(s).value.0;
    DeserializedTypeIsDefault(s);
    DeserializedBagIsValid(s);
    RoundTrip(w, rest);
    assert StringToken(w.typeName) == Null;
  }

  /** The extra `type` entry is kept: reading back what Serialize writes is
      itself a camera whose bags are valid, and writing it out again gives
      one `type` entry more than before. */
  lemma ReadBackGrows(v: CameraValue)
    requires ValidBags(v)
    ensures ValidBags(ReadBack(v))
    ensures |ReadBack(v).extensions| == |v.extensions| + 1
    ensures ReadBack(v).extensions[0] == Member("type", [StringToken(v.typeName)])
  {
    var bag := ReadBack(v).extensions;
    CapturedValueComplete([StringToken(v.typeName)]);
    forall i | 0 <= i < |bag|
      ensures bag[i].name !in CameraNames && Complete(bag[i].raw)
    {
      if i > 0 {
        assert bag[i] == v.extensions[i - 1];
      }
    }
  }

  class GLTFCamera {
    /** The `type` string; Deserialize never sets it. */
    var typeName: Option<string>
    var orthographic: O.CameraOrthographic?
    var perspective: P.CameraPerspective?
    var cameraType: CameraType
    /** The inherited extension bag. */
    var extensions: seq<Member>

    function Value(): CameraValue
      reads this, orthographic, perspective
    {
      CameraValue(typeName,
                  if orthographic == null then None else Some(orthographic.Value()),
                  if perspective == null then None else Some(perspective.Value()),
                  cameraType, extensions)
    }

    constructor ()
      ensures orthographic == null && perspective == null
      ensures Value() == DefaultCamera
    {
      typeName, orthographic, perspective, cameraType := None, null, null, PerspectiveType;
      extensions := [];
    }

    /** The copy constructor: each sub-object that is not null is copied into
        a new object, `Type` and the bag are copied, and the `type` string is
        not. A null camera leaves the defaults. */
    constructor Copy(other: GLTFCamera?)
      ensures other == null ==> Value() == DefaultCamera
      ensures other != null ==> Value() == other.Value().(typeName := None)
      ensures orthographic != null ==> fresh(orthographic)
      ensures perspective != null ==> fresh(perspective)
    {
      typeName, orthographic, perspective, cameraType := None, null, null, PerspectiveType;
      extensions := [];
      if other != null {
        extensions := other.extensions;
        if other.orthographic != null {
          orthographic := new O.CameraOrthographic.Copy(other.orthographic);
        }
        if other.perspective != null {
          perspective := new P.CameraPerspective.Copy(other.perspective);
        }
        cameraType := other.cameraType;
      }
    }

    static method Deserialize(reader: JsonReader) returns (r: Result<GLTFCamera>)
      requires reader.Valid()
      modifies reader
      ensures reader.Valid()
      ensures match DeserializeCamera(old(reader.Remaining()))
              case Ok((v, rest)) => r.Ok? && fresh(r.value) && r.value.Value() == v && reader.Remaining() == rest
              case Err(e) => r == Err(e)
    {
      var camera := new GLTFCamera();
      var ok := camera.ReadPropertiesFrom(reader);
      if ok.Err? {
        return Err(ok.error);
      }
      r := Ok(camera);
    }

    /** The loop of Deserialize: one property per pass while the token read
        is a property name. */
    method ReadPropertiesFrom(reader: JsonReader) returns (r: Result<()>)
      requires reader.Valid()
      modifies this, reader
      ensures reader.Valid()
      ensures r.Ok? == ReadProperties(old(reader.Remaining()), old(Value())).Ok?
      ensures r.Ok? ==> (Value(), reader.Remaining()) == ReadProperties(old(reader.Remaining()), old(Value())).value
      ensures r.Err? ==> r.error == ReadProperties(old(reader.Remaining()), old(Value())).error
    {
      ghost var goal := ReadProperties(reader.Remaining(), Value());
      ghost var before := reader.Remaining();
      var more := reader.Read();
      while more && reader.current.value.PropertyName?
        invariant reader.Valid()
        invariant goal == ReadProperties(before, Value())
        invariant more == (before != [])
        invariant more ==> reader.current == Some(before[0]) && reader.Remaining() == before[1..]
        invariant !more ==> reader.Remaining() == [] && before == []
        decreases |reader.Remaining()| + (if more then 1 else 0)
      {
        var ok := ReadOneProperty(reader, before);
        if ok.Err? {
          return Err(ok.error);
        }
        before := reader.Remaining();
        more := reader.Read();
      }
      if more {
        ReadPropertiesStop(before, Value());
      }
      r := Ok(());
    }

    /** One pass of the loop, seen from the loop: `before` is what was left
        when the property name was read. */
    method ReadOneProperty(reader: JsonReader, ghost before: seq<Token>) returns (r: Result<()>)
      requires reader.Valid() && before != [] && before[0].PropertyName?
      requires reader.current == Some(before[0]) && reader.Remaining() == before[1..]
      modifies this, reader
      ensures reader.Valid()
      ensures r.Ok? ==> |reader.Remaining()| < |before|
      ensures r.Ok? ==> ReadProperties(before, old(Value())) == ReadProperties(reader.Remaining(), Value())
      ensures r.Err? ==> ReadProperties(before, old(Value())) == Err(r.error)
    {
      ghost var v := Value();
      r := DispatchProperty(reader);
      if r.Err? {
        ReadPropertiesErr(before, v, r.error);
      } else {
        ReadPropertiesOk(before, v);
      }
    }

    /** The body of the loop in Deserialize: the switch on the property name
        the reader is on. */
    method DispatchProperty(reader: JsonReader) returns (r: Result<()>)
      requires reader.Valid() && reader.current.Some? && reader.current.value.PropertyName?
      modifies this, reader
      ensures reader.Valid()
      ensures r.Ok? == ReadProperty(old(Value()), old(reader.current.value.name), old(reader.Remaining())).Ok?
      ensures r.Ok? ==> (Value(), reader.Remaining()) == ReadProperty(old(Value()), old(reader.current.value.name), old(reader.Remaining())).value
      ensures r.Err? ==> r.error == ReadProperty(old(Value()), old(reader.current.value.name), old(reader.Remaining())).error
    {
      var name := reader.current.value.name;
      if name == "orthographic" {
        var o :- O.CameraOrthographic.Deserialize(reader);
        orthographic := o;
      } else if name == "perspective" {
        var p :- P.CameraPerspective.Deserialize(reader);
        perspective := p;
      } else {
        var m :- DefaultPropertyDeserializer(reader);
        extensions := extensions + [m];
      }
      r := Ok(());
    }

    method Serialize(writer: JsonWriter)
      modifies writer
      ensures writer.output == old(writer.output) + CameraTokens(Value())
    {
      ghost var out := writer.output;
      ghost var projections := ProjectionTokens(Value());
      writer.WriteStartObject();
      WriteProjections(writer);
      assert writer.output == out + [StartObject] + projections;
      writer.WriteStringProperty("type", typeName);
      ghost var head := [StartObject] + projections + [PropertyName("type"), StringToken(typeName)];
      AppendedInOrder(out, [StartObject], projections, [PropertyName("type"), StringToken(typeName)]);
      WriteExtensions(writer, extensions);
      writer.WriteEndObject();
      AppendedInOrder(out, head, MembersTokens(extensions), [EndObject]);
    }

    /** The sub-objects that are not null, as Serialize writes them. */
    method WriteProjections(writer: JsonWriter)
      modifies writer
      ensures writer.output == old(writer.output) + ProjectionTokens(Value())
    {
      ghost var out := writer.output;
      ghost var os := if orthographic != null then [PropertyName("orthographic")] + O.OrthographicTokens(orthographic.Value()) else [];
      if orthographic != null {
        writer.WritePropertyName("orthographic");
        orthographic.Serialize(writer);
        AppendAssoc(out, [PropertyName("orthographic")], O.OrthographicTokens(orthographic.Value()));
      } else {
        AppendEmpty(out);
      }
      ghost var ps := if perspective != null then [PropertyName("perspective")] + P.PerspectiveTokens(perspective.Value()) else [];
      if perspective != null {
        writer.WritePropertyName("perspective");
        perspective.Serialize(writer);
        AppendAssoc(out + os, [PropertyName("perspective")], P.PerspectiveTokens(perspective.Value()));
      } else {
        AppendEmpty(out + os);
      }
      AppendAssoc(out, os, ps);
    }
  }
}
