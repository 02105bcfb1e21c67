/** The part of the common property base class that the schema types use:
    the extension bag. Every property name a type does not recognise is kept,
    with the raw tokens of its value, in the order it was read; serializing a
    type writes the bag back, in that order, just before the closing token. */
module GltfProperty {
  import opened JsonTokens
  import opened JsonStream

  /** One entry of the extension bag. */
  datatype Member = Member(name: string, raw: seq<Token>)

  /** The tokens of the bag as written: each name followed by its value. */
  function MembersTokens(bag: seq<Member>): seq<Token>
    decreases |bag|
  {
    if bag == [] then [] else [PropertyName(bag[0].name)] + bag[0].raw + MembersTokens(bag[1..])
  }

  /** A bag as deserialization leaves it: no entry carries a name the type
      recognises, and every entry is one complete value. */
  ghost predicate ValidExtensions(bag: seq<Member>, known: set<string>)
  {
    forall i :: 0 <= i < |bag| ==> bag[i].name !in known && Complete(bag[i].raw)
  }

  lemma {:induction false} MembersTokensAppend(a: seq<Member>, b: seq<Member>)
    ensures MembersTokens(a + b) == MembersTokens(a) + MembersTokens(b)
    decreases |a|
  {
    if a == [] {
      assert a + b == b;
    } else {
      assert (a + b)[0] == a[0];
      assert (a + b)[1..] == a[1..] + b;
      MembersTokensAppend(a[1..], b);
    }
  }

  /** `DefaultPropertyDeserializer`: the value after the property `name`
      becomes a new bag entry. */
  function UnknownProperty(name: string, s: seq<Token>): (r: Result<(Member, seq<Token>)>)
    ensures r.Ok? ==> r.value.0.name == name && r.value.0.raw + r.value.1 == s
    ensures r.Ok? ==> Complete(r.value.0.raw) && SuffixOf(r.value.1, s) && |r.value.1| < |s|
    ensures r.Ok? <==> NextValue(s).Ok?
  {
    match NextValue(s)
    case Err(e) => Err(e)
    case Ok((raw, rest)) =>
      CapturedValueComplete(s);
      assert s[|s| - |rest|..] == rest;
      Ok((Member(name, raw), rest))
  }

  /** A bag entry written out is read back as the same entry. */
  lemma UnknownPropertyRoundTrip(m: Member, rest: seq<Token>)
    requires Complete(m.raw)
    ensures UnknownProperty(m.name, m.raw + rest) == Ok((m, rest))
  {
    CompleteValueFront(m.raw, rest);
  }

  /** `DefaultPropertyDeserializer(root, reader)`, called with the reader on
      the property name; the caller appends the entry to its bag. */
  method DefaultPropertyDeserializer(reader: JsonReader) returns (r: Result<Member>)
    requires reader.Valid() && reader.current.Some? && reader.current.value.PropertyName?
    modifies reader
    ensures reader.Valid()
    ensures match UnknownProperty(old(reader.current.value.name), old(reader.Remaining()))
            case Ok((m, rest)) => r == Ok(m) && reader.Remaining() == rest
            case Err(e) => r == Err(e)
  {
    var name := reader.current.value.name;
    var raw :- reader.ReadRawValue();
    r := Ok(Member(name, raw));
  }

  /** The bag from entry `i` on is entry `i` followed by the rest. */
  lemma MembersTokensFrom(bag: seq<Member>, i: nat)
    requires i < |bag|
    ensures MembersTokens(bag[i..]) == [PropertyName(bag[i].name)] + bag[i].raw + MembersTokens(bag[i + 1..])
  {
    assert bag[i..][0] == bag[i] && bag[i..][1..] == bag[i + 1..];
  }

  /** The base `Serialize(writer)`: writes the bag in insertion order. */
  method WriteExtensions(writer: JsonWriter, bag: seq<Member>)
    modifies writer
    ensures writer.output == old(writer.output) + MembersTokens(bag)
  {
    var i := 0;
    while i < |bag|
      invariant i <= |bag|
      invariant writer.output + MembersTokens(bag[i..]) == old(writer.output) + MembersTokens(bag)
    {
      ghost var out := writer.output;
      MembersTokensFrom(bag, i);
      AppendedInOrder(out, [PropertyName(bag[i].name)], bag[i].raw, MembersTokens(bag[i + 1..]));
      writer.WritePropertyName(bag[i].name);
      writer.WriteRaw(bag[i].raw);
      i := i + 1;
    }
    assert bag[i..] == [];
  }
}
