/** The JSON token stream that the glTF schema types read and write, and what
    the reader's value-reading calls take from the front of a stream. Every
    reading function here takes the REMAINING tokens and, on success, returns
    the value it read together with the tokens that are left. */
module JsonTokens {

  datatype Option<T> = None | Some(value: T)

  /** The exceptions a read can raise; none of them is recovered locally. */
  datatype Error =
    | NotAnObject        // a schema object did not start with StartObject
    | NullNumber         // `.Value` of a null `double?` (a missing or null number)
    | UnexpectedToken    // a structural token where a value was expected
    | ConversionFailure  // a scalar the reader does not convert to the type asked for
    | UnexpectedEnd      // the stream ended inside a value

  datatype Result<T> = Ok(value: T) | Err(error: Error) {
    predicate IsFailure() { Err? }

    function PropagateFailure<U>(): Result<U>
      requires Err?
    {
      Err(error)
    }

    function Extract(): T
      requires Ok?
    {
      value
    }
  }

  /** A C# double as far as this codec looks at it: its values are only stored,
      copied and compared with 0 and with positive infinity. */
  datatype Double = Finite(r: real) | PositiveInfinity | NegativeInfinity | NaN

  const Zero: Double := Finite(0.0)

  datatype Token =
    | StartObject
    | EndObject
    | StartArray
    | EndArray
    | PropertyName(name: string)
    | Str(s: string)
    | Number(d: Double)
    | Boolean(b: bool)
    | Null

  predicate IsScalar(t: Token) { t.Str? || t.Number? || t.Boolean? || t.Null? }

  predicate Opens(t: Token) { t.StartObject? || t.StartArray? }

  predicate Closes(t: Token) { t.EndObject? || t.EndArray? }

  /** The token `WriteValue(string)` writes: a null string is written as null. */
  function StringToken(s: Option<string>): Token
  {
    match s
    case None => Null
    case Some(x) => Str(x)
  }

  lemma AppendAssoc<X>(a: seq<X>, b: seq<X>, c: seq<X>)
    ensures a + b + c == a + (b + c)
  {
  }

  lemma AppendEmpty<X>(s: seq<X>)
    ensures [] + s == s && s + [] == s
  {
  }

  /** The head and the tail of a sequence built by prepending one element. */
  lemma ConsParts<X>(x: X, s: seq<X>)
    ensures ([x] + s)[0] == x && ([x] + s)[1..] == s
  {
  }

  /** Regrouping what a writer has appended in four steps. */
  lemma AppendedInOrder<X>(out: seq<X>, a: seq<X>, b: seq<X>, c: seq<X>)
    ensures out + a + b + c == out + (a + b + c)
  {
  }

  /** `rest` is what a forward-only reader can have left of `s`. */
  predicate SuffixOf(rest: seq<Token>, s: seq<Token>)
  {
    |rest| <= |s| && rest == s[|s| - |rest|..]
  }

  /** The container depth after token `t`, starting at `depth`. */
  function Nest(t: Token, depth: nat): nat
  {
    if Opens(t) then depth + 1
    else if Closes(t) && depth > 0 then depth - 1
    else depth
  }

  /** The number of tokens at the front of `s` that close `depth` open
      containers, or None when `s` ends before they are all closed. */
  function CloseLen(s: seq<Token>, depth: nat): (r: Option<nat>)
    ensures r.Some? ==> r.value <= |s|
    ensures r.Some? ==> (r.value == 0 <==> depth == 0)
    decreases |s|
  {
    if depth == 0 then Some(0)
    else if s == [] then None
    else
      match CloseLen(s[1..], Nest(s[0], depth))
      case None => None
      case Some(k) => Some(k + 1)
  }

  /** `o` moved on by `k` tokens. */
  function Shift(o: Option<nat>, k: nat): Option<nat>
  {
    match o
    case None => None
    case Some(n) => Some(n + k)
  }

  /** One step of CloseLen, seen from `k` tokens further on. */
  lemma CloseLenStep(t: Token, rest: seq<Token>, depth: nat, k: nat)
    requires depth > 0
    ensures Shift(CloseLen([t] + rest, depth), k) == Shift(CloseLen(rest, Nest(t, depth)), k + 1)
  {
    assert ([t] + rest)[0] == t && ([t] + rest)[1..] == rest;
  }

  /** One complete value at the front of `s`: a scalar token, or a container
      and everything up to the token that closes it. */
  function NextValue(s: seq<Token>): (r: Result<(seq<Token>, seq<Token>)>)
    ensures r.Ok? ==> r.value.0 != [] && r.value.0 + r.value.1 == s
    ensures r.Ok? <==> s != [] && (IsScalar(s[0]) || (Opens(s[0]) && CloseLen(s[1..], 1).Some?))
  {
    if s == [] then Err(UnexpectedEnd)
    else if IsScalar(s[0]) then Ok(([s[0]], s[1..]))
    else if Opens(s[0]) then
      match CloseLen(s[1..], 1)
      case None => Err(UnexpectedEnd)
      case Some(k) => Ok((s[..k + 1], s[k + 1..]))
    else Err(UnexpectedToken)
  }

  /** `raw` is exactly one complete value. */
  predicate Complete(raw: seq<Token>)
  {
    NextValue(raw) == Ok((raw, []))
  }

  /** Tokens after a closed span do not change where it closes. */
  lemma {:induction false} CloseLenExtend(s: seq<Token>, t: seq<Token>, depth: nat)
    requires CloseLen(s, depth) == Some(|s|)
    ensures CloseLen(s + t, depth) == Some(|s|)
    decreases |s|
  {
    if depth != 0 {
      assert s != [];
      assert (s + t)[1..] == s[1..] + t;
      CloseLenExtend(s[1..], t, Nest(s[0], depth));
    }
  }

  /** Cutting a stream right after the span that closes does not change the span. */
  lemma {:induction false} CloseLenRestrict(s: seq<Token>, depth: nat, k: nat)
    requires CloseLen(s, depth) == Some(k)
    ensures CloseLen(s[..k], depth) == Some(k)
    decreases |s|
  {
    if depth != 0 {
      var k' := CloseLen(s[1..], Nest(s[0], depth)).value;
      CloseLenRestrict(s[1..], Nest(s[0], depth), k');
      assert s[..k][1..] == s[1..][..k'];
    }
  }

  /** A complete value is read back as itself whatever follows it. */
  lemma CompleteValueFront(raw: seq<Token>, rest: seq<Token>)
    requires Complete(raw)
    ensures NextValue(raw + rest) == Ok((raw, rest))
  {
    assert (raw + rest)[0] == raw[0];
    if Opens(raw[0]) {
      var k := CloseLen(raw[1..], 1).value;
      assert k == |raw| - 1;
      CloseLenExtend(raw[1..], rest, 1);
      assert (raw + rest)[1..] == raw[1..] + rest;
    }
  }

  /** What NextValue captures is a complete value. */
  lemma CapturedValueComplete(s: seq<Token>)
    requires NextValue(s).Ok?
    ensures Complete(NextValue(s).value.0)
  {
    var raw := NextValue(s).value.0;
    if Opens(s[0]) {
      var k := CloseLen(s[1..], 1).value;
      CloseLenRestrict(s[1..], 1, k);
      assert raw == s[..k + 1] && raw[0] == s[0];
      assert raw[1..] == s[1..][..k];
      assert raw[..k + 1] == raw && raw[k + 1..] == [];
    }
  }

  /** `ReadAsDouble()`: the next token as a nullable double. The end of the
      stream and a null token both give null. */
  function NextDouble(s: seq<Token>): (r: Result<(Option<Double>, seq<Token>)>)
    ensures r.Ok? ==> SuffixOf(r.value.1, s) && (s != [] ==> r.value.1 == s[1..])
    ensures r.Ok? && r.value.0.Some? ==> s != [] && s[0] == Number(r.value.0.value)
    ensures r.Ok? <==> s == [] || s[0].Number? || s[0].Null?
  {
    if s == [] then Ok((None, []))
    else
      match s[0]
      case Number(d) => Ok((Some(d), s[1..]))
      case Null => Ok((None, s[1..]))
      case Str(_) => Err(ConversionFailure)
      case Boolean(_) => Err(ConversionFailure)
      case _ => Err(UnexpectedToken)
  }

  /** `ReadAsDouble().Value`: a number is required; null fails. */
  function NextNumber(s: seq<Token>): (r: Result<(Double, seq<Token>)>)
    ensures r.Ok? <==> s != [] && s[0].Number?
    ensures r.Ok? ==> r.value == (s[0].d, s[1..])
    ensures r.Err? && (s == [] || s[0].Null?) ==> r.error == NullNumber
  {
    match NextDouble(s)
    case Err(e) => Err(e)
    case Ok((None, _)) => Err(NullNumber)
    case Ok((Some(d), rest)) => Ok((d, rest))
  }

  /** `ReadAsString()`: the next token as a nullable string. The end of the
      stream and a null token both give null. */
  function NextString(s: seq<Token>): (r: Result<(Option<string>, seq<Token>)>)
    ensures r.Ok? ==> SuffixOf(r.value.1, s) && (s != [] ==> r.value.1 == s[1..])
    ensures r.Ok? ==> s == [] || s[0] == StringToken(r.value.0)
    ensures r.Ok? <==> s == [] || s[0].Str? || s[0].Null?
  {
    if s == [] then Ok((None, []))
    else
      match s[0]
      case Str(x) => Ok((Some(x), s[1..]))
      case Null => Ok((None, s[1..]))
      case Number(_) => Err(ConversionFailure)
      case Boolean(_) => Err(ConversionFailure)
      case _ => Err(UnexpectedToken)
  }

  /** A string written with `WriteValue(string)` is read back by `ReadAsString()`. */
  lemma StringTokenRoundTrip(s: Option<string>, rest: seq<Token>)
    ensures NextString([StringToken(s)] + rest) == Ok((s, rest))
  {
    assert ([StringToken(s)] + rest)[1..] == rest;
  }
}
