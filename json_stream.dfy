/** The reader and writer the schema types are handed: a forward-only cursor
    over a token sequence that stands for Newtonsoft's JsonReader, and an
    append-only token sequence that stands for its JsonWriter. */
module JsonStream {
  import opened JsonTokens

  class JsonReader {
    const tokens: seq<Token>
    var pos: nat
    /** TokenType and Value after the last read: None before the first read
        and once the stream is exhausted. */
    var current: Option<Token>

    ghost predicate Valid()
      reads this
    {
      pos <= |tokens|
    }

    /** The tokens not read yet. */
    ghost function Remaining(): seq<Token>
      reads this
      requires Valid()
    {
      tokens[pos..]
    }

    constructor (ts: seq<Token>)
      ensures Valid() && tokens == ts && Remaining() == ts && current == None
    {
      tokens := ts;
      pos := 0;
      current := None;
    }

    /** `Read()`: moves to the next token; false at the end of the stream. */
    method Read() returns (more: bool)
      requires Valid()
      modifies this
      ensures Valid()
      ensures more == (old(Remaining()) != [])
      ensures more ==> current == Some(old(Remaining())[0]) && Remaining() == old(Remaining())[1..]
      ensures more ==> pos == old(pos) + 1
      ensures !more ==> current == None && Remaining() == []
    {
      if pos < |tokens| {
        current := Some(tokens[pos]);
        pos := pos + 1;
        more := true;
      } else {
        current := None;
        more := false;
      }
    }

    /** `ReadAsDouble()`. */
    method ReadAsDouble() returns (r: Result<Option<Double>>)
      requires Valid()
      modifies this
      ensures Valid()
      ensures match NextDouble(old(Remaining()))
              case Ok((d, rest)) => r == Ok(d) && Remaining() == rest
              case Err(e) => r == Err(e)
    {
      var more := Read();
      if !more {
        return Ok(None);
      }
      match current.value
      case Number(d) => r := Ok(Some(d));
      case Null => r := Ok(None);
      case Str(_) => r := Err(ConversionFailure);
      case Boolean(_) => r := Err(ConversionFailure);
      case _ => r := Err(UnexpectedToken);
    }

    /** `ReadAsString()`. */
    method ReadAsString() returns (r: Result<Option<string>>)
      requires Valid()
      modifies this
      ensures Valid()
      ensures match NextString(old(Remaining()))
              case Ok((x, rest)) => r == Ok(x) && Remaining() == rest
              case Err(e) => r == Err(e)
    {
      var more := Read();
      if !more {
        return Ok(None);
      }
      match current.value
      case Str(x) => r := Ok(Some(x));
      case Null => r := Ok(None);
      case Number(_) => r := Err(ConversionFailure);
      case Boolean(_) => r := Err(ConversionFailure);
      case _ => r := Err(UnexpectedToken);
    }

    /** Reads one complete value and returns its tokens: a scalar, or a
        container up to the token that brings the depth back to zero. */
    method ReadRawValue() returns (r: Result<seq<Token>>)
      requires Valid()
      modifies this
      ensures Valid()
      ensures match NextValue(old(Remaining()))
              case Ok((raw, rest)) => r == Ok(raw) && Remaining() == rest
              case Err(e) => r == Err(e)
    {
      ghost var s := Remaining();
      var more := Read();
      if !more {
        return Err(UnexpectedEnd);
      }
      var t := current.value;
      if IsScalar(t) {
        return Ok([t]);
      } else if !Opens(t) {
        return Err(UnexpectedToken);
      }
      var inner := ReadToClose(1);
      if inner.None? {
        return Err(UnexpectedEnd);
      }
      r := Ok([t] + inner.value);
      ghost var k := CloseLen(s[1..], 1).value;
      assert s[..k + 1] == [t] + s[1..][..k] && s[k + 1..] == s[1..][k..];
    }

    /** Reads tokens until `depth` open containers are closed; None when the
        stream ends first. */
    method ReadToClose(depth: nat) returns (r: Option<seq<Token>>)
      requires Valid()
      modifies this
      ensures Valid()
      ensures match CloseLen(old(Remaining()), depth)
              case Some(k) => r == Some(old(Remaining())[..k]) && Remaining() == old(Remaining())[k..]
              case None => r.None?
    {
      var start := pos;
      var d := depth;
      while d > 0
        invariant Valid() && start <= pos
        invariant CloseLen(tokens[start..], depth) == Shift(CloseLen(tokens[pos..], d), pos - start)
        decreases |tokens| - pos
      {
        ghost var before := pos;
        var more := Read();
        if !more {
          return None;
        }
        assert tokens[before..] == [current.value] + tokens[pos..];
        CloseLenStep(current.value, tokens[pos..], d, before - start);
        d := Nest(current.value, d);
      }
      r := Some(tokens[start..pos]);
      assert tokens[start..][..pos - start] == tokens[start..pos];
      assert tokens[start..][pos - start..] == tokens[pos..];
    }
  }

  /** `reader.ReadAsDouble().Value`: the next value must be a number. */
  method ReadDoubleValue(reader: JsonReader) returns (r: Result<Double>)
    requires reader.Valid()
    modifies reader
    ensures reader.Valid()
    ensures match NextNumber(old(reader.Remaining()))
            case Ok((d, rest)) => r == Ok(d) && reader.Remaining() == rest
            case Err(e) => r == Err(e)
  {
    var d :- reader.ReadAsDouble();
    if d.None? {
      return Err(NullNumber);
    }
    r := Ok(d.value);
  }

  class JsonWriter {
    /** Everything written so far. */
    var output: seq<Token>

    constructor ()
      ensures output == []
    {
      output := [];
    }

    method WriteStartObject()
      modifies this
      ensures output == old(output) + [StartObject]
    {
      output := output + [StartObject];
    }

    method WriteEndObject()
      modifies this
      ensures output == old(output) + [EndObject]
    {
      output := output + [EndObject];
    }

    method WritePropertyName(name: string)
      modifies this
      ensures output == old(output) + [PropertyName(name)]
    {
      output := output + [PropertyName(name)];
    }

    /** `WriteValue(double)`. */
    method WriteValue(d: Double)
      modifies this
      ensures output == old(output) + [Number(d)]
    {
      output := output + [Number(d)];
    }

    /** `WriteValue(string)`: a null string is written as a null token. */
    method WriteStringValue(s: Option<string>)
      modifies this
      ensures output == old(output) + [StringToken(s)]
    {
      output := output + [StringToken(s)];
    }

    /** `WritePropertyName(name)` followed by `WriteValue(d)`. */
    method WriteNumberProperty(name: string, d: Double)
      modifies this
      ensures output == old(output) + [PropertyName(name), Number(d)]
    {
      WritePropertyName(name);
      WriteValue(d);
    }

    /** `WritePropertyName(name)` followed by `WriteValue(s)`. */
    method WriteStringProperty(name: string, s: Option<string>)
      modifies this
      ensures output == old(output) + [PropertyName(name), StringToken(s)]
    {
      WritePropertyName(name);
      WriteStringValue(s);
    }

    /** Writes captured tokens back out one by one. */
    method WriteRaw(raw: seq<Token>)
      modifies this
      ensures output == old(output) + raw
    {
      var i := 0;
      while i < |raw|
        invariant i <= |raw|
        invariant output == old(output) + raw[..i]
      {
        output := output + [raw[i]];
        i := i + 1;
        assert raw[..i] == raw[..i - 1] + [raw[i - 1]];
      }
      assert raw[..i] == raw;
    }
  }
}
