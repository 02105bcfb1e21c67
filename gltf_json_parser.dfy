/** `GLTFJsonParser.ReadObject`: a character scan over a text reader that
    collects everything up to the first closing brace. */
module JsonParser {

  /** A forward-only reader over a text, as `TextReader.Read()` sees it. */
  class TextReader {
    const text: string
    var pos: nat

    ghost predicate Valid()
      reads this
    {
      pos <= |text|
    }

    /** The characters not read yet. */
    ghost function Remaining(): string
      reads this
      requires Valid()
    {
      text[pos..]
    }

    constructor (t: string)
      ensures Valid() && text == t && Remaining() == t
    {
      text := t;
      pos := 0;
    }

    /** `Read()`: the next character as an int, or -1 at the end of the text. */
    method Read() returns (ch: int)
      requires Valid()
      modifies this
      ensures Valid()
      ensures old(Remaining()) == [] ==> ch == -1 && pos == old(pos)
      ensures old(Remaining()) != [] ==> ch == old(Remaining())[0] as int && pos == old(pos) + 1
    {
      if pos < |text| {
        ch := text[pos] as int;
        pos := pos + 1;
      } else {
        ch := -1;
      }
    }
  }

  /** The longest prefix of `s` that holds no `}`. */
  function BeforeClose(s: string): string
  {
    if s == [] || s[0] == '}' then [] else [s[0]] + BeforeClose(s[1..])
  }

  /** What BeforeClose returns is a prefix of its input without a `}`, and
      it stops only at the end of the input or at a `}`. */
  lemma {:induction false} BeforeCloseShape(s: string)
    ensures |BeforeClose(s)| <= |s| && BeforeClose(s) == s[..|BeforeClose(s)|]
    ensures '}' !in BeforeClose(s)
    ensures |BeforeClose(s)| < |s| ==> s[|BeforeClose(s)|] == '}'
  {
    if s != [] && s[0] != '}' {
      BeforeCloseShape(s[1..]);
      var r := BeforeClose(s[1..]);
      assert BeforeClose(s) == [s[0]] + r;
      assert s[..|r| + 1] == [s[0]] + s[1..][..|r|];
      assert |r| < |s[1..]| ==> s[|r| + 1] == s[1..][|r|];
    }
  }

  /** The three properties above pick out BeforeClose: a prefix of `s`
      without a `}` that ends at the end of `s` or at a `}` is BeforeClose(s). */
  lemma {:induction false} BeforeCloseUnique(s: string, p: string)
    ensures (|p| <= |s| && p == s[..|p|] && '}' !in p && (|p| < |s| ==> s[|p|] == '}'))
            <==> p == BeforeClose(s)
  {
    BeforeCloseShape(s);
    if |p| <= |s| && p == s[..|p|] && '}' !in p && (|p| < |s| ==> s[|p|] == '}') {
      BeforeCloseIsPrefixOf(s, p);
    }
  }

  /** A prefix of `s` without a `}` that ends at the end of `s` or at a `}`
      is BeforeClose(s). */
  lemma {:induction false} BeforeCloseIsPrefixOf(s: string, p: string)
    requires |p| <= |s| && p == s[..|p|] && '}' !in p
    requires |p| < |s| ==> s[|p|] == '}'
    ensures p == BeforeClose(s)
  {
    if p == [] {
      assert s == [] || s[0] == '}';
    } else {
      assert p[0] == s[0] && s[0] != '}';
      assert p[1..] == s[1..][..|p| - 1];
      assert |p| - 1 < |s[1..]| ==> s[1..][|p| - 1] == s[|p|];
      assert '}' !in p[1..] by {
        forall i | 0 <= i < |p[1..]|
          ensures p[1..][i] != '}'
        {
          assert p[1..][i] == p[i + 1];
        }
      }
      BeforeCloseIsPrefixOf(s[1..], p[1..]);
      assert p == [p[0]] + p[1..];
    }
  }

  /** No prefix of `s` without a `}` is longer than BeforeClose(s). */
  lemma BeforeCloseLongest(s: string, p: string)
    requires |p| <= |s| && p == s[..|p|] && '}' !in p
    ensures |p| <= |BeforeClose(s)|
  {
    BeforeCloseShape(s);
    var n := |BeforeClose(s)|;
    if n < |p| {
      assert false;
    }
  }

  /** One character that is not `}` moves from the text into the result. */
  lemma BeforeCloseStep(s: string, i: nat)
    requires i < |s| && s[i] != '}'
    ensures BeforeClose(s[i..]) == [s[i]] + BeforeClose(s[i + 1..])
  {
    assert s[i..][0] == s[i] && s[i..][1..] == s[i + 1..];
  }

  /** `ReadObject(tr, out ret)`: reads characters while they are not `}`;
      the `}` that ends the scan is consumed and is not part of `ret`. */
  method ReadObject(tr: TextReader) returns (ret: string)
    requires tr.Valid()
    modifies tr
    ensures tr.Valid()
    ensures ret == BeforeClose(old(tr.Remaining()))
    ensures '}' !in ret && |ret| <= |old(tr.Remaining())| && ret == old(tr.Remaining())[..|ret|]
    ensures |ret| < |old(tr.Remaining())| ==> tr.Remaining() == old(tr.Remaining())[|ret| + 1..]
    ensures |ret| == |old(tr.Remaining())| ==> tr.Remaining() == []
  {
    var ch := 0;
    ret := "";
    ghost var start := tr.pos;
    while true
      invariant tr.Valid() && start <= tr.pos
      invariant ret + BeforeClose(tr.text[tr.pos..]) == BeforeClose(tr.text[start..])
      invariant |ret| == tr.pos - start
      decreases |tr.text| - tr.pos
    {
      ghost var at := tr.pos;
      ch := tr.Read();
      if ch == -1 {
        break;
      }
      if ch != '}' as int {
        BeforeCloseStep(tr.text, at);
        ret := ret + [ch as char];
      } else {
        assert tr.text[at..][0] == '}';
        BeforeCloseShape(tr.text[start..]);
        assert tr.text[start..][|ret|] == tr.text[at];
        assert tr.text[start..][|ret| + 1..] == tr.text[tr.pos..];
        return;
      }
    }
    BeforeCloseShape(tr.text[start..]);
  }
}
