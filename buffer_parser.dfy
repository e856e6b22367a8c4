/** The Node `Buffer` parser's byte-level helpers: the UTF-8 byte order mark
    strip, the raw-newline-in-string detector and the near-JSON normaliser. */
module BufferParser {
  import opened Seqs
  import opened JsonLexer

  /** The UTF-8 byte order mark EF BB BF. */
  const BOM: seq<byte> := [0xEF, 0xBB, 0xBF]

  /** `stripBOM`: drops a leading byte order mark, and only that. */
  function StripBOM(b: seq<byte>): (r: seq<byte>)
    ensures |b| >= 3 && b[..3] == BOM ==> b == BOM + r
    ensures !(|b| >= 3 && b[..3] == BOM) ==> r == b
  {
    if |b| >= 3 && b[..3] == BOM then b[3..] else b
  }

  /** Stripping undoes prefixing a byte order mark. */
  lemma StripBOMOfPrefixed(x: seq<byte>)
    ensures StripBOM(BOM + x) == x
  {
    assert (BOM + x)[..3] == BOM;
  }

  /** `hasRawNewlineInStringBuffer`: whether a line feed or carriage return
      is read in string state, the byte after an in-string backslash being
      skipped. */
  method HasRawNewlineInStringBuffer(buf: array<byte>) returns (r: bool)
    ensures r == RawNewlineIn(buf[..])
  {
    ghost var s := buf[..];
    var last := Other;
    var i := 0;
    while i < buf.Length
      invariant 0 <= i <= buf.Length
      invariant last == StateAt(s, i)
      invariant NoRawNewlineBefore(s, i)
    {
      var c := buf[i];
      if last == Escape {
        last := InString;
        i := i + 1;
        continue;
      }
      if c == Quote {
        if last == InString {
          last := Other;
        } else {
          last := InString;
        }
      } else if c == Backslash {
        if last == InString {
          last := Escape;
        }
      } else if c == Comma {
        if last == Other {
          last := AfterComma;
        }
      } else if c == CloseBracket || c == CloseBrace {
        if last == AfterComma {
          last := Other;
        }
      } else if IsWhitespace(c) {
        if (c == 10 || c == 13) && last == InString {
          return true;
        }
      } else {
        if last == AfterComma {
          last := Other;
        }
      }
      i := i + 1;
    }
    NoRawNewlineBeforeAll(s, |s|);
    return false;
  }

  /** No line feed or carriage return among the first `i` bytes is read in
      string state. */
  predicate NoRawNewlineBefore(s: seq<byte>, i: nat)
    requires i <= |s|
  {
    i == 0 || (NoRawNewlineBefore(s, i - 1) && !((s[i - 1] == 10 || s[i - 1] == 13) && StateAt(s, i - 1) == InString))
  }

  lemma {:induction false} NoRawNewlineBeforeAll(s: seq<byte>, i: nat)
    requires i <= |s| && NoRawNewlineBefore(s, i)
    ensures forall k :: 0 <= k < i ==> !((s[k] == 10 || s[k] == 13) && StateAt(s, k) == InString)
  {
    if i > 0 {
      NoRawNewlineBeforeAll(s, i - 1);
    }
  }

  /** `normalizeJsonUint8`: splits the input at every comma byte outside an
      escape, re-emits a comma only when leaving the comma state on a value
      byte, and concatenates the pieces. The result is exactly the kept
      bytes of the input. */
  method NormalizeJsonUint8(buf: array<byte>) returns (out: array<byte>)
    ensures out[..] == Normalized(buf[..])
  {
    ghost var s := buf[..];
    var builder: seq<seq<byte>> := [];
    var last := Other;
    var from := 0;
    var i := 0;
    while i < buf.Length
      invariant 0 <= from <= i <= buf.Length
      invariant BuilderInvariant(s, builder, from, i, last)
    {
      StepKeepsInvariant(s, builder, from, i);
      var charCode := buf[i];
      if last == Escape {
        last := InString;
        i := i + 1;
        continue;
      }
      if charCode == Quote {
        if last == InString {
          last := Other;
        } else {
          if last == AfterComma {
            builder := builder + [[Comma]];
          }
          last := InString;
        }
      } else if charCode == Backslash {
        if last == InString {
          last := Escape;
        }
      } else if charCode == Comma {
        builder := builder + [buf[from..i]];
        from := i + 1;
        if last == Other {
          last := AfterComma;
        }
      } else if charCode == CloseBracket || charCode == CloseBrace {
        if last == AfterComma {
          last := Other;
        }
      } else if IsWhitespace(charCode) {
        // whitespace is copied like any other byte
      } else {
        if last == AfterComma {
          builder := builder + [[Comma]];
          last := Other;
        }
      }
      i := i + 1;
    }
    FinishInvariant(s, builder, from);
    builder := builder + [buf[from..]];
    out := Concat(builder);
  }
}
