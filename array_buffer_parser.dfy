/** The `ArrayBuffer` parser's byte-level helpers: its own byte order mark
    strip and its own copy of the near-JSON normaliser. */
module ArrayBufferParser {
  import opened JsonLexer
  import BufferParser

  /** `stripBOM`: compares the first three bytes one by one and slices them
      off when they are EF BB BF. */
  function StripBOM(b: seq<byte>): (r: seq<byte>)
    ensures |b| >= 3 && b[0] == 0xEF && b[1] == 0xBB && b[2] == 0xBF ==> |r| == |b| - 3 && b == b[..3] + r
    ensures !(|b| >= 3 && b[0] == 0xEF && b[1] == 0xBB && b[2] == 0xBF) ==> r == b
  {
    if |b| >= 3 && b[0] == 0xEF && b[1] == 0xBB && b[2] == 0xBF then b[3..] else b
  }

  /** The byte-by-byte comparison and the Node parser's prefix comparison
      strip the same inputs the same way. */
  lemma StripBOMAgrees(b: seq<byte>)
    ensures StripBOM(b) == BufferParser.StripBOM(b)
  {
    if |b| >= 3 && b[0] == 0xEF && b[1] == 0xBB && b[2] == 0xBF {
      assert b[..3] == BufferParser.BOM;
    }
  }

  /** `normalizeJsonArrayBuffer`: the same machine as the Node normaliser,
      written with an `if`/`else` on the escape state instead of `continue`.
      Its result is the same kept-byte sequence, so the two normalisers agree
      byte for byte on every input. */
  method NormalizeJsonArrayBuffer(view: array<byte>) returns (result: array<byte>)
    ensures result[..] == Normalized(view[..])
  {
    ghost var s := view[..];
    var builder: seq<seq<byte>> := [];
    var last := Other;
    var from := 0;
    for i := 0 to view.Length
      invariant 0 <= from <= i
      invariant BuilderInvariant(s, builder, from, i, last)
    {
      StepKeepsInvariant(s, builder, from, i);
      var charCode := view[i];
      if last == Escape {
        last := InString;
      } else if charCode == Quote {
        if last == InString {
          last := Other;
        } else {
          if last == AfterComma {
            builder := builder + [[Comma]];
          }
          last := InString;
        }
      } else if charCode == Backslash {
        if last == InString {
          last := Escape;
        }
      } else if charCode == Comma {
        builder := builder + [view[from..i]];
        from := i + 1;
        if last == Other {
          last := AfterComma;
        }
      } else if charCode == CloseBracket || charCode == CloseBrace {
        if last == AfterComma {
          last := Other;
        }
      } else if !IsWhitespace(charCode) && last == AfterComma {
        builder := builder + [[Comma]];
        last := Other;
      }
    }
    FinishInvariant(s, builder, from);
    builder := builder + [view[from..]];
    result := Concat(builder);
  }
}
