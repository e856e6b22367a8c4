/** The byte-level scanner shared by the buffer parsers' newline detector and
    near-JSON normaliser, and the specification of what the normaliser
    keeps. Both parsers run the same four-state machine over the bytes. */
module JsonLexer {
  import opened Seqs

  newtype byte = x: int | 0 <= x < 256

  const Quote: byte := 34
  const Backslash: byte := 92
  const Comma: byte := 44
  const CloseBracket: byte := 93
  const CloseBrace: byte := 125

  /** The scanner's `last` variable: `"other" | "string" | "escape" | "comma"`. */
  datatype LexState = Other | InString | Escape | AfterComma

  /** Bytes 9-13 and 32, which leave the state as it is. */
  predicate IsWhitespace(c: byte)
  {
    c == 9 || c == 10 || c == 11 || c == 12 || c == 13 || c == 32
  }

  /** One step of the machine: the state after reading `c` in state `st`. */
  function Step(st: LexState, c: byte): LexState
  {
    if st == Escape then InString
    else if c == Quote then (if st == InString then Other else InString)
    else if c == Backslash then (if st == InString then Escape else st)
    else if c == Comma then (if st == Other then AfterComma else st)
    else if c == CloseBracket || c == CloseBrace then (if st == AfterComma then Other else st)
    else if IsWhitespace(c) then st
    else if st == AfterComma then Other
    else st
  }

  /** The state in which byte `i` is read (the state after bytes 0..i-1). */
  function StateAt(s: seq<byte>, i: nat): LexState
    requires i <= |s|
  {
    if i == 0 then Other else Step(StateAt(s, i - 1), s[i - 1])
  }

  /** A byte that neither changes the comma state nor ends it: whitespace, or
      a backslash outside a string. */
  predicate IsInsignificant(c: byte)
  {
    IsWhitespace(c) || c == Backslash
  }

  /** Whether, from position `j` on, skipping insignificant bytes, the next
      byte is one that emits a pending comma: anything but another comma, a
      closing bracket or brace, or the end of input. */
  predicate ValueFollows(s: seq<byte>, j: nat)
    decreases |s| - j
  {
    j < |s| &&
    if IsInsignificant(s[j]) then ValueFollows(s, j + 1)
    else s[j] != Comma && s[j] != CloseBracket && s[j] != CloseBrace
  }

  /** Whether the normaliser keeps byte `i`: every byte except an unescaped
      comma, and of those only the last comma of a run outside strings that
      a value follows. */
  predicate Kept(s: seq<byte>, i: nat)
    requires i < |s|
  {
    var st := StateAt(s, i);
    st == Escape || s[i] != Comma || ((st == Other || st == AfterComma) && ValueFollows(s, i + 1))
  }

  /** The kept bytes among the first `i`. */
  function KeptPrefix(s: seq<byte>, i: nat): (r: seq<byte>)
    requires i <= |s|
    ensures |r| <= i
  {
    if i == 0 then [] else KeptPrefix(s, i - 1) + (if Kept(s, i - 1) then [s[i - 1]] else [])
  }

  /** The normaliser's output: the kept bytes, in order. */
  function Normalized(s: seq<byte>): seq<byte>
  {
    KeptPrefix(s, |s|)
  }

  /** A raw line feed or carriage return read while inside a string. */
  predicate RawNewlineIn(s: seq<byte>)
  {
    exists i :: 0 <= i < |s| && (s[i] == 10 || s[i] == 13) && StateAt(s, i) == InString
  }

  function WithoutCommas(s: seq<byte>): seq<byte>
  {
    if |s| == 0 then [] else WithoutCommas(s[..|s| - 1]) + (if s[|s| - 1] == Comma then [] else [s[|s| - 1]])
  }

  /** Normalising never lengthens the input. */
  lemma NormalizedNotLonger(s: seq<byte>)
    ensures |Normalized(s)| <= |s|
  {
  }

  lemma {:induction false} KeptPrefixWithoutCommas(s: seq<byte>, i: nat)
    requires i <= |s|
    ensures WithoutCommas(KeptPrefix(s, i)) == WithoutCommas(s[..i])
  {
    if i > 0 {
      KeptPrefixWithoutCommas(s, i - 1);
      assert s[..i][..i - 1] == s[..i - 1];
      var k := KeptPrefix(s, i - 1);
      var tail := if Kept(s, i - 1) then [s[i - 1]] else [];
      if tail == [] {
        assert k + tail == k;
      } else {
        assert (k + tail)[..|k + tail| - 1] == k;
      }
    }
  }

  /** Only commas are dropped: deleting every comma from the output gives the
      input with every comma deleted, so all other bytes (whitespace included)
      survive in order. */
  lemma NormalizedKeepsNonCommas(s: seq<byte>)
    ensures WithoutCommas(Normalized(s)) == WithoutCommas(s)
  {
    KeptPrefixWithoutCommas(s, |s|);
    assert s[..|s|] == s;
  }

  lemma {:induction false} KeptPrefixCommaFree(s: seq<byte>, i: nat)
    requires i <= |s|
    requires Comma !in s
    ensures KeptPrefix(s, i) == s[..i]
  {
    if i > 0 {
      KeptPrefixCommaFree(s, i - 1);
      assert s[..i] == s[..i - 1] + [s[i - 1]];
    }
  }

  /** Input with no comma byte is returned unchanged. */
  lemma CommaFreeUnchanged(s: seq<byte>)
    requires Comma !in s
    ensures Normalized(s) == s
  {
    KeptPrefixCommaFree(s, |s|);
    assert s[..|s|] == s;
  }

  lemma {:induction false} ValueFollowsSkips(s: seq<byte>, a: nat, j: nat)
    requires a <= j <= |s|
    requires forall k :: a <= k < j ==> IsInsignificant(s[k])
    ensures ValueFollows(s, a) == ValueFollows(s, j)
    decreases j - a
  {
    if a < j {
      ValueFollowsSkips(s, a + 1, j);
    }
  }

  /** A comma followed, after insignificant bytes only, by `]`, `}`, another
      comma or the end of input is dropped: trailing commas go, and of a run
      of commas at most the last survives. */
  lemma CommaBeforeCloserDropped(s: seq<byte>, i: nat, j: nat)
    requires i < j <= |s|
    requires s[i] == Comma && StateAt(s, i) != Escape
    requires forall k :: i < k < j ==> IsInsignificant(s[k])
    requires j == |s| || s[j] == CloseBracket || s[j] == CloseBrace || s[j] == Comma
    ensures !Kept(s, i)
  {
    ValueFollowsSkips(s, i + 1, j);
  }

  /** A comma read inside a string is dropped and never emitted again. */
  lemma CommaInStringDropped(s: seq<byte>, i: nat)
    requires i < |s| && s[i] == Comma && StateAt(s, i) == InString
    ensures !Kept(s, i)
  {
  }

  /** The byte after an in-string backslash is skipped: whatever it is (a
      quote in particular), the string is still open after it. */
  lemma EscapedByteStaysInString(s: seq<byte>, i: nat)
    requires i + 2 <= |s| && s[i] == Backslash && StateAt(s, i) == InString
    ensures StateAt(s, i + 2) == InString
  {
    assert StateAt(s, i + 1) == Escape;
  }

  lemma {:induction false} NoQuoteStates(s: seq<byte>, i: nat)
    requires i <= |s|
    requires Quote !in s
    ensures StateAt(s, i) == Other || StateAt(s, i) == AfterComma
  {
    if i > 0 {
      NoQuoteStates(s, i - 1);
    }
  }

  /** Without a quote byte there is no string to be in, and without a line
      feed or carriage return there is nothing to find. */
  lemma NoRawNewlineWithout(s: seq<byte>)
    requires Quote !in s || (10 !in s && 13 !in s)
    ensures !RawNewlineIn(s)
  {
    if Quote !in s {
      forall i | 0 <= i < |s|
        ensures StateAt(s, i) != InString
      {
        NoQuoteStates(s, i);
      }
    }
  }

  /** `[1,2,]` normalises to `[1,2]`. */
  lemma TrailingCommaExample()
    ensures Normalized([91, 49, 44, 50, 44, 93]) == [91, 49, 44, 50, 93]
  {
    var s: seq<byte> := [91, 49, 44, 50, 44, 93];
    assert StateAt(s, 2) == Other && StateAt(s, 4) == Other;
    assert ValueFollows(s, 3);
    assert !ValueFollows(s, 5);
    assert KeptPrefix(s, 1) == [91];
    assert KeptPrefix(s, 2) == [91, 49];
    assert KeptPrefix(s, 3) == [91, 49, 44];
    assert KeptPrefix(s, 4) == [91, 49, 44, 50];
    assert KeptPrefix(s, 5) == [91, 49, 44, 50];
  }

  /** `[1,,2]` normalises to `[1,2]`: the first comma of the run goes, the
      second is re-emitted. */
  lemma CommaRunExample()
    ensures Normalized([91, 49, 44, 44, 50, 93]) == [91, 49, 44, 50, 93]
  {
    var s: seq<byte> := [91, 49, 44, 44, 50, 93];
    assert StateAt(s, 2) == Other && StateAt(s, 3) == AfterComma;
    assert !ValueFollows(s, 3);
    assert ValueFollows(s, 4);
    assert KeptPrefix(s, 1) == [91];
    assert KeptPrefix(s, 2) == [91, 49];
    assert KeptPrefix(s, 3) == [91, 49];
    assert KeptPrefix(s, 4) == [91, 49, 44];
    assert KeptPrefix(s, 5) == [91, 49, 44, 50];
  }

  /** `"a,b"` normalises to `"ab"`, contrary to the normaliser's own claim
      that string contents are left untouched. */
  lemma CommaInStringExample()
    ensures Normalized([34, 97, 44, 98, 34]) == [34, 97, 98, 34]
  {
    var s: seq<byte> := [34, 97, 44, 98, 34];
    assert StateAt(s, 2) == InString;
    assert KeptPrefix(s, 1) == [34];
    assert KeptPrefix(s, 2) == [34, 97];
    assert KeptPrefix(s, 3) == [34, 97];
    assert KeptPrefix(s, 4) == [34, 97, 98];
  }

  /** `"a\"` + line feed + `"`: the escaped quote does not close the string,
      so the line feed is a raw newline inside it. */
  lemma EscapedQuoteExample()
    ensures RawNewlineIn([34, 97, 92, 34, 10, 34])
  {
    var s: seq<byte> := [34, 97, 92, 34, 10, 34];
    assert StateAt(s, 3) == Escape;
    assert StateAt(s, 4) == InString;
  }

  // The builder of pieces both normalisers accumulate, and its concatenation.

  /** The invariant of the normalisers' main loop after `i` bytes: the
      pieces pushed so far, a pending comma when one will be emitted, and
      the bytes since `from` together make up the kept prefix. */
  predicate BuilderInvariant(s: seq<byte>, builder: seq<seq<byte>>, from: nat, i: nat, last: LexState)
    requires from <= i <= |s|
  {
    last == StateAt(s, i) &&
    Flatten(builder) + (if last == AfterComma && ValueFollows(s, i) then [Comma] else []) + s[from..i]
      == KeptPrefix(s, i)
  }

  /** The loop body of both normalisers, as a lemma: the effect of reading
      byte `i` keeps the invariant. Each branch is spelled out in the
      methods; this names the arithmetic they share. */
  lemma StepKeepsInvariant(s: seq<byte>, builder: seq<seq<byte>>, from: nat, i: nat)
    requires from <= i < |s|
    requires BuilderInvariant(s, builder, from, i, StateAt(s, i))
    ensures var st := StateAt(s, i);
      var c := s[i];
      var pushComma := st == AfterComma && c != Comma && (c == Quote || !(c == Backslash || c == CloseBracket || c == CloseBrace || IsWhitespace(c)));
      if st != Escape && c == Comma then
        BuilderInvariant(s, builder + [s[from..i]], i + 1, i + 1, StateAt(s, i + 1))
      else if pushComma then
        BuilderInvariant(s, builder + [[Comma]], from, i + 1, StateAt(s, i + 1))
      else
        BuilderInvariant(s, builder, from, i + 1, StateAt(s, i + 1))
  {
    var st := StateAt(s, i);
    var c := s[i];
    assert s[from..i + 1] == s[from..i] + [c];
    FlattenSnoc(builder, s[from..i]);
    FlattenSnoc(builder, [Comma]);
    if st == AfterComma && IsInsignificant(c) {
      assert ValueFollows(s, i) == ValueFollows(s, i + 1);
    }
  }

  /** After the last byte, pushing the bytes since `from` completes the output. */
  lemma FinishInvariant(s: seq<byte>, builder: seq<seq<byte>>, from: nat)
    requires from <= |s|
    requires BuilderInvariant(s, builder, from, |s|, StateAt(s, |s|))
    ensures Flatten(builder + [s[from..]]) == Normalized(s)
  {
    FlattenSnoc(builder, s[from..]);
    assert s[from..|s|] == s[from..];
  }

  /** `target.set(piece, offset)`: copies `piece` into `out` starting at `offset`. */
  method SetAt(out: array<byte>, piece: seq<byte>, offset: nat)
    requires offset + |piece| <= out.Length
    modifies out
    ensures out[..] == old(out[..offset]) + piece + old(out[offset + |piece|..])
  {
    var k := 0;
    while k < |piece|
      invariant 0 <= k <= |piece|
      invariant out[..offset] == old(out[..offset])
      invariant out[offset..offset + k] == piece[..k]
      invariant out[offset + |piece|..] == old(out[offset + |piece|..])
      invariant forall m :: offset + k <= m < offset + |piece| ==> out[m] == old(out[m])
    {
      out[offset + k] := piece[k];
      k := k + 1;
      assert out[offset..offset + k] == out[offset..offset + k - 1] + [piece[k - 1]];
      assert piece[..k] == piece[..k - 1] + [piece[k - 1]];
    }
    assert out[..] == out[..offset] + out[offset..offset + |piece|] + out[offset + |piece|..];
  }

  /** The concatenation step both normalisers end with: sum the piece
      lengths, allocate, and copy every piece at its running offset. */
  method Concat(builder: seq<seq<byte>>) returns (out: array<byte>)
    ensures out[..] == Flatten(builder)
  {
    var total := 0;
    var k := 0;
    while k < |builder|
      invariant 0 <= k <= |builder|
      invariant total == TotalLength(builder[..k])
    {
      assert builder[..k + 1][..k] == builder[..k];
      total := total + |builder[k]|;
      k := k + 1;
    }
    assert builder[..|builder|] == builder;
    out := new byte[total];
    var offset := 0;
    k := 0;
    while k < |builder|
      invariant 0 <= k <= |builder|
      invariant out.Length == TotalLength(builder)
      invariant offset == TotalLength(builder[..k]) <= out.Length
      invariant out[..offset] == Flatten(builder[..k])
    {
      PrefixTotal(builder, k);
      SetAt(out, builder[k], offset);
      assert builder[..k + 1][..k] == builder[..k];
      FlattenSnoc(builder[..k], builder[k]);
      assert builder[..k] + [builder[k]] == builder[..k + 1];
      offset := offset + |builder[k]|;
      k := k + 1;
    }
    assert builder[..k] == builder;
    assert out[..] == out[..offset];
  }

  /** A prefix of the pieces is no longer than all of them, and adding the
      next piece stays within the total. */
  lemma {:induction false} PrefixTotal(builder: seq<seq<byte>>, k: nat)
    requires k < |builder|
    ensures TotalLength(builder[..k]) + |builder[k]| <= TotalLength(builder)
    decreases |builder| - k
  {
    assert builder[..k + 1][..k] == builder[..k];
    if k + 1 < |builder| {
      PrefixTotal(builder, k + 1);
      assert TotalLength(builder[..k + 1]) <= TotalLength(builder[..k + 1]) + |builder[k + 1]|;
    } else {
      assert builder[..k + 1] == builder;
    }
  }
}
