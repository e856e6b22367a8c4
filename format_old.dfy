/** The old ADOFAI-style exporter: a pretty-printer over a JSON tree that
    puts every key of the root object on its own line, writes arrays of
    primitives on one line, and writes every element of any other array on
    its own line in single-line form. */
module FormatOld {
  import opened Seqs
  import opened JsonValues

  const HexDigits: string := "0123456789abcdef"

  /** `' '.repeat(n)` */
  function Spaces(n: nat): (r: string)
    ensures |r| == n && forall k :: 0 <= k < n ==> r[k] == ' '
  {
    if n == 0 then "" else Spaces(n - 1) + " "
  }

  /** How `JSON.stringify` writes one character inside a string literal. */
  function EscapeChar(c: char): (r: string)
    ensures '\n' !in r
    ensures c != '"' && c != '\\' && c as int >= 0x20 ==> r == [c]
  {
    if c == '"' then "\\\""
    else if c == '\\' then "\\\\"
    else if c as int == 8 then "\\b"
    else if c as int == 12 then "\\f"
    else if c == '\n' then "\\n"
    else if c == '\r' then "\\r"
    else if c == '\t' then "\\t"
    else if c as int < 0x20 then "\\u00" + [HexDigits[c as int / 16], HexDigits[c as int % 16]]
    else [c]
  }

  function EscapeString(s: string): (r: string)
    ensures '\n' !in r
  {
    if |s| == 0 then "" else EscapeChar(s[0]) + EscapeString(s[1..])
  }

  /** `JSON.stringify` of a string: the escaped contents between quotes. */
  function QuoteString(s: string): (r: string)
    ensures '\n' !in r && |r| >= 2 && r[0] == '"' && r[|r| - 1] == '"'
  {
    "\"" + EscapeString(s) + "\""
  }

  /** `JSON.stringify` of a primitive. Number texts are taken as already
      written by the runtime. */
  function Stringify(j: Json): (r: string)
    requires IsPrimitive(j)
    ensures '\n' !in r
  {
    match j
    case Null => "null"
    case Bool(b) => if b then "true" else "false"
    case Number(t) => t
    case Str(s) => QuoteString(s)
  }

  predicate AllPrimitive(items: seq<Json>)
  {
    forall i :: 0 <= i < |items| ==> IsPrimitive(items[i])
  }

  /** `exportAsADOFAI(obj, indent, isRoot)` */
  function ExportAsADOFAI(j: Json, indent: nat, isRoot: bool): (r: string)
    ensures IsPrimitive(j) ==> r == Stringify(j)
    ensures j.Arr? ==> |r| >= 2 && r[0] == '[' && r[|r| - 1] == ']'
    ensures j.Obj? ==> |r| >= 2 && r[0] == '{' && r[|r| - 1] == '}'
    decreases j
  {
    match j
    case Arr(items) =>
      if AllPrimitive(items) then
        "[" + Join(seq(|items|, i requires 0 <= i < |items| => ExportAsADOFAI(items[i], 0, false)), ",") + "]"
      else
        "[\n" + Join(seq(|items|, i requires 0 <= i < |items| => Spaces(indent) + "  " + FormatAsSingleLine(items[i])), ",\n")
          + "\n" + Spaces(indent) + "]"
    case Obj(entries) =>
      if isRoot then
        "{\n" + Join(seq(|entries|, i requires 0 <= i < |entries| =>
                  "  " + QuoteString(entries[i].0) + ": " + ExportAsADOFAI(entries[i].1, 2, false)), ",\n")
          + "\n}"
      else
        "{\n" + Join(seq(|entries|, i requires 0 <= i < |entries| =>
                  Spaces(indent) + "  " + QuoteString(entries[i].0) + ": " + ExportAsADOFAI(entries[i].1, indent + 2, false)), ",\n")
          + "\n" + Spaces(indent) + "}"
    case _ => Stringify(j)
  }

  /** `formatAsSingleLine(obj)` */
  function FormatAsSingleLine(j: Json): (r: string)
    ensures IsPrimitive(j) ==> r == Stringify(j)
    ensures j.Arr? ==> |r| >= 2 && r[0] == '[' && r[|r| - 1] == ']'
    ensures j.Obj? ==> |r| >= 2 && r[0] == '{' && r[|r| - 1] == '}'
    decreases j
  {
    match j
    case Arr(items) =>
      "[" + Join(seq(|items|, i requires 0 <= i < |items| => FormatAsSingleLine(items[i])), ",") + "]"
    case Obj(entries) =>
      "{" + Join(seq(|entries|, i requires 0 <= i < |entries| =>
                QuoteString(entries[i].0) + ": " + FormatAsSingleLine(entries[i].1)), ", ") + "}"
    case _ => Stringify(j)
  }

  /** The single-line form never contains a newline, at any depth. */
  lemma {:induction false} SingleLineHasNoNewline(j: Json)
    ensures '\n' !in FormatAsSingleLine(j)
    decreases j
  {
    match j
    case Arr(items) =>
      var parts := seq(|items|, i requires 0 <= i < |items| => FormatAsSingleLine(items[i]));
      forall k | 0 <= k < |parts|
        ensures '\n' !in parts[k]
      {
        SingleLineHasNoNewline(items[k]);
      }
      JoinAvoids(parts, ",", '\n');
    case Obj(entries) =>
      var parts := seq(|entries|, i requires 0 <= i < |entries| =>
        QuoteString(entries[i].0) + ": " + FormatAsSingleLine(entries[i].1));
      forall k | 0 <= k < |parts|
        ensures '\n' !in parts[k]
      {
        SingleLineHasNoNewline(entries[k].1);
      }
      JoinAvoids(parts, ", ", '\n');
    case _ =>
  }

  /** An array of primitives, the empty array included, is written on one
      line as its stringified items joined by commas, whatever the indent. */
  lemma PrimitiveArrayOnOneLine(items: seq<Json>, indent: nat, isRoot: bool)
    requires AllPrimitive(items)
    ensures var r := ExportAsADOFAI(Arr(items), indent, isRoot);
      r == "[" + Join(seq(|items|, i requires 0 <= i < |items| => Stringify(items[i])), ",") + "]"
      && '\n' !in r
  {
    var parts := seq(|items|, i requires 0 <= i < |items| => ExportAsADOFAI(items[i], 0, false));
    assert parts == seq(|items|, i requires 0 <= i < |items| => Stringify(items[i]));
    JoinAvoids(parts, ",", '\n');
  }

  /** An array of primitives is written the same way by both formatters. */
  lemma PrimitiveArraySingleLineAgrees(items: seq<Json>, indent: nat, isRoot: bool)
    requires AllPrimitive(items)
    ensures ExportAsADOFAI(Arr(items), indent, isRoot) == FormatAsSingleLine(Arr(items))
  {
    var parts := seq(|items|, i requires 0 <= i < |items| => ExportAsADOFAI(items[i], 0, false));
    var single := seq(|items|, i requires 0 <= i < |items| => FormatAsSingleLine(items[i]));
    assert parts == single;
  }

  /** An array holding an array or object is written as `[`, one line per
      item, and a closing line: as many line breaks as items, plus one. */
  lemma NestedArrayOneLinePerItem(items: seq<Json>, indent: nat, isRoot: bool)
    requires !AllPrimitive(items)
    ensures var r := ExportAsADOFAI(Arr(items), indent, isRoot);
      Occurrences(r, '\n') == |items| + 1
      && r[..2] == "[\n"
      && r[|r| - indent - 2..] == "\n" + Spaces(indent) + "]"
  {
    var lines := seq(|items|, i requires 0 <= i < |items| => Spaces(indent) + "  " + FormatAsSingleLine(items[i]));
    forall k | 0 <= k < |lines|
      ensures '\n' !in lines[k]
    {
      SingleLineHasNoNewline(items[k]);
      assert lines[k] == Spaces(indent) + "  " + FormatAsSingleLine(items[k]);
    }
    NestedLinesLayout(lines, indent);
    assert "[\n" + Join(lines, ",\n") + "\n" + Spaces(indent) + "]" == ExportAsADOFAI(Arr(items), indent, isRoot);
  }

  /** `[`, a line break, lines without breaks joined by `,` and a break, then
      a break, the indent and `]`: one break per line, plus one. */
  lemma NestedLinesLayout(lines: seq<string>, indent: nat)
    requires |lines| >= 1 && forall k :: 0 <= k < |lines| ==> '\n' !in lines[k]
    ensures var r := "[\n" + Join(lines, ",\n") + "\n" + Spaces(indent) + "]";
      Occurrences(r, '\n') == |lines| + 1
      && r[..2] == "[\n"
      && r[|r| - indent - 2..] == "\n" + Spaces(indent) + "]"
  {
    JoinOccurrences(lines, ",\n", '\n');
    var body := Join(lines, ",\n");
    var tail := "\n" + Spaces(indent) + "]";
    var r := "[\n" + body + tail;
    assert Occurrences("[\n", '\n') == 1 by {
      assert "[\n"[1..] == "\n";
      assert "\n"[1..] == "";
    }
    assert Occurrences(tail, '\n') == 1 by {
      assert '\n' !in Spaces(indent) + "]";
      OccurrencesAbsent(Spaces(indent) + "]", '\n');
      assert tail[1..] == Spaces(indent) + "]";
    }
    OccurrencesConcat("[\n", body, '\n');
    OccurrencesConcat("[\n" + body, tail, '\n');
    assert r[|r| - |tail|..] == tail;
    assert r == "[\n" + Join(lines, ",\n") + "\n" + Spaces(indent) + "]";
  }

  /** The root object opens with `{` and a line break and closes with a line
      break and `}`; when every value is written on one line, each key has
      its own line. */
  lemma RootObjectOneLinePerKey(entries: seq<(string, Json)>, indent: nat)
    ensures var r := ExportAsADOFAI(Obj(entries), indent, true);
      r[..2] == "{\n" && r[|r| - 2..] == "\n}"
    ensures |entries| >= 1 && (forall k :: 0 <= k < |entries| ==> '\n' !in ExportAsADOFAI(entries[k].1, 2, false)) ==>
      Occurrences(ExportAsADOFAI(Obj(entries), indent, true), '\n') == |entries| + 1
  {
    var lines := seq(|entries|, i requires 0 <= i < |entries| =>
      "  " + QuoteString(entries[i].0) + ": " + ExportAsADOFAI(entries[i].1, 2, false));
    var body := Join(lines, ",\n");
    var r := "{\n" + body + "\n}";
    assert r == ExportAsADOFAI(Obj(entries), indent, true);
    assert r[..2] == "{\n";
    assert r[|r| - 2..] == "\n}";
    if |entries| >= 1 && (forall k :: 0 <= k < |entries| ==> '\n' !in ExportAsADOFAI(entries[k].1, 2, false)) {
      forall k | 0 <= k < |lines|
        ensures '\n' !in lines[k]
      {
        assert lines[k] == "  " + QuoteString(entries[k].0) + ": " + ExportAsADOFAI(entries[k].1, 2, false);
      }
      RootLinesCount(lines);
    }
  }

  /** `{`, a line break, lines without breaks joined by `,` and a break,
      then a break and `}`: one break per line, plus one. */
  lemma RootLinesCount(lines: seq<string>)
    requires |lines| >= 1 && forall k :: 0 <= k < |lines| ==> '\n' !in lines[k]
    ensures Occurrences("{\n" + Join(lines, ",\n") + "\n}", '\n') == |lines| + 1
  {
    var body := Join(lines, ",\n");
    JoinOccurrences(lines, ",\n", '\n');
    OccurrencesConcat("{\n", body, '\n');
    OccurrencesConcat("{\n" + body, "\n}", '\n');
  }

  /** A nested object opens with `{` and a line break, writes its values
      two columns deeper, and closes on its own line at its indent. */
  lemma NestedObjectCloses(entries: seq<(string, Json)>, indent: nat)
    ensures var r := ExportAsADOFAI(Obj(entries), indent, false);
      r[..2] == "{\n" && r[|r| - indent - 2..] == "\n" + Spaces(indent) + "}"
  {
    var lines := seq(|entries|, i requires 0 <= i < |entries| =>
      Spaces(indent) + "  " + QuoteString(entries[i].0) + ": " + ExportAsADOFAI(entries[i].1, indent + 2, false));
    var head := "{\n" + Join(lines, ",\n");
    var tail := "\n" + Spaces(indent) + "}";
    var r := head + tail;
    assert r == ExportAsADOFAI(Obj(entries), indent, false);
    assert r[..2] == head[..2];
    assert r[|head|..] == tail;
  }

  /** A primitive angle list exports on one line. */
  lemma AngleListExample()
    ensures ExportAsADOFAI(Arr([Number("0"), Number("90")]), 2, false) == "[0,90]"
  {
    var items := [Number("0"), Number("90")];
    var parts := seq(|items|, i requires 0 <= i < |items| => ExportAsADOFAI(items[i], 0, false));
    assert parts == ["0", "90"];
    assert parts[1..] == ["90"];
    assert Join(parts, ",") == "0,90";
  }

  /** Characters that need no escape are copied as they are. */
  lemma {:induction false} EscapeOrdinary(s: string)
    requires forall k :: 0 <= k < |s| ==> s[k] != '"' && s[k] != '\\' && s[k] as int >= 0x20
    ensures EscapeString(s) == s
  {
    if |s| > 0 {
      EscapeOrdinary(s[1..]);
      assert [s[0]] + s[1..] == s;
    }
  }
}
