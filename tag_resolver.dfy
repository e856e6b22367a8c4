/** Tag conflict handling of the stitcher: fresh names for colliding
    decoration tags, the declaration map from source tags to target tags,
    and the rewriting of comma-separated tag references. */
module TagResolver {
  import opened Wrappers
  import opened Seqs
  import opened Structure

  // ---------------------------------------------------------------------
  // Fresh tag names

  function DigitChar(d: nat): (c: char)
    requires d < 10
    ensures '0' <= c <= '9'
  {
    ('0' as int + d) as char
  }

  /** The decimal text of a counter, as a template literal writes it. */
  function NatToString(n: nat): (r: string)
    ensures |r| >= 1
    ensures n < 10 <==> |r| == 1
    decreases n
  {
    if n < 10 then [DigitChar(n)] else NatToString(n / 10) + [DigitChar(n % 10)]
  }

  /** Different counters have different decimal texts. */
  lemma {:induction false} NatToStringInjective(a: nat, b: nat)
    ensures NatToString(a) == NatToString(b) ==> a == b
    decreases a
  {
    var ra, rb := NatToString(a), NatToString(b);
    if ra == rb && a >= 10 {
      assert b >= 10;
      assert ra[|ra| - 1] == DigitChar(a % 10) && rb[|rb| - 1] == DigitChar(b % 10);
      assert a % 10 == b % 10;
      assert ra[..|ra| - 1] == NatToString(a / 10);
      assert rb[..|rb| - 1] == NatToString(b / 10);
      NatToStringInjective(a / 10, b / 10);
    } else if ra == rb {
      assert ra[0] == DigitChar(a) && rb[0] == DigitChar(b);
    }
  }

  /** The `counter`-th rename of `tag`: `${tag}_S${counter}`. */
  function Candidate(tag: string, counter: nat): (r: string)
    ensures |r| > |tag| + 2 && r[..|tag|] == tag
  {
    tag + "_S" + NatToString(counter)
  }

  /** A candidate holds a comma only when its tag does. */
  lemma CandidateCommaFree(tag: string, counter: nat)
    requires ',' !in tag
    ensures ',' !in Candidate(tag, counter)
  {
    NatToStringDigits(counter);
    var r := Candidate(tag, counter);
    forall i | 0 <= i < |r| ensures r[i] != ',' {
      if i >= |tag| + 2 {
        assert r[i] == NatToString(counter)[i - |tag| - 2];
      } else if i >= |tag| {
        assert r[i] == "_S"[i - |tag|];
      } else {
        assert r[i] == tag[i];
      }
    }
  }

  /** The decimal text holds only digits. */
  lemma {:induction false} NatToStringDigits(n: nat)
    ensures forall i :: 0 <= i < |NatToString(n)| ==> '0' <= NatToString(n)[i] <= '9'
    decreases n
  {
    if n >= 10 {
      NatToStringDigits(n / 10);
      var a := NatToString(n / 10);
      assert NatToString(n) == a + [DigitChar(n % 10)];
      forall i | 0 <= i < |a| + 1 ensures '0' <= (a + [DigitChar(n % 10)])[i] <= '9' {
        if i < |a| {
          assert (a + [DigitChar(n % 10)])[i] == a[i];
        }
      }
    }
  }

  lemma CandidateInjective(tag: string, a: nat, b: nat)
    ensures Candidate(tag, a) == Candidate(tag, b) ==> a == b
  {
    if Candidate(tag, a) == Candidate(tag, b) {
      assert Candidate(tag, a)[|tag| + 2..] == NatToString(a);
      assert Candidate(tag, b)[|tag| + 2..] == NatToString(b);
      NatToStringInjective(a, b);
    }
  }

  /** The first `k` renames of a tag. */
  function Candidates(tag: string, k: nat): (s: set<string>)
    ensures forall j :: 1 <= j <= k ==> Candidate(tag, j) in s
  {
    if k == 0 then {} else Candidates(tag, k - 1) + {Candidate(tag, k)}
  }

  /** A later rename is none of the earlier ones. */
  lemma {:induction false} CandidateNotEarlier(tag: string, k: nat, m: nat)
    requires m < k
    ensures Candidate(tag, k) !in Candidates(tag, m)
  {
    if m > 0 {
      CandidateNotEarlier(tag, k, m - 1);
      CandidateInjective(tag, m, k);
    }
  }

  /** The first `k` renames of a tag are `k` different strings. */
  lemma {:induction false} CandidatesCount(tag: string, k: nat)
    ensures |Candidates(tag, k)| == k
  {
    if k > 0 {
      CandidatesCount(tag, k - 1);
      CandidateNotEarlier(tag, k, k - 1);
    }
  }

  /** A finite set cannot hold more renames of a tag than it has elements. */
  lemma CandidatesBound(reserved: set<string>, tag: string, k: nat)
    requires forall j :: 1 <= j <= k ==> Candidate(tag, j) in reserved
    ensures k <= |reserved|
  {
    var s := Candidates(tag, k);
    CandidatesCount(tag, k);
    CandidatesWithin(reserved, tag, k);
    assert reserved == s + (reserved - s);
    assert s * (reserved - s) == {};
  }

  lemma {:induction false} CandidatesWithin(reserved: set<string>, tag: string, k: nat)
    requires forall j :: 1 <= j <= k ==> Candidate(tag, j) in reserved
    ensures Candidates(tag, k) <= reserved
  {
    if k > 0 {
      CandidatesWithin(reserved, tag, k - 1);
    }
  }

  /** The smallest counter from `k` on whose rename is free. */
  function FreeCounter(reserved: set<string>, tag: string, k: nat): (r: nat)
    requires k >= 1 && forall j :: 1 <= j < k ==> Candidate(tag, j) in reserved
    ensures r >= k && Candidate(tag, r) !in reserved
    ensures forall j :: 1 <= j < r ==> Candidate(tag, j) in reserved
    decreases |reserved| - k + 1
  {
    if Candidate(tag, k) in reserved then
      CandidatesBound(reserved, tag, k);
      FreeCounter(reserved, tag, k + 1)
    else k
  }

  /** What `getUniqueTag` returns: the tag itself when it is free, otherwise
      its rename with the smallest free counter from 1 on. */
  function UniqueTag(reserved: set<string>, tag: string): (r: string)
    ensures r !in reserved
    ensures tag !in reserved ==> r == tag
    ensures tag in reserved ==>
      exists k :: (k >= 1 && r == Candidate(tag, k) && forall j :: 1 <= j < k ==> Candidate(tag, j) in reserved)
  {
    if tag !in reserved then tag else Candidate(tag, FreeCounter(reserved, tag, 1))
  }

  /** `getUniqueTag(originalTag)`: tries the tag, then `_S1`, `_S2`, … until
      a free name turns up, and reserves that name. */
  method GetUniqueTag(targetTags: set<string>, originalTag: string) returns (newTag: string, tags: set<string>)
    ensures newTag == UniqueTag(targetTags, originalTag)
    ensures tags == targetTags + {newTag}
  {
    newTag := originalTag;
    var counter: nat := 1;
    while newTag in targetTags
      invariant counter >= 1
      invariant counter == 1 ==> newTag == originalTag
      invariant counter > 1 ==> originalTag in targetTags && newTag == Candidate(originalTag, counter - 1)
      invariant forall j :: 1 <= j < counter - 1 ==> Candidate(originalTag, j) in targetTags
      decreases |targetTags| - counter + 1
    {
      if counter > 1 {
        CandidatesBound(targetTags, originalTag, counter - 1);
      }
      newTag := Candidate(originalTag, counter);
      counter := counter + 1;
    }
    tags := targetTags + {newTag};
    if counter > 1 {
      var k := FreeCounter(targetTags, originalTag, 1);
      assert k == counter - 1;
    }
  }

  // ---------------------------------------------------------------------
  // Rewriting tag references

  /** The characters `String.prototype.trim` removes: white space and line
      terminators. */
  predicate IsJsSpace(c: char)
  {
    var n := c as int;
    n == 0x09 || n == 0x0A || n == 0x0B || n == 0x0C || n == 0x0D || n == 0x20 || n == 0xA0
    || n == 0x1680 || (0x2000 <= n <= 0x200A) || n == 0x2028 || n == 0x2029 || n == 0x202F
    || n == 0x205F || n == 0x3000 || n == 0xFEFF
  }

  function TrimStart(s: string): (r: string)
    ensures |r| <= |s| && r == s[|s| - |r|..]
    ensures forall k :: 0 <= k < |s| - |r| ==> IsJsSpace(s[k])
    ensures |r| > 0 ==> !IsJsSpace(r[0])
  {
    if |s| > 0 && IsJsSpace(s[0]) then TrimStart(s[1..]) else s
  }

  function TrimEnd(s: string): (r: string)
    ensures |r| <= |s| && r == s[..|r|]
    ensures forall k :: |r| <= k < |s| ==> IsJsSpace(s[k])
    ensures |r| > 0 ==> !IsJsSpace(r[|r| - 1])
  {
    if |s| > 0 && IsJsSpace(s[|s| - 1]) then TrimEnd(s[..|s| - 1]) else s
  }

  /** `String.prototype.trim`: what is left between the leading and the
      trailing white space. */
  function Trim(s: string): (r: string)
    ensures |r| > 0 ==> !IsJsSpace(r[0]) && !IsJsSpace(r[|r| - 1])
    ensures ',' !in s ==> ',' !in r
  {
    var a := TrimStart(s);
    var b := TrimEnd(a);
    assert |b| > 0 ==> b[0] == a[0];
    b
  }

  /** A string without white space is its own trim. */
  lemma TrimNoSpace(s: string)
    requires forall k :: 0 <= k < |s| ==> !IsJsSpace(s[k])
    ensures Trim(s) == s
  {
    assert TrimStart(s) == s;
    assert TrimEnd(s) == s;
  }

  lemma TrimIdempotent(s: string)
    ensures Trim(Trim(s)) == Trim(s)
  {
    var r := Trim(s);
    if |r| > 0 {
      assert TrimStart(r) == r;
      assert TrimEnd(r) == r;
    }
  }

  /** `tagMapping.get(t) || t`: the mapped tag when there is a non-empty one. */
  function Lookup(mapping: map<string, string>, t: string): (r: string)
    ensures t in mapping && mapping[t] != "" ==> r == mapping[t]
    ensures !(t in mapping && mapping[t] != "") ==> r == t
  {
    if t in mapping && mapping[t] != "" then mapping[t] else t
  }

  /** The rewrite of each comma-separated token: trimmed, then looked up. */
  function RewriteTokens(mapping: map<string, string>, toks: seq<string>): (r: seq<string>)
    ensures |r| == |toks|
  {
    if |toks| == 0 then [] else [Lookup(mapping, Trim(toks[0]))] + RewriteTokens(mapping, toks[1..])
  }

  lemma {:induction false} RewriteTokensAt(mapping: map<string, string>, toks: seq<string>, k: int)
    requires 0 <= k < |toks|
    ensures RewriteTokens(mapping, toks)[k] == Lookup(mapping, Trim(toks[k]))
  {
    if k > 0 {
      RewriteTokensAt(mapping, toks[1..], k - 1);
    }
  }

  /** `replaceTagsInString(tagStr)`: an empty string is returned as it is;
      otherwise every comma-separated token is trimmed, replaced by its
      mapping when there is one, and the tokens are joined with commas. */
  function ReplaceTagsInString(mapping: map<string, string>, tagStr: string): (r: string)
    ensures tagStr == "" ==> r == ""
  {
    if tagStr == "" then tagStr else Join(RewriteTokens(mapping, Split(tagStr, ',')), ",")
  }

  /** A tag without a comma is mapped to a tag without a comma. Split
      tokens never hold a comma, so these are the only lookups a rewrite
      makes. */
  predicate CommaFreeLookups(mapping: map<string, string>)
  {
    forall t :: t in mapping && ',' !in t ==> ',' !in mapping[t]
  }

  /** Rewriting keeps the number of tokens and rewrites each one in place:
      token `k` of the result is token `k` of the input, trimmed and looked
      up. */
  lemma ReplaceTagsTokens(mapping: map<string, string>, tagStr: string)
    requires CommaFreeLookups(mapping) && tagStr != ""
    ensures |Split(ReplaceTagsInString(mapping, tagStr), ',')| == |Split(tagStr, ',')|
    ensures forall k :: 0 <= k < |Split(tagStr, ',')| ==>
      Split(ReplaceTagsInString(mapping, tagStr), ',')[k] == Lookup(mapping, Trim(Split(tagStr, ',')[k]))
  {
    var toks := Split(tagStr, ',');
    var out := RewriteTokens(mapping, toks);
    forall k | 0 <= k < |out|
      ensures ',' !in out[k] && out[k] == Lookup(mapping, Trim(toks[k]))
    {
      RewriteTokensAt(mapping, toks, k);
      assert ',' !in toks[k];
      assert ',' !in Trim(toks[k]);
    }
    SplitJoin(out, ',');
  }

  /** A reference string without white space none of whose tokens is mapped
      is returned unchanged. */
  lemma ReplaceTagsUnmapped(mapping: map<string, string>, tagStr: string)
    requires forall k :: 0 <= k < |tagStr| ==> !IsJsSpace(tagStr[k])
    requires forall k :: 0 <= k < |Split(tagStr, ',')| ==> Split(tagStr, ',')[k] !in mapping
    ensures ReplaceTagsInString(mapping, tagStr) == tagStr
  {
    if tagStr != "" {
      var toks := Split(tagStr, ',');
      var out := RewriteTokens(mapping, toks);
      forall k | 0 <= k < |toks|
        ensures out[k] == toks[k]
      {
        RewriteTokensAt(mapping, toks, k);
        NoSpaceInSplit(tagStr, k);
        TrimNoSpace(toks[k]);
      }
      assert out == toks;
      JoinSplit(tagStr, ',');
    }
  }

  lemma {:induction false} NoSpaceInSplit(s: string, k: int)
    requires forall i :: 0 <= i < |s| ==> !IsJsSpace(s[i])
    requires 0 <= k < |Split(s, ',')|
    ensures forall i :: 0 <= i < |Split(s, ',')[k]| ==> !IsJsSpace(Split(s, ',')[k][i])
  {
    if |s| > 0 {
      var rest := Split(s[1..], ',');
      if s[0] == ',' {
        if k > 0 {
          NoSpaceInSplit(s[1..], k - 1);
        }
      } else if k == 0 {
        NoSpaceInSplit(s[1..], 0);
        assert Split(s, ',')[0] == [s[0]] + rest[0];
      } else {
        NoSpaceInSplit(s[1..], k);
      }
    }
  }

  // ---------------------------------------------------------------------
  // The tag branch of the event copy

  /** The tags reserved in the target and the declaration map built so far. */
  datatype TagState = TagState(reserved: set<string>, mapping: map<string, string>)

  /** Event types that declare a decoration tag. */
  const DeclarationTypes: seq<string> := ["AddDecoration", "AddObject", "AddText"]

  /** Every mapped source tag and its target tag are reserved, and no mapped
      tag is empty. */
  predicate TagStateValid(st: TagState)
  {
    (forall t :: t in st.mapping ==> t in st.reserved && st.mapping[t] in st.reserved && st.mapping[t] != "")
    && CommaFreeLookups(st.mapping)
  }

  /** The tag handling of one copied event. A declaration whose tag is
      reserved and not yet mapped gets a fresh tag and a mapping; one already
      mapped takes the mapped tag; otherwise its tag is reserved as it is.
      Any other tagged event has its references rewritten. An event without
      a tag passes unchanged. */
  function ResolveTag(st: TagState, e: Event): (r: (Event, TagState))
    ensures r.0 == e.(tag := r.0.tag)
    ensures st.reserved <= r.1.reserved
    ensures forall t :: t in st.mapping ==> t in r.1.mapping && r.1.mapping[t] == st.mapping[t]
  {
    if !HasTag(e) then (e, st)
    else
      var t := e.tag.value;
      if e.eventType in DeclarationTypes then
        if t in st.reserved && t !in st.mapping then
          var nt := UniqueTag(st.reserved, t);
          (e.(tag := Some(nt)), TagState(st.reserved + {nt}, st.mapping[t := nt]))
        else if t in st.mapping then (e.(tag := Some(st.mapping[t])), st)
        else (e, TagState(st.reserved + {t}, st.mapping))
      else (e.(tag := Some(ReplaceTagsInString(st.mapping, t))), st)
  }

  /** Resolution keeps the state valid; a mapping is added only for the
      event's own tag, only once, and only by a declaration. */
  lemma ResolveTagValid(st: TagState, e: Event)
    requires TagStateValid(st)
    ensures TagStateValid(ResolveTag(st, e).1)
    ensures forall t :: t in ResolveTag(st, e).1.mapping && t !in st.mapping ==>
      HasTag(e) && t == e.tag.value && e.eventType in DeclarationTypes
  {
    if HasTag(e) && e.eventType in DeclarationTypes {
      var t := e.tag.value;
      if t in st.reserved && t !in st.mapping {
        var nt := UniqueTag(st.reserved, t);
        var k :| k >= 1 && nt == Candidate(t, k);
        assert nt != "";
        if ',' !in t {
          CandidateCommaFree(t, k);
        }
      }
    }
  }

  /** A declaration of a reserved, unmapped tag is given a tag that was not
      reserved, which becomes reserved and is the tag's mapping. */
  lemma DeclarationRenamed(st: TagState, e: Event)
    requires HasTag(e) && e.eventType in DeclarationTypes
    requires e.tag.value in st.reserved && e.tag.value !in st.mapping
    ensures var (e2, st2) := ResolveTag(st, e);
      e2.tag.Some? && e2.tag.value !in st.reserved && e2.tag.value in st2.reserved
      && st2.mapping == st.mapping[e.tag.value := e2.tag.value]
  {
  }

  /** A declaration of a mapped tag reuses the mapping and changes nothing. */
  lemma DeclarationReusesMapping(st: TagState, e: Event)
    requires HasTag(e) && e.eventType in DeclarationTypes && e.tag.value in st.mapping
    ensures ResolveTag(st, e) == (e.(tag := Some(st.mapping[e.tag.value])), st)
  {
  }

  /** A free declared tag is kept and reserved, so a second declaration with
      the same tag collides and is renamed to `_S1` when that is free. */
  lemma SecondDeclarationRenamed(st: TagState, e1: Event, e2: Event)
    requires HasTag(e1) && e1.eventType in DeclarationTypes
    requires HasTag(e2) && e2.eventType in DeclarationTypes && e2.tag == e1.tag
    requires e1.tag.value !in st.reserved && e1.tag.value !in st.mapping
    requires Candidate(e1.tag.value, 1) !in st.reserved
    ensures var (r1, st1) := ResolveTag(st, e1);
      var (r2, st2) := ResolveTag(st1, e2);
      r1 == e1 && r2.tag == Some(Candidate(e1.tag.value, 1))
  {
    var t := e1.tag.value;
    var st1 := ResolveTag(st, e1).1;
    assert st1 == TagState(st.reserved + {t}, st.mapping);
    CandidateIsNotTag(t, 1);
    assert Candidate(t, 1) !in st1.reserved;
    var nt := UniqueTag(st1.reserved, t);
    var k :| k >= 1 && nt == Candidate(t, k) && forall j :: 1 <= j < k ==> Candidate(t, j) in st1.reserved;
    assert k == 1;
  }

  lemma CandidateIsNotTag(tag: string, k: nat)
    ensures Candidate(tag, k) != tag
  {
  }

  /** Events without a truthy tag pass through unchanged. */
  lemma UntaggedUnchanged(st: TagState, e: Event)
    requires !HasTag(e)
    ensures ResolveTag(st, e) == (e, st)
  {
  }

  /** References are rewritten through the map and reserve nothing. */
  lemma ReferenceRewritten(st: TagState, e: Event)
    requires HasTag(e) && e.eventType !in DeclarationTypes
    ensures ResolveTag(st, e) == (e.(tag := Some(ReplaceTagsInString(st.mapping, e.tag.value))), st)
  {
  }

  // ---------------------------------------------------------------------
  // The target's reserved tags

  /** The truthy tags of a list of events. */
  function EventTags(es: seq<Event>): (r: set<string>)
    ensures forall t :: t in r <==> exists k :: 0 <= k < |es| && HasTag(es[k]) && es[k].tag.value == t
  {
    if |es| == 0 then {}
    else
      var init := EventTags(es[..|es| - 1]);
      var last := es[|es| - 1];
      assert forall k :: 0 <= k < |es| - 1 ==> es[..|es| - 1][k] == es[k];
      if HasTag(last) then init + {last.tag.value} else init
  }

  /** Every truthy tag on a target tile, in its actions or its decorations. */
  function TargetTags(tiles: seq<Tile>): (r: set<string>)
  {
    if |tiles| == 0 then {}
    else
      var last := tiles[|tiles| - 1];
      TargetTags(tiles[..|tiles| - 1]) + EventTags(ActionsOf(last)) + EventTags(DecorationsOf(last))
  }

  /** A tag is reserved exactly when some target tile carries it on an action
      or a decoration. */
  lemma {:induction false} TargetTagsMember(tiles: seq<Tile>, t: string)
    ensures t in TargetTags(tiles) <==>
      exists i :: (0 <= i < |tiles| && (t in EventTags(ActionsOf(tiles[i])) || t in EventTags(DecorationsOf(tiles[i]))))
  {
    if |tiles| > 0 {
      var init := tiles[..|tiles| - 1];
      TargetTagsMember(init, t);
      assert forall i :: 0 <= i < |init| ==> init[i] == tiles[i];
    }
  }

  /** The tag-collecting `forEach` over one event list. */
  method AddEventTags(tags0: set<string>, es: seq<Event>) returns (tags: set<string>)
    ensures tags == tags0 + EventTags(es)
  {
    tags := tags0;
    for k := 0 to |es|
      invariant tags == tags0 + EventTags(es[..k])
    {
      assert es[..k + 1][..k] == es[..k];
      if HasTag(es[k]) {
        tags := tags + {es[k].tag.value};
      }
    }
    assert es[..|es|] == es;
  }

  /** The `forEach` over the target's tiles that fills `targetTags`. */
  method CollectTargetTags(tiles: seq<Tile>) returns (tags: set<string>)
    ensures tags == TargetTags(tiles)
  {
    tags := {};
    for i := 0 to |tiles|
      invariant tags == TargetTags(tiles[..i])
    {
      assert tiles[..i + 1][..i] == tiles[..i];
      tags := AddEventTags(tags, ActionsOf(tiles[i]));
      tags := AddEventTags(tags, DecorationsOf(tiles[i]));
    }
    assert tiles[..|tiles|] == tiles;
  }
}
