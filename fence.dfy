/** The fenced-block search of the diagnosis parser: Python's
    `re.search(r"```(?:json)?\s*(\{.*?\})\s*```", text, re.DOTALL)`.

    `MatchesAt(s, i, b, j)` is the set of all ways the pattern can match: the
    opening fence at `i`, group 1 spanning `s[b..j]`. Python's backtracking
    search returns the match with the leftmost start and, at that start, the
    shortest group (the body `.*?` is lazy; the optional tag and the `\s*`
    runs are forced, see `OpeningUnique`). `Search` computes that match. */
module Fence {
  import opened Wrappers
  import opened Text

  /** Three backticks at `i`. */
  predicate FenceAt(s: string, i: nat)
  {
    i + 3 <= |s| && s[i] == '`' && s[i + 1] == '`' && s[i + 2] == '`'
  }

  /** The tag `json` at `i`. */
  predicate TagAt(s: string, i: nat)
  {
    i + 4 <= |s| && s[i] == 'j' && s[i + 1] == 's' && s[i + 2] == 'o' && s[i + 3] == 'n'
  }

  /** Every character in `s[lo..hi]` is whitespace (and the range is inside `s`). */
  ghost predicate AllSpace(s: string, lo: nat, hi: nat)
  {
    forall k | lo <= k < hi :: k < |s| && IsSpace(s[k])
  }

  /** ```` ```(?:json)?\s*\{ ```` matches from `i`, with the brace at `b`. */
  ghost predicate Opening(s: string, i: nat, b: nat)
  {
    && FenceAt(s, i)
    && b < |s| && s[b] == '{'
    && ((i + 3 <= b && AllSpace(s, i + 3, b)) || (TagAt(s, i + 3) && i + 7 <= b && AllSpace(s, i + 7, b)))
  }

  /** `\s*```` matches from `j`, with the closing fence at `f`. */
  ghost predicate Closing(s: string, j: nat, f: nat)
  {
    j <= f && AllSpace(s, j, f) && FenceAt(s, f)
  }

  /** Group 1 ends at `j` (exclusive) and the closing part matches after it;
      the lazy `.*?` between the braces matches anything, newlines included. */
  ghost predicate BodyCloses(s: string, b: nat, j: nat)
  {
    b + 2 <= j <= |s| && s[j - 1] == '}' && exists f :: Closing(s, j, f)
  }

  /** The whole pattern matches from `i`, capturing `s[b..j]` as group 1. */
  ghost predicate MatchesAt(s: string, i: nat, b: nat, j: nat)
  {
    Opening(s, i, b) && BodyCloses(s, b, j)
  }

  /** The match `re.search` reports: leftmost start, then shortest group. */
  ghost predicate FirstMatch(s: string, i: nat, b: nat, j: nat)
  {
    && MatchesAt(s, i, b, j)
    && forall i', b', j' :: MatchesAt(s, i', b', j') ==> i < i' || (i == i' && j <= j')
  }

  /** A match found by the search: where it starts and where group 1 lies. */
  datatype FenceMatch = FenceMatch(start: nat, bodyStart: nat, bodyEnd: nat)

  /** At a given start the opening part leaves no choice: the tag is taken
      exactly when it is there, and the whitespace run is maximal. */
  lemma OpeningUnique(s: string, i: nat, b: nat, b': nat)
    requires Opening(s, i, b) && Opening(s, i, b')
    ensures b == b'
  {
  }

  /** The end of the whitespace run that starts at `k`. */
  function SkipSpace(s: string, k: nat): (e: nat)
    requires k <= |s|
    ensures k <= e <= |s| && AllSpace(s, k, e)
    ensures e < |s| ==> !IsSpace(s[e])
    decreases |s| - k
  {
    if k < |s| && IsSpace(s[k]) then SkipSpace(s, k + 1) else k
  }

  /** The position of the opening brace when ```` ```(?:json)?\s*\{ ```` matches at `i`. */
  function OpenAt(s: string, i: nat): (r: Option<nat>)
    ensures r.Some? ==> Opening(s, i, r.value)
    ensures r.None? ==> forall b :: !Opening(s, i, b)
  {
    if !FenceAt(s, i) then None
    else
      var t := if TagAt(s, i + 3) then i + 7 else i + 3;
      var b := SkipSpace(s, t);
      if b < |s| && s[b] == '{' then
        Some(b)
      else
        assert forall b' :: !Opening(s, i, b') by {
          forall b' | Opening(s, i, b') ensures false {
          }
        }
        None
  }

  /** Whether `\s*```` matches from `j`. */
  function CloseAt(s: string, j: nat): (r: bool)
    requires j <= |s|
    ensures r <==> exists f :: Closing(s, j, f)
  {
    var f := SkipSpace(s, j);
    if FenceAt(s, f) then
      assert Closing(s, j, f);
      true
    else
      assert forall f' :: !Closing(s, j, f') by {
        forall f' | Closing(s, j, f') ensures false {
        }
      }
      false
  }

  /** The shortest group end at or after `j`: the lazy `.*?` grows one
      character at a time until `\}\s*```` matches. */
  function BodyEnd(s: string, b: nat, j: nat): (r: Option<nat>)
    requires b + 2 <= j
    ensures r.Some? ==> j <= r.value && BodyCloses(s, b, r.value)
    ensures forall j' :: j <= j' && BodyCloses(s, b, j') ==> r.Some? && r.value <= j'
    decreases |s| + 1 - j
  {
    if j > |s| then None
    else if s[j - 1] == '}' && CloseAt(s, j) then Some(j)
    else BodyEnd(s, b, j + 1)
  }

  /** The first match whose start is at `i` or later. */
  function SearchFrom(s: string, i: nat): (r: Option<FenceMatch>)
    ensures r.Some? ==> i <= r.value.start && MatchesAt(s, r.value.start, r.value.bodyStart, r.value.bodyEnd)
    ensures r.Some? ==> forall i', b', j' :: i <= i' && MatchesAt(s, i', b', j') ==>
      r.value.start < i' || (r.value.start == i' && r.value.bodyEnd <= j')
    ensures r.None? ==> forall i', b', j' :: i <= i' ==> !MatchesAt(s, i', b', j')
    decreases |s| + 1 - i
  {
    if i + 3 > |s| then None
    else
      match OpenAt(s, i)
      case None => SearchFrom(s, i + 1)
      case Some(b) =>
        match BodyEnd(s, b, b + 2)
        case Some(j) =>
          assert forall b', j' :: MatchesAt(s, i, b', j') ==> b' == b && j <= j' by {
            forall b', j' | MatchesAt(s, i, b', j') ensures b' == b && j <= j' {
              OpeningUnique(s, i, b, b');
            }
          }
          Some(FenceMatch(i, b, j))
        case None =>
          assert forall b', j' :: !MatchesAt(s, i, b', j') by {
            forall b', j' | MatchesAt(s, i, b', j') ensures false {
              OpeningUnique(s, i, b, b');
            }
          }
          SearchFrom(s, i + 1)
  }

  /** `re.search` of the fence pattern: `None` exactly when nothing matches,
      otherwise the leftmost start and, at it, the shortest group. */
  function Search(s: string): (r: Option<FenceMatch>)
    ensures r.None? <==> forall i, b, j :: !MatchesAt(s, i, b, j)
    ensures r.Some? ==> FirstMatch(s, r.value.start, r.value.bodyStart, r.value.bodyEnd)
  {
    SearchFrom(s, 0)
  }

  /** `match.group(1)`. */
  function Group(s: string, m: FenceMatch): string
    requires m.bodyStart <= m.bodyEnd <= |s|
  {
    s[m.bodyStart..m.bodyEnd]
  }

  /** Only one match satisfies the leftmost-then-shortest rule. */
  lemma FirstMatchUnique(s: string, i: nat, b: nat, j: nat, i': nat, b': nat, j': nat)
    requires FirstMatch(s, i, b, j) && FirstMatch(s, i', b', j')
    ensures i == i' && b == b' && j == j'
  {
    OpeningUnique(s, i, b, b');
  }

  /** What surrounds the reported group: it starts with `{` and ends with `}`;
      before it stand three backticks, possibly `json`, then only whitespace;
      after it only whitespace, then three backticks. */
  lemma GroupShape(s: string, m: FenceMatch)
    requires Search(s) == Some(m)
    ensures m.start + 3 <= m.bodyStart && m.bodyStart + 2 <= m.bodyEnd <= |s|
    ensures var g := Group(s, m); g[0] == '{' && g[|g| - 1] == '}'
    ensures s[m.start..m.start + 3] == "```"
    ensures || AllSpace(s, m.start + 3, m.bodyStart)
            || (s[m.start + 3..m.start + 7] == "json" && AllSpace(s, m.start + 7, m.bodyStart))
    ensures exists f :: m.bodyEnd <= f && f + 3 <= |s| && AllSpace(s, m.bodyEnd, f) && s[f..f + 3] == "```"
  {
    assert BodyCloses(s, m.bodyStart, m.bodyEnd);
    var f: nat :| Closing(s, m.bodyEnd, f);
    assert s[f..f + 3] == "```";
  }

  /** A match found at `i`, with no fence before it and no `}` inside the
      group but its last character, is the one `Search` reports. */
  lemma SearchFinds(s: string, i: nat, b: nat, j: nat)
    requires MatchesAt(s, i, b, j)
    requires forall i': nat :: i' < i ==> !FenceAt(s, i')
    requires forall k :: b < k < j - 1 ==> s[k] != '}'
    ensures Search(s) == Some(FenceMatch(i, b, j))
  {
    var m := Search(s).value;
    OpeningUnique(s, i, b, m.bodyStart);
  }

  /** A one-line diagnosis object, `{"root_cause":"a","client_reply":"b"}`. */
  const SampleObject: string :=
    "{" + "\"root_cause\":" + "\"a\"," + "\"client_reply\":" + "\"b\"" + "}"

  /** A model reply that wraps `SampleObject` in a `json`-tagged fence. */
  const TaggedReply: string := "```json\n" + SampleObject + "\n```"

  /** `SampleObject` is braced and holds no other closing brace. */
  lemma SampleObjectShape()
    ensures |SampleObject| == 37 && SampleObject[0] == '{' && SampleObject[36] == '}'
    ensures forall k :: 0 < k < 36 ==> SampleObject[k] != '}'
  {
    var inner := "\"root_cause\":" + "\"a\"," + "\"client_reply\":" + "\"b\"";
    assert SampleObject == "{" + inner + "}";
    assert |inner| == 35 && '}' !in inner;
    assert forall k :: 0 < k < 36 ==> SampleObject[k] == inner[k - 1];
  }

  /** `TaggedReply` is the tagged opening, `SampleObject`, and the closing fence. */
  lemma TaggedReplyParts()
    ensures |TaggedReply| == 49
    ensures TaggedReply[..8] == "```json\n" && TaggedReply[45..] == "\n```"
    ensures TaggedReply[8..45] == SampleObject
  {
    SampleObjectShape();
    var s := TaggedReply;
    assert s[..8] == "```json\n";
    assert s[8..45] == SampleObject;
    assert s[45..] == "\n```";
  }

  /** A `json`-tagged fence around a one-line object yields exactly that object. */
  lemma TaggedFenceExample()
    ensures Search(TaggedReply) == Some(FenceMatch(0, 8, 45))
    ensures Group(TaggedReply, FenceMatch(0, 8, 45)) == SampleObject
  {
    var s := TaggedReply;
    TaggedReplyParts();
    SampleObjectShape();
    assert s[0..3] == s[..8][0..3] == "```";
    assert s[3..7] == s[..8][3..7] == "json";
    assert s[7] == s[..8][7] == '\n' && s[8] == SampleObject[0];
    assert Opening(s, 0, 8);
    assert s[44] == SampleObject[36] && s[45] == s[45..][0] && s[46..49] == s[45..][1..4];
    assert Closing(s, 45, 46);
    assert forall k :: 8 < k < 44 ==> s[k] == SampleObject[k - 8];
    SearchFinds(s, 0, 8, 45);
  }
}
