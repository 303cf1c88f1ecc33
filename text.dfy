/**
  The string searches the gateway's regular expressions perform, written
  out as index scans: JavaScript whitespace and `trim`, `indexOf`,
  `lastIndexOf`, and the spans the brace and code-fence patterns match.
*/
module Text {
  import opened Json

  /** The characters JavaScript's `\s` matches and `String.prototype.trim`
      removes (WhiteSpace and LineTerminator): tab, line feed, vertical tab,
      form feed, carriage return, space, no-break space, the Unicode space
      separators, the line and paragraph separators and the byte order mark. */
  predicate IsSpace(c: char)
  {
    || '\t' <= c <= '\r'
    || c == ' ' || c == '\U{A0}' || c == '\U{1680}'
    || '\U{2000}' <= c <= '\U{200A}'
    || c == '\U{2028}' || c == '\U{2029}' || c == '\U{202F}' || c == '\U{205F}'
    || c == '\U{3000}' || c == '\U{FEFF}'
  }

  /** `pat` occurs in `s` at index `i`. */
  predicate StartsAt(s: string, pat: string, i: int)
  {
    0 <= i && i + |pat| <= |s| && s[i..i + |pat|] == pat
  }

  /** `s.indexOf(pat, from)`: the first occurrence of `pat` at or after `from`. */
  function FindFirst(s: string, pat: string, from: nat): (r: Option<nat>)
    decreases |s| - from
    ensures r.Some? ==> from <= r.value && StartsAt(s, pat, r.value)
    ensures r.Some? ==> forall k :: from <= k < r.value ==> !StartsAt(s, pat, k)
    ensures r.None? ==> forall k :: from <= k ==> !StartsAt(s, pat, k)
  {
    if from + |pat| > |s| then None
    else if StartsAt(s, pat, from) then Some(from)
    else FindFirst(s, pat, from + 1)
  }

  /** `s.includes(pat)`. */
  predicate Contains(s: string, pat: string)
  {
    FindFirst(s, pat, 0).Some?
  }

  /** A text contains its own beginning. */
  lemma ContainsPrefix(pat: string, rest: string)
    ensures Contains(pat + rest, pat)
  {
    assert (pat + rest)[0..|pat|] == pat;
  }

  /** "```" starts at index `i`. */
  predicate FenceAt(s: string, i: int)
  {
    0 <= i && i + 3 <= |s| && s[i] == '`' && s[i + 1] == '`' && s[i + 2] == '`'
  }

  lemma FenceAtIsStartsAt(s: string, i: int)
    ensures StartsAt(s, "```", i) <==> FenceAt(s, i)
  {
    if 0 <= i && i + 3 <= |s| {
      assert s[i..i + 3] == [s[i], s[i + 1], s[i + 2]];
    }
  }

  /** "json" starts at index `i`. */
  predicate JsonLabelAt(s: string, i: int)
  {
    0 <= i && i + 4 <= |s| && s[i] == 'j' && s[i + 1] == 's' && s[i + 2] == 'o' && s[i + 3] == 'n'
  }

  /** `s.indexOf(c, from)` for a one-character pattern. */
  function IndexOfChar(s: string, c: char, from: nat): (r: Option<nat>)
    decreases |s| - from
    ensures r.Some? ==> from <= r.value < |s| && s[r.value] == c
    ensures r.Some? ==> forall k :: from <= k < r.value ==> s[k] != c
    ensures r.None? ==> forall k :: from <= k < |s| ==> s[k] != c
  {
    if from >= |s| then None
    else if s[from] == c then Some(from)
    else IndexOfChar(s, c, from + 1)
  }

  /** `s.lastIndexOf(c)` for a one-character pattern. */
  function LastIndexOf(s: string, c: char): (r: Option<nat>)
    ensures r.Some? ==> r.value < |s| && s[r.value] == c
    ensures r.Some? ==> forall k :: r.value < k < |s| ==> s[k] != c
    ensures r.None? ==> forall k :: 0 <= k < |s| ==> s[k] != c
  {
    if |s| == 0 then None
    else if s[|s| - 1] == c then Some(|s| - 1)
    else LastIndexOf(s[..|s| - 1], c)
  }

  /** The end of the run of whitespace that starts at `i` (what a greedy
      `\s*` consumes from there). */
  function SkipSpace(s: string, i: nat): (r: nat)
    requires i <= |s|
    decreases |s| - i
    ensures i <= r <= |s|
    ensures forall k :: i <= k < r ==> IsSpace(s[k])
    ensures r == |s| || !IsSpace(s[r])
  {
    if i < |s| && IsSpace(s[i]) then SkipSpace(s, i + 1) else i
  }

  /** The start of the run of whitespace that ends at `hi`, not below `lo`. */
  function SpaceRunStart(s: string, lo: nat, hi: nat): (r: nat)
    requires lo <= hi <= |s|
    decreases hi
    ensures lo <= r <= hi
    ensures forall k :: r <= k < hi ==> IsSpace(s[k])
    ensures r == lo || !IsSpace(s[r - 1])
  {
    if lo < hi && IsSpace(s[hi - 1]) then SpaceRunStart(s, lo, hi - 1) else hi
  }

  // ---------------------------------------------------------------- trim

  /** `String.prototype.trim`: the text between the leading and the
      trailing run of whitespace. */
  function Trim(s: string): (r: string)
    ensures |r| <= |s|
    ensures r == "" || (!IsSpace(r[0]) && !IsSpace(r[|r| - 1]))
  {
    var a := SkipSpace(s, 0);
    s[a..SpaceRunStart(s, a, |s|)]
  }

  /** A text with a character other than whitespace does not trim to "". */
  lemma TrimKeepsNonSpace(s: string, i: nat)
    requires i < |s| && !IsSpace(s[i])
    ensures Trim(s) != ""
  {
    SkipSpaceBelow(s, 0, i);
  }

  /** A run of whitespace never crosses a non-space character. */
  lemma SkipSpaceBelow(s: string, i: nat, j: nat)
    requires i <= j < |s| && !IsSpace(s[j])
    ensures SkipSpace(s, i) <= j
  {
  }

  /** `\s*` run from `i` stops at the first non-space character, or at the
      end. */
  lemma {:induction false} SkipSpaceStops(s: string, i: nat, j: nat)
    requires i <= j <= |s|
    requires forall k :: i <= k < j ==> IsSpace(s[k])
    requires j == |s| || !IsSpace(s[j])
    ensures SkipSpace(s, i) == j
    decreases j - i
  {
    if i < j {
      SkipSpaceStops(s, i + 1, j);
    }
  }

  /** The whitespace run ending at `hi` starts right after the last
      non-space character before it. */
  lemma {:induction false} SpaceRunStartStops(s: string, lo: nat, j: nat, hi: nat)
    requires lo <= j <= hi <= |s|
    requires forall k :: j <= k < hi ==> IsSpace(s[k])
    requires j == lo || !IsSpace(s[j - 1])
    ensures SpaceRunStart(s, lo, hi) == j
    decreases hi - j
  {
    if j < hi {
      SpaceRunStartStops(s, lo, j, hi - 1);
    }
  }

  /** Splitting a slice at its leading and trailing whitespace runs: `trim`
      keeps the part in between. */
  lemma TrimmedInterior(s: string, i: nat, a: nat, w: nat, t: nat)
    requires i <= a <= w <= t <= |s|
    requires forall k :: i <= k < a ==> IsSpace(s[k])
    requires forall k :: w <= k < t ==> IsSpace(s[k])
    requires a < w ==> !IsSpace(s[a]) && !IsSpace(s[w - 1])
    ensures Trim(s[i..t]) == s[a..w]
  {
    if a < w {
      SkipSpaceInSlice(s, i, a, t);
      SpaceRunStartInSlice(s, i, a, w, t);
      SliceOfSlice(s, i, a, w, t);
    } else {
      SkipSpaceInSlice(s, i, t, t);
    }
  }

  lemma SliceOfSlice(s: string, i: nat, a: nat, w: nat, t: nat)
    requires i <= a <= w <= t <= |s|
    ensures s[i..t][a - i..w - i] == s[a..w]
  {
    forall k | 0 <= k < w - a
      ensures s[i..t][a - i..w - i][k] == s[a..w][k]
    {
    }
  }

  lemma SkipSpaceInSlice(s: string, i: nat, a: nat, t: nat)
    requires i <= a <= t <= |s|
    requires forall k :: i <= k < a ==> IsSpace(s[k])
    requires a == t || !IsSpace(s[a])
    ensures SkipSpace(s[i..t], 0) == a - i
  {
    SkipSpaceStops(s[i..t], 0, a - i);
  }

  lemma SpaceRunStartInSlice(s: string, i: nat, a: nat, w: nat, t: nat)
    requires i <= a <= w <= t <= |s|
    requires forall k :: w <= k < t ==> IsSpace(s[k])
    requires w == a || !IsSpace(s[w - 1])
    ensures SpaceRunStart(s[i..t], a - i, t - i) == w - i
  {
    SpaceRunStartStops(s[i..t], a - i, w - i, t - i);
  }

  /** `trim` of a slice that is not all whitespace: the part between the
      leading and the trailing run. */
  lemma TrimmedGap(s: string, i: nat, t: nat)
    requires i <= t <= |s| && SkipSpace(s, i) <= t
    ensures Trim(s[i..t]) == s[SkipSpace(s, i)..SpaceRunStart(s, SkipSpace(s, i), t)]
    ensures var a := SkipSpace(s, i); var w := SpaceRunStart(s, a, t); Trim(s[a..w]) == s[a..w]
  {
    var a := SkipSpace(s, i);
    var w := SpaceRunStart(s, a, t);
    TrimmedInterior(s, i, a, w, t);
    TrimmedCore(s, a, w);
  }

  /** A slice without surrounding whitespace is its own trim. */
  lemma TrimmedCore(s: string, a: nat, w: nat)
    requires a <= w <= |s|
    requires a < w ==> !IsSpace(s[a]) && !IsSpace(s[w - 1])
    ensures Trim(s[a..w]) == s[a..w]
  {
    TrimmedInterior(s, a, a, w, w);
  }

  // ---------------------------------------------------------------- brace spans

  /** What `/{[\s\S]*?}/` matches: from the first `{` to the first `}` after
      it. A `}` that closes a nested object ends the span. */
  function FirstBraceSpan(s: string): (r: Option<(nat, nat)>)
    ensures r.Some? ==> r.value.0 < r.value.1 <= |s|
    ensures r.Some? ==> s[r.value.0] == '{' && s[r.value.1 - 1] == '}'
    ensures r.Some? ==> forall k :: 0 <= k < r.value.0 ==> s[k] != '{'
    ensures r.Some? ==> forall k :: r.value.0 < k < r.value.1 - 1 ==> s[k] != '}'
    ensures r.None? <==> !exists i, j :: 0 <= i < j < |s| && s[i] == '{' && s[j] == '}'
  {
    match IndexOfChar(s, '{', 0)
    case None => None
    case Some(i) =>
      match IndexOfChar(s, '}', i + 1)
      case None => None
      case Some(j) => Some((i, j + 1))
  }

  /** What `/{.*}/s` matches: from the first `{` to the last `}` of the
      whole text, across newlines. */
  function GreedyBraceSpan(s: string): (r: Option<(nat, nat)>)
    ensures r.Some? ==> r.value.0 < r.value.1 <= |s|
    ensures r.Some? ==> s[r.value.0] == '{' && s[r.value.1 - 1] == '}'
    ensures r.Some? ==> forall k :: 0 <= k < r.value.0 ==> s[k] != '{'
    ensures r.Some? ==> forall k :: r.value.1 <= k < |s| ==> s[k] != '}'
    ensures r.None? <==> !exists i, j :: 0 <= i < j < |s| && s[i] == '{' && s[j] == '}'
  {
    match IndexOfChar(s, '{', 0)
    case None => None
    case Some(i) =>
      match LastIndexOf(s, '}')
      case None => None
      case Some(j) => if i < j then Some((i, j + 1)) else None
  }

  // ---------------------------------------------------------------- code fences

  /** The first index `e >= from` at which `\s*```` matches: where the lazy
      group of a fence pattern stops. */
  function ClosingFenceAt(s: string, from: nat): (r: Option<nat>)
    requires from <= |s|
    decreases |s| - from
    ensures r.Some? ==> from <= r.value <= |s| && FenceAt(s, SkipSpace(s, r.value))
    ensures r.Some? ==> forall k :: from <= k < r.value ==> !FenceAt(s, SkipSpace(s, k))
    ensures r.None? ==> forall k :: from <= k <= |s| ==> !FenceAt(s, SkipSpace(s, k))
  {
    if FenceAt(s, SkipSpace(s, from)) then Some(from)
    else if from == |s| then None
    else ClosingFenceAt(s, from + 1)
  }

  /** The trimmed group of `/```json\s*([\s\S]*?)\s*```/`, when it is not
      empty. The pattern can only match at the first "```json": a later one
      starts with a "```" that already closes the first. */
  function JsonFenceBody(s: string): (r: Option<string>)
    ensures r.Some? ==> FindFirst(s, "```json", 0).Some?
    ensures r.Some? ==> r.value != "" && !IsSpace(r.value[0]) && !IsSpace(r.value[|r.value| - 1])
  {
    match FindFirst(s, "```json", 0)
    case None => None
    case Some(p) =>
      var a := SkipSpace(s, p + 7);
      match ClosingFenceAt(s, a)
      case None => None
      case Some(e) =>
        if a < e then
          TrimKeepsNonSpace(s[a..e], 0);
          Some(Trim(s[a..e]))
        else None
  }

  /** ClosingFenceAt finds the first position whose whitespace run is
      followed by "```". */
  lemma {:induction false} ClosingFenceAtFirst(s: string, a: nat, w: nat)
    requires a <= w <= |s|
    requires FenceAt(s, SkipSpace(s, w))
    requires forall k :: a <= k < w ==> !FenceAt(s, SkipSpace(s, k))
    ensures ClosingFenceAt(s, a) == Some(w)
    decreases w - a
  {
    if a < w {
      ClosingFenceAtFirst(s, a + 1, w);
    }
  }

  /** From a position `a` before the first "```" at or after `lo`, at `t`,
      the lazy group stops where the whitespace in front of that "```" begins. */
  lemma ClosingFenceAtRunStart(s: string, lo: nat, a: nat, t: nat)
    requires lo <= a <= t <= |s|
    requires FenceAt(s, t) && forall k :: lo <= k < t ==> !FenceAt(s, k)
    ensures ClosingFenceAt(s, a) == Some(SpaceRunStart(s, a, t))
  {
    var w := SpaceRunStart(s, a, t);
    SkipSpaceStops(s, w, t);
    forall k | a <= k < w
      ensures !FenceAt(s, SkipSpace(s, k))
    {
      SkipSpaceBelow(s, k, w - 1);
    }
    ClosingFenceAtFirst(s, a, w);
  }

  /** What `indexOf("```", lo)` finding `t` says in terms of FenceAt. */
  lemma FirstFence(s: string, lo: nat, t: nat)
    requires FindFirst(s, "```", lo) == Some(t)
    ensures FenceAt(s, t) && forall k :: lo <= k < t ==> !FenceAt(s, k)
  {
    FenceAtIsStartsAt(s, t);
    forall k | lo <= k < t
      ensures !FenceAt(s, k)
    {
      FenceAtIsStartsAt(s, k);
    }
  }

  /** Without a "```" after the first "```json", the ```json fence yields nothing. */
  lemma JsonFenceBodyUnclosed(s: string, p: nat)
    requires FindFirst(s, "```json", 0) == Some(p)
    requires FindFirst(s, "```", p + 7).None?
    ensures JsonFenceBody(s).None?
  {
    forall k | p + 7 <= k
      ensures !FenceAt(s, k)
    {
      FenceAtIsStartsAt(s, k);
    }
  }

  /** The ```json fence yields the text between the first "```json" and the
      next "```", trimmed, and nothing when that text is blank. */
  lemma JsonFenceBodyIsTrimmedInterior(s: string, p: nat, t: nat)
    requires FindFirst(s, "```json", 0) == Some(p)
    requires FindFirst(s, "```", p + 7) == Some(t)
    ensures JsonFenceBody(s) == if Trim(s[p + 7..t]) == "" then None else Some(Trim(s[p + 7..t]))
  {
    assert p + 7 <= |s| by {
      assert StartsAt(s, "```json", p);
    }
    FirstFence(s, p + 7, t);
    var a := SkipSpace(s, p + 7);
    var w := FenceGap(s, p + 7, t);
    JsonFenceBodyAt(s, p, a, w);
  }

  /** Between `lo` and the next "```" at `t`: the lazy group of `\s*([\s\S]*?)\s*```
      started after the leading whitespace ends at `w`, the start of the
      trailing whitespace, and what lies between is the trim of the gap. */
  lemma FenceGap(s: string, lo: nat, t: nat) returns (w: nat)
    requires lo <= t <= |s|
    requires FenceAt(s, t) && forall k :: lo <= k < t ==> !FenceAt(s, k)
    ensures SkipSpace(s, lo) <= w <= t
    ensures ClosingFenceAt(s, SkipSpace(s, lo)) == Some(w)
    ensures Trim(s[lo..t]) == s[SkipSpace(s, lo)..w]
    ensures Trim(s[SkipSpace(s, lo)..w]) == s[SkipSpace(s, lo)..w]
  {
    var a := SkipSpace(s, lo);
    SkipSpaceBelow(s, lo, t);
    w := SpaceRunStart(s, a, t);
    ClosingFenceAtRunStart(s, lo, a, t);
    TrimmedGap(s, lo, t);
  }

  lemma JsonFenceBodyAt(s: string, p: nat, a: nat, w: nat)
    requires FindFirst(s, "```json", 0) == Some(p)
    requires p + 7 <= |s| && a == SkipSpace(s, p + 7)
    requires ClosingFenceAt(s, a) == Some(w)
    ensures JsonFenceBody(s) == if a < w then Some(Trim(s[a..w])) else None
  {
  }

  /** `s[k]` is a `}` followed by optional whitespace and "```". */
  predicate ClosesBody(s: string, k: nat)
  {
    k < |s| && s[k] == '}' && FenceAt(s, SkipSpace(s, k + 1))
  }

  /** The first `k >= from` where ClosesBody holds: where the lazy
      `{[\s\S]*?}` of a fence pattern stops. */
  function BodyEnd(s: string, from: nat): (r: Option<nat>)
    requires from <= |s|
    decreases |s| - from
    ensures r.Some? ==> from <= r.value < |s| && ClosesBody(s, r.value)
  {
    if from == |s| then None
    else if ClosesBody(s, from) then Some(from)
    else BodyEnd(s, from + 1)
  }

  /** BodyEnd stops at the first place the group can close, and finds none
      only when there is none. */
  lemma {:induction false} BodyEndIsFirst(s: string, from: nat)
    requires from <= |s|
    decreases |s| - from
    ensures BodyEnd(s, from).Some? ==> forall k :: from <= k < BodyEnd(s, from).value ==> !ClosesBody(s, k)
    ensures BodyEnd(s, from).None? ==> forall k :: from <= k ==> !ClosesBody(s, k)
  {
    if from < |s| && !ClosesBody(s, from) {
      BodyEndIsFirst(s, from + 1);
    }
  }

  /** The group `{[\s\S]*?}` followed by `\s*```` matches from `a` to `hi`:
      it opens with the `{` at `a` and closes at the first `}` after it that
      is followed by optional whitespace and "```". */
  predicate BodyFrom(s: string, a: nat, hi: nat)
  {
    && a < hi <= |s| && s[a] == '{' && ClosesBody(s, hi - 1)
    && forall k :: a < k < hi - 1 ==> !ClosesBody(s, k)
  }

  /** No such group starts at `a`. */
  predicate NoBodyFrom(s: string, a: nat)
    requires a <= |s|
  {
    a == |s| || s[a] != '{' || forall k :: a < k < |s| ==> !ClosesBody(s, k)
  }

  /** `({[\s\S]*?})\s*```` matched with its `{` at index `a`: the span of the group. */
  function FencedBraceBody(s: string, a: nat): (r: Option<(nat, nat)>)
    requires a <= |s|
    ensures r.Some? ==> r.value.0 == a && BodyFrom(s, a, r.value.1)
    ensures r.None? ==> NoBodyFrom(s, a)
  {
    BodyEndIsFirst(s, if a < |s| then a + 1 else a);
    if a < |s| && s[a] == '{' then
      match BodyEnd(s, a + 1)
      case None => None
      case Some(c) => Some((a, c + 1))
    else None
  }

  /** The group when the optional "json" label follows the opening fence at
      `p`: it starts where the whitespace after "```json" ends. */
  function LabelledBody(s: string, p: nat): (r: Option<(nat, nat)>)
    requires p + 3 <= |s|
    ensures r.Some? ==> JsonLabelAt(s, p + 3) && r.value.0 == SkipSpace(s, p + 7) && BodyFrom(s, r.value.0, r.value.1)
    ensures r.None? ==> !JsonLabelAt(s, p + 3) || NoBodyFrom(s, SkipSpace(s, p + 7))
  {
    if JsonLabelAt(s, p + 3) then FencedBraceBody(s, SkipSpace(s, p + 7)) else None
  }

  /** The group of `/```(?:json)?\s*({[\s\S]*?})\s*```/` when the match
      starts at `p`: the labelled reading when it matches, else the
      unlabelled one. */
  function FenceMatchAt(s: string, p: nat): (r: Option<(nat, nat)>)
    ensures r.Some? ==> FenceAt(s, p) && p + 3 <= r.value.0 < r.value.1 <= |s|
    ensures r.Some? ==> s[r.value.0] == '{' && ClosesBody(s, r.value.1 - 1)
  {
    if !FenceAt(s, p) then None
    else
      var labelled := LabelledBody(s, p);
      if labelled.Some? then labelled else FencedBraceBody(s, SkipSpace(s, p + 3))
  }

  /** Which reading a match at `p` takes. With the label, the group starts
      after "```json" and its whitespace; without it, after "```" and its
      whitespace; the label is tried first. Either way the group ends at the
      first `}` that closes the fence, and nothing matches only when neither
      reading does. */
  lemma FenceMatchAtReading(s: string, p: nat)
    ensures var r := FenceMatchAt(s, p);
            r.Some? ==> BodyFrom(s, r.value.0, r.value.1)
    ensures var r := FenceMatchAt(s, p);
            r.Some? ==> || (JsonLabelAt(s, p + 3) && r.value.0 == SkipSpace(s, p + 7))
                        || r.value.0 == SkipSpace(s, p + 3)
    ensures FenceAt(s, p) && JsonLabelAt(s, p + 3) && !NoBodyFrom(s, SkipSpace(s, p + 7)) ==>
              FenceMatchAt(s, p).Some? && FenceMatchAt(s, p).value.0 == SkipSpace(s, p + 7)
    ensures FenceMatchAt(s, p).None? ==>
              || !FenceAt(s, p)
              || ((!JsonLabelAt(s, p + 3) || NoBodyFrom(s, SkipSpace(s, p + 7)))
                  && NoBodyFrom(s, SkipSpace(s, p + 3)))
  {
  }

  /** No match starts within three characters of the end. */
  lemma NoFenceNearEnd(s: string, from: nat)
    requires from + 3 > |s|
    ensures forall q :: from <= q ==> FenceMatchAt(s, q).None?
  {
    forall q | from <= q
      ensures !FenceAt(s, q)
    {
    }
  }

  /** The leftmost position at or after `from` where that pattern matches. */
  function FirstFenceMatch(s: string, from: nat): (r: Option<nat>)
    decreases |s| - from
    ensures r.Some? ==> from <= r.value <= |s| - 3
  {
    if from + 3 > |s| then None
    else if FenceMatchAt(s, from).Some? then Some(from)
    else FirstFenceMatch(s, from + 1)
  }

  /** FirstFenceMatch finds a match, and no match starts before it; when it
      finds none, there is none. */
  lemma {:induction false} FirstFenceMatchIsLeftmost(s: string, from: nat)
    decreases |s| - from
    ensures FirstFenceMatch(s, from).Some? ==> FenceMatchAt(s, FirstFenceMatch(s, from).value).Some?
    ensures FirstFenceMatch(s, from).Some? ==>
              forall q :: from <= q < FirstFenceMatch(s, from).value ==> FenceMatchAt(s, q).None?
    ensures FirstFenceMatch(s, from).None? ==> forall q :: from <= q ==> FenceMatchAt(s, q).None?
  {
    if from + 3 > |s| {
      NoFenceNearEnd(s, from);
    } else if FenceMatchAt(s, from).None? {
      FirstFenceMatchIsLeftmost(s, from + 1);
      var r := FirstFenceMatch(s, from + 1);
      assert FirstFenceMatch(s, from) == r;
      if r.Some? {
        assert forall q :: from + 1 <= q < r.value ==> FenceMatchAt(s, q).None?;
      }
    }
  }

  /** The span of the `{…}` group of the leftmost match of
      `/```(?:json)?\s*({[\s\S]*?})\s*```/`: the group of the match at the
      first "```" where the pattern matches, and nothing when it matches
      nowhere. */
  function FenceBraceSpan(s: string): (r: Option<(nat, nat)>)
    ensures r.Some? ==> r.value.0 < r.value.1 <= |s|
    ensures r.Some? ==> s[r.value.0] == '{' && s[r.value.1 - 1] == '}'
    ensures r.Some? ==> FirstFenceMatch(s, 0).Some? && r == FenceMatchAt(s, FirstFenceMatch(s, 0).value)
    ensures r.None? <==> forall q :: FenceMatchAt(s, q).None?
  {
    FirstFenceMatchIsLeftmost(s, 0);
    match FirstFenceMatch(s, 0)
    case None => None
    case Some(p) => FenceMatchAt(s, p)
  }

  /** The fenced span, end to end: the match starts at a "```" before which
      the pattern matches nowhere; the group starts after that fence (and
      after "json" when the labelled reading matches) and its whitespace,
      and it ends at the first `}` followed by optional whitespace and "```". */
  lemma FenceBraceSpanIsFencedBody(s: string)
    ensures FenceBraceSpan(s).Some? ==>
              var p := FirstFenceMatch(s, 0).value;
              var (lo, hi) := FenceBraceSpan(s).value;
              && FenceAt(s, p)
              && (forall q :: 0 <= q < p ==> FenceMatchAt(s, q).None?)
              && BodyFrom(s, lo, hi)
              && ((JsonLabelAt(s, p + 3) && lo == SkipSpace(s, p + 7)) || lo == SkipSpace(s, p + 3))
              && (JsonLabelAt(s, p + 3) && !NoBodyFrom(s, SkipSpace(s, p + 7)) ==> lo == SkipSpace(s, p + 7))
  {
    FirstFenceMatchIsLeftmost(s, 0);
    if FenceBraceSpan(s).Some? {
      FenceMatchAtReading(s, FirstFenceMatch(s, 0).value);
    }
  }
}
