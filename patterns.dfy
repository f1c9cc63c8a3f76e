/** The few regular expressions the fact extractors apply, each written out
    as what `re.search` does with it: try the start positions from left to
    right and, at each, let the greedy parts take as much as they can and
    back off until the rest of the pattern matches. */
module Patterns {
  import opened Outcomes

  /** `\s` in a pattern compiled without `re.UNICODE` (Python 2.7): the six
      ASCII whitespace characters, whatever the text's type. */
  predicate IsRegexSpace(c: char) {
    c == ' ' || c == '\t' || c == '\n' || c == '\r' || c == '\U{B}' || c == '\U{C}'
  }

  /** Every character of `w` is matched by `\s`. */
  predicate Blank(w: string) {
    forall k :: 0 <= k < |w| ==> IsRegexSpace(w[k])
  }

  /** Every character of `w` is matched by `\S`. */
  predicate Word(w: string) {
    forall k :: 0 <= k < |w| ==> !IsRegexSpace(w[k])
  }

  /** `s[i:].startswith(w)` */
  predicate StartsAt(s: string, i: nat, w: string) {
    i + |w| <= |s| && s[i..i + |w|] == w
  }

  /** Where `^` matches under `re.M`: the start of the text or just after a newline */
  predicate LineStart(s: string, i: nat) {
    i == 0 || (i <= |s| && s[i - 1] == '\n')
  }

  /** How many characters `\s*` takes from position i */
  function SpaceRun(s: string, i: nat): (n: nat)
    requires i <= |s|
    ensures i + n <= |s| && Blank(s[i..i + n])
    ensures i + n == |s| || !IsRegexSpace(s[i + n])
    decreases |s| - i
  {
    if i < |s| && IsRegexSpace(s[i]) then
      var n := 1 + SpaceRun(s, i + 1);
      assert s[i..i + n] == [s[i]] + s[i + 1..i + n];
      n
    else 0
  }

  /** How many characters `\S+` takes from position i (0 when it fails) */
  function WordRun(s: string, i: nat): (n: nat)
    requires i <= |s|
    ensures i + n <= |s| && Word(s[i..i + n])
    ensures i + n == |s| || IsRegexSpace(s[i + n])
    decreases |s| - i
  {
    if i < |s| && !IsRegexSpace(s[i]) then
      var n := 1 + WordRun(s, i + 1);
      assert s[i..i + n] == [s[i]] + s[i + 1..i + n];
      n
    else 0
  }

  /** The end of the line that position i is on: the next newline, or the end */
  function LineEnd(s: string, i: nat): (e: nat)
    requires i <= |s|
    ensures i <= e <= |s|
    ensures e == |s| || s[e] == '\n'
    ensures forall k :: i <= k < e ==> s[k] != '\n'
    decreases |s| - i
  {
    if i == |s| || s[i] == '\n' then i else LineEnd(s, i + 1)
  }

  /** The last position q in [lo, hi] at which w occurs */
  function LastAt(s: string, w: string, lo: nat, hi: int): (q: Option<nat>)
    ensures q.Some? ==> lo <= q.value <= hi && StartsAt(s, q.value, w)
    ensures q.Some? ==> forall k :: q.value < k <= hi ==> !StartsAt(s, k, w)
    ensures q.None? ==> forall k :: lo <= k <= hi ==> !StartsAt(s, k, w)
    decreases hi - lo
  {
    if hi < lo then None
    else if StartsAt(s, hi, w) then Some(hi)
    else LastAt(s, w, lo, hi - 1)
  }

  /** `marker\s*(\S+)` at position i: after the blanks a non-blank word must
      follow; if only blanks are left, backing `\s*` off cannot help, since
      `\S+` cannot match a blank. */
  function LabelTokenAt(s: string, marker: string, i: nat): (r: Option<string>)
    ensures r.Some? ==> StartsAt(s, i, marker)
    ensures r.Some? ==> r.value != [] && Word(r.value)
  {
    if !StartsAt(s, i, marker) then None
    else
      var j := i + |marker| + SpaceRun(s, i + |marker|);
      if j == |s| then None else Some(s[j..j + WordRun(s, j)])
  }

  /** `marker(\S+),` at position i: the greedy word backs off to its last
      comma, and at least one character must remain before it. */
  function CommaTokenAt(s: string, marker: string, i: nat): (r: Option<string>)
    ensures r.Some? ==> StartsAt(s, i, marker)
    ensures r.Some? ==> r.value != [] && Word(r.value)
    ensures r.Some? ==> StartsAt(s, i + |marker| + |r.value|, ",")
  {
    if !StartsAt(s, i, marker) then None
    else
      var b := i + |marker|;
      var e := b + WordRun(s, b);
      match LastAt(s, ",", b + 1, e - 1)
      case None => None
      case Some(q) =>
        assert forall k :: 0 <= k < q - b ==> s[b..q][k] == s[b..e][k];
        Some(s[b..q])
  }

  /** `(.+)suffix` at position b: `.` stops at a newline and the greedy group
      ends at the last occurrence of the suffix on the line. */
  function GroupBefore(s: string, b: nat, suffix: string): (r: Option<string>)
    requires b <= |s|
    ensures r.Some? ==> r.value != [] && '\n' !in r.value
    ensures r.Some? ==> StartsAt(s, b + |r.value|, suffix)
  {
    var e := LineEnd(s, b);
    match LastAt(s, suffix, b + 1, e)
    case None => None
    case Some(q) =>
      assert forall k :: 0 <= k < q - b ==> s[b..q][k] == s[b + k];
      Some(s[b..q])
  }

  /** `^prefix(.+)suffix` under `re.M` at position i */
  function LineGroupAt(s: string, prefix: string, suffix: string, i: nat): (r: Option<string>)
    ensures r.Some? ==> LineStart(s, i) && StartsAt(s, i, prefix)
    ensures r.Some? ==> r.value != [] && '\n' !in r.value
  {
    if !LineStart(s, i) || !StartsAt(s, i, prefix) then None
    else GroupBefore(s, i + |prefix|, suffix)
  }

  /** `^prefix\s+(.+)suffix` under `re.M` at position i: `\s+` takes every
      blank (newlines included) and gives them back one by one, from the
      right, until the rest matches; at least one blank must stay. */
  function SpacedLineGroupAt(s: string, prefix: string, suffix: string, i: nat): (r: Option<string>)
    ensures r.Some? ==> LineStart(s, i) && StartsAt(s, i, prefix)
    ensures r.Some? ==> r.value != [] && '\n' !in r.value
  {
    if !LineStart(s, i) || !StartsAt(s, i, prefix) then None
    else SpacedGroupAt(s, i + |prefix|, suffix)
  }

  /** `\s+(.+)suffix` at position b */
  function SpacedGroupAt(s: string, b: nat, suffix: string): (r: Option<string>)
    requires b <= |s|
    ensures r.Some? ==> r.value != [] && '\n' !in r.value
  {
    BackOff(s, b + 1, b + SpaceRun(s, b), suffix)
  }

  /** `(.+)suffix` tried at p, p - 1, ..., lo in that order */
  function BackOff(s: string, lo: nat, p: nat, suffix: string): (r: Option<string>)
    requires p <= |s|
    ensures r.Some? ==> r.value != [] && '\n' !in r.value
    decreases p
  {
    if p < lo then None
    else match GroupBefore(s, p, suffix)
      case Some(g) => Some(g)
      case None => if p == 0 then None else BackOff(s, lo, p - 1, suffix)
  }

  /* What each pattern matches, stated without the scanning: the functions
     above agree with these exactly (the lemmas below), so the group they
     return is the one these describe, and there is none when these admit
     none. */

  /** `marker\s*(\S+)` matches at i with group g, found at j: only blanks
      between the marker and j, and g is the whole word starting there. */
  predicate IsLabelToken(s: string, marker: string, i: nat, j: nat, g: string) {
    StartsAt(s, i, marker) && i + |marker| <= j && StartsAt(s, j, g)
    && Blank(s[i + |marker|..j]) && g != [] && Word(g)
    && (j + |g| == |s| || IsRegexSpace(s[j + |g|]))
  }

  /** `marker(\S+),` matches at i with group g: g is a word directly after
      the marker, a comma follows it, and no comma further on is reached
      by the word. */
  predicate IsCommaToken(s: string, marker: string, i: nat, g: string) {
    var b := i + |marker|;
    StartsAt(s, i, marker) && g != [] && Word(g) && StartsAt(s, b, g + ",")
    && forall q :: b + |g| < q < |s| && Word(s[b..q]) ==> s[q] != ','
  }

  /** `(.+)suffix` matches at b with group g: g stays on the line, the
      suffix follows it, and the suffix occurs at no later position of the
      line. */
  predicate IsGroupBefore(s: string, b: nat, suffix: string, g: string) {
    g != [] && '\n' !in g && StartsAt(s, b, g) && StartsAt(s, b + |g|, suffix)
    && forall q :: b + |g| < q <= |s| && '\n' !in s[b..q] ==> !StartsAt(s, q, suffix)
  }

  /** `\s+(.+)suffix` matches at b with group g, found at p: `(.+)suffix`
      matches with g after the blanks from b to p, and after no more blanks. */
  predicate IsSpacedGroup(s: string, b: nat, p: nat, suffix: string, g: string) {
    b < p <= |s| && Blank(s[b..p]) && GroupBefore(s, p, suffix) == Some(g)
    && forall p' :: p < p' <= |s| && Blank(s[b..p']) ==> GroupBefore(s, p', suffix).None?
  }

  /** `^prefix\s+(.+)suffix` under `re.M` matches at i with group g, found at p */
  predicate IsSpacedLineGroup(s: string, prefix: string, suffix: string, i: nat, p: nat, g: string) {
    LineStart(s, i) && StartsAt(s, i, prefix) && IsSpacedGroup(s, i + |prefix|, p, suffix, g)
  }

  /** A prefix of what follows b is blank exactly when `\s*` takes all of it. */
  lemma BlankPrefix(s: string, b: nat, q: nat)
    requires b <= q <= |s|
    ensures Blank(s[b..q]) <==> q <= b + SpaceRun(s, b)
  {
    var n := b + SpaceRun(s, b);
    if q <= n {
      forall k | 0 <= k < q - b ensures IsRegexSpace(s[b..q][k]) {
        assert s[b..q][k] == s[b + k];
      }
    } else {
      assert s[b..q][n - b] == s[n];
    }
  }

  /** A prefix of what follows b is a word exactly when `\S+` takes all of it. */
  lemma WordPrefix(s: string, b: nat, q: nat)
    requires b <= q <= |s|
    ensures Word(s[b..q]) <==> q <= b + WordRun(s, b)
  {
    var e := b + WordRun(s, b);
    if q <= e {
      forall k | 0 <= k < q - b ensures !IsRegexSpace(s[b..q][k]) {
        assert s[b..q][k] == s[b + k];
      }
    } else {
      assert s[b..q][e - b] == s[e];
    }
  }

  /** A prefix of what follows b stays on the line exactly when it ends by
      the line's end. */
  lemma LinePrefix(s: string, b: nat, q: nat)
    requires b <= q <= |s|
    ensures '\n' !in s[b..q] <==> q <= LineEnd(s, b)
  {
    var e := LineEnd(s, b);
    if q <= e {
      assert forall k :: 0 <= k < q - b ==> s[b..q][k] == s[b + k];
    } else {
      assert s[b..q][e - b] == s[e];
    }
  }

  lemma LabelTokenSpec(s: string, marker: string, i: nat, g: string)
    ensures LabelTokenAt(s, marker, i) == Some(g) <==> exists j: nat :: IsLabelToken(s, marker, i, j, g)
  {
    if StartsAt(s, i, marker) {
      var a := i + |marker|;
      var j := a + SpaceRun(s, a);
      BlankPrefix(s, a, j);
      if LabelTokenAt(s, marker, i) == Some(g) {
        assert s[j..j + |g|] == g;
        assert IsLabelToken(s, marker, i, j, g);
      }
      if exists j': nat :: IsLabelToken(s, marker, i, j', g) {
        var j': nat :| IsLabelToken(s, marker, i, j', g);
        LabelTokenOnly(s, marker, i, j', g);
      }
    }
  }

  lemma LabelTokenOnly(s: string, marker: string, i: nat, j: nat, g: string)
    requires IsLabelToken(s, marker, i, j, g)
    ensures LabelTokenAt(s, marker, i) == Some(g)
  {
    var a := i + |marker|;
    BlankPrefix(s, a, j);
    assert g[0] == s[j];
    assert j == a + SpaceRun(s, a);
    WordPrefix(s, j, j + |g|);
    assert s[j..j + |g|] == g;
  }

  lemma CommaTokenSpec(s: string, marker: string, i: nat, g: string)
    ensures CommaTokenAt(s, marker, i) == Some(g) <==> IsCommaToken(s, marker, i, g)
  {
    if CommaTokenAt(s, marker, i) == Some(g) {
      CommaTokenFound(s, marker, i);
    }
    if IsCommaToken(s, marker, i, g) {
      CommaTokenOnly(s, marker, i, g);
    }
  }

  /** A comma occurs at q exactly when the character there is one. */
  lemma CommaAt(s: string, q: nat)
    requires q < |s|
    ensures StartsAt(s, q, ",") <==> s[q] == ','
  {
    assert s[q..q + 1] == [s[q]];
  }

  lemma CommaTokenFound(s: string, marker: string, i: nat)
    requires CommaTokenAt(s, marker, i).Some?
    ensures IsCommaToken(s, marker, i, CommaTokenAt(s, marker, i).value)
  {
    var b := i + |marker|;
    var e := b + WordRun(s, b);
    var q := LastAt(s, ",", b + 1, e - 1).value;
    var g := s[b..q];
    assert CommaTokenAt(s, marker, i).value == g;
    WordPrefix(s, b, q);
    assert s[b..q + 1] == g + s[q..q + 1];
    forall q' | b + |g| < q' < |s| && Word(s[b..q']) ensures s[q'] != ',' {
      WordPrefix(s, b, q');
      CommaAt(s, q');
    }
  }

  lemma CommaTokenOnly(s: string, marker: string, i: nat, g: string)
    requires IsCommaToken(s, marker, i, g)
    ensures CommaTokenAt(s, marker, i) == Some(g)
  {
    var b := i + |marker|;
    CommaTokenLast(s, marker, i, g);
    LastCommaAt(s, b + 1, b + WordRun(s, b) - 1, b + |g|);
    CommaTokenOfLast(s, marker, i, b + |g|);
  }

  /** The token ends at the last comma of the word run after the marker. */
  lemma CommaTokenOfLast(s: string, marker: string, i: nat, q: nat)
    requires StartsAt(s, i, marker) && i + |marker| <= q <= |s|
    requires LastAt(s, ",", i + |marker| + 1, i + |marker| + WordRun(s, i + |marker|) - 1) == Some(q)
    ensures CommaTokenAt(s, marker, i) == Some(s[i + |marker|..q])
  {
  }

  /** The comma after a comma token is the last comma of the word run that
      holds it. */
  lemma CommaTokenLast(s: string, marker: string, i: nat, g: string)
    requires IsCommaToken(s, marker, i, g)
    ensures var b := i + |marker|; var q := b + |g|;
            q < b + WordRun(s, b) && StartsAt(s, q, ",") && s[b..q] == g
            && forall k :: q < k <= b + WordRun(s, b) - 1 ==> !StartsAt(s, k, ",")
  {
    var b := i + |marker|;
    var e := b + WordRun(s, b);
    var q := b + |g|;
    assert s[b..q + 1] == g + ",";
    assert s[b..q] == s[b..q + 1][..|g|];
    assert s[q] == s[b..q + 1][|g|];
    WordPrefix(s, b, q);
    CommaAt(s, q);
    if q == e {
      assert false;
    }
    forall k | q < k <= e - 1 ensures !StartsAt(s, k, ",") {
      WordPrefix(s, b, k);
      CommaAt(s, k);
    }
  }

  /** A comma at q with none after it up to hi is the last comma in [lo, hi]. */
  lemma LastCommaAt(s: string, lo: nat, hi: int, q: nat)
    requires lo <= q <= hi && StartsAt(s, q, ",")
    requires forall k :: q < k <= hi ==> !StartsAt(s, k, ",")
    ensures LastAt(s, ",", lo, hi) == Some(q)
  {
  }

  lemma GroupBeforeSpec(s: string, b: nat, suffix: string, g: string)
    requires b <= |s|
    ensures GroupBefore(s, b, suffix) == Some(g) <==> IsGroupBefore(s, b, suffix, g)
  {
    var e := LineEnd(s, b);
    forall q | b <= q <= |s|
      ensures '\n' !in s[b..q] <==> q <= e
    {
      LinePrefix(s, b, q);
    }
    if GroupBefore(s, b, suffix) == Some(g) {
      var q := LastAt(s, suffix, b + 1, e).value;
      assert g == s[b..q];
    }
    if IsGroupBefore(s, b, suffix, g) {
      var q := b + |g|;
      assert s[b..q] == g;
      match LastAt(s, suffix, b + 1, e)
      case None => assert false;
      case Some(q') =>
        if q' > q {
          assert false;
        }
    }
  }

  lemma LineGroupSpec(s: string, prefix: string, suffix: string, i: nat, g: string)
    ensures LineGroupAt(s, prefix, suffix, i) == Some(g)
            <==> LineStart(s, i) && StartsAt(s, i, prefix) && IsGroupBefore(s, i + |prefix|, suffix, g)
  {
    if LineStart(s, i) && StartsAt(s, i, prefix) {
      GroupBeforeSpec(s, i + |prefix|, suffix, g);
    }
  }

  /** `(.+)suffix` matches at q with group g, and at no position in (q, p] */
  predicate HighestGroup(s: string, q: nat, p: nat, suffix: string, g: string)
    requires p <= |s|
  {
    q <= p && GroupBefore(s, q, suffix) == Some(g)
    && forall q' :: q < q' <= p ==> GroupBefore(s, q', suffix).None?
  }

  /** Backing off from p down to lo finds the group of the highest position
      at which `(.+)suffix` matches ... */
  lemma {:induction false} BackOffFound(s: string, lo: nat, p: nat, suffix: string, g: string) returns (q: nat)
    requires p <= |s| && BackOff(s, lo, p, suffix) == Some(g)
    ensures lo <= q && HighestGroup(s, q, p, suffix, g)
    decreases p
  {
    if GroupBefore(s, p, suffix).Some? {
      q := p;
    } else {
      q := BackOffFound(s, lo, p - 1, suffix, g);
    }
  }

  /** ... and a group matched at the highest such position is the one found. */
  lemma {:induction false} BackOffOnly(s: string, lo: nat, p: nat, q: nat, suffix: string, g: string)
    requires p <= |s| && lo <= q && HighestGroup(s, q, p, suffix, g)
    ensures BackOff(s, lo, p, suffix) == Some(g)
    decreases p
  {
    if q < p {
      assert GroupBefore(s, p, suffix).None?;
      BackOffOnly(s, lo, p - 1, q, suffix, g);
    }
  }

  lemma SpacedLineGroupSpec(s: string, prefix: string, suffix: string, i: nat, g: string)
    ensures SpacedLineGroupAt(s, prefix, suffix, i) == Some(g)
            <==> exists p: nat :: IsSpacedLineGroup(s, prefix, suffix, i, p, g)
  {
    if SpacedLineGroupAt(s, prefix, suffix, i) == Some(g) {
      var p := SpacedLineGroupFound(s, prefix, suffix, i, g);
    }
    if exists p: nat :: IsSpacedLineGroup(s, prefix, suffix, i, p, g) {
      var p: nat :| IsSpacedLineGroup(s, prefix, suffix, i, p, g);
      SpacedLineGroupOnly(s, prefix, suffix, i, p, g);
    }
  }

  lemma SpacedLineGroupFound(s: string, prefix: string, suffix: string, i: nat, g: string) returns (p: nat)
    requires SpacedLineGroupAt(s, prefix, suffix, i) == Some(g)
    ensures IsSpacedLineGroup(s, prefix, suffix, i, p, g)
  {
    p := SpacedGroupFound(s, i + |prefix|, suffix, g);
    SpacedLineGroupIntro(s, prefix, suffix, i, p, g);
  }

  lemma SpacedLineGroupOnly(s: string, prefix: string, suffix: string, i: nat, p: nat, g: string)
    requires IsSpacedLineGroup(s, prefix, suffix, i, p, g)
    ensures SpacedLineGroupAt(s, prefix, suffix, i) == Some(g)
  {
    SpacedGroupOnly(s, i + |prefix|, p, suffix, g);
  }

  lemma SpacedLineGroupIntro(s: string, prefix: string, suffix: string, i: nat, p: nat, g: string)
    requires LineStart(s, i) && StartsAt(s, i, prefix) && IsSpacedGroup(s, i + |prefix|, p, suffix, g)
    ensures IsSpacedLineGroup(s, prefix, suffix, i, p, g)
  {
  }

  /** `\s+(.+)suffix` at b: taking every blank and giving them back one by
      one finds a spaced group ... */
  lemma SpacedGroupFound(s: string, b: nat, suffix: string, g: string) returns (p: nat)
    requires b <= |s| && SpacedGroupAt(s, b, suffix) == Some(g)
    ensures IsSpacedGroup(s, b, p, suffix, g)
  {
    BlankRun(s, b);
    p := OverBlanksFound(s, b, b + SpaceRun(s, b), suffix, g);
  }

  /** ... and every spaced group at b is the one it finds. */
  lemma SpacedGroupOnly(s: string, b: nat, p: nat, suffix: string, g: string)
    requires IsSpacedGroup(s, b, p, suffix, g)
    ensures SpacedGroupAt(s, b, suffix) == Some(g)
  {
    BlankRun(s, b);
    OverBlanksOnly(s, b, b + SpaceRun(s, b), p, suffix, g);
  }

  /** The blank stretches from b are exactly those inside its run of blanks. */
  lemma BlankRun(s: string, b: nat)
    requires b <= |s|
    ensures forall p :: b <= p <= |s| ==> (Blank(s[b..p]) <==> p <= b + SpaceRun(s, b))
  {
    forall p | b <= p <= |s| ensures Blank(s[b..p]) <==> p <= b + SpaceRun(s, b) {
      BlankPrefix(s, b, p);
    }
  }

  lemma OverBlanksFound(s: string, b: nat, n: nat, suffix: string, g: string) returns (p: nat)
    requires b <= n <= |s|
    requires forall p :: b <= p <= |s| ==> (Blank(s[b..p]) <==> p <= n)
    requires BackOff(s, b + 1, n, suffix) == Some(g)
    ensures IsSpacedGroup(s, b, p, suffix, g)
  {
    p := BackOffFound(s, b + 1, n, suffix, g);
    assert Blank(s[b..p]);
  }

  lemma OverBlanksOnly(s: string, b: nat, n: nat, p: nat, suffix: string, g: string)
    requires b <= n <= |s|
    requires forall p :: b <= p <= |s| ==> (Blank(s[b..p]) <==> p <= n)
    requires IsSpacedGroup(s, b, p, suffix, g)
    ensures BackOff(s, b + 1, n, suffix) == Some(g)
  {
    assert HighestGroup(s, p, n, suffix, g);
    BackOffOnly(s, b + 1, n, p, suffix, g);
  }

  /** The patterns the fact extractors search for */
  datatype Pattern =
    | LabelToken(marker: string)                       // marker\s*(\S+)
    | CommaToken(marker: string)                       // marker(\S+),
    | LineGroup(prefix: string, suffix: string)        // ^prefix(.+)suffix, multiline
    | SpacedLineGroup(prefix: string, suffix: string)  // ^prefix\s+(.+)suffix, multiline

  /** The first group of `p` matched at position i, if `p` matches there */
  function MatchAt(p: Pattern, s: string, i: nat): (r: Option<string>)
    ensures r.Some? ==> r.value != []
  {
    match p
    case LabelToken(m) => LabelTokenAt(s, m, i)
    case CommaToken(m) => CommaTokenAt(s, m, i)
    case LineGroup(a, b) => LineGroupAt(s, a, b, i)
    case SpacedLineGroup(a, b) => SpacedLineGroupAt(s, a, b, i)
  }

  /** `re.search(p, s)` succeeds. */
  predicate Matches(p: Pattern, s: string) {
    exists j: nat :: j <= |s| && MatchAt(p, s, j).Some?
  }

  /** `v` is the group of the leftmost match of `p` in `s`. */
  predicate FirstMatch(p: Pattern, s: string, v: string) {
    exists j: nat :: j <= |s| && MatchAt(p, s, j) == Some(v) && NoMatchBefore(p, s, j)
  }

  predicate NoMatchBefore(p: Pattern, s: string, j: nat) {
    forall k: nat :: k < j ==> MatchAt(p, s, k).None?
  }

  /** `re.search(p, s).group(1)`: the match at the leftmost start position */
  function Search(p: Pattern, s: string): (r: Option<string>)
    ensures r.Some? <==> Matches(p, s)
    ensures r.Some? ==> FirstMatch(p, s, r.value)
  {
    SearchFrom(p, s, 0)
  }

  function SearchFrom(p: Pattern, s: string, i: nat): (r: Option<string>)
    requires NoMatchBefore(p, s, i)
    ensures r.Some? ==> FirstMatch(p, s, r.value)
    ensures r.None? ==> forall j: nat :: j <= |s| ==> MatchAt(p, s, j).None?
    decreases |s| + 1 - i
  {
    if i > |s| then None
    else if MatchAt(p, s, i).Some? then
      assert i <= |s| && MatchAt(p, s, i) == Some(MatchAt(p, s, i).value) && NoMatchBefore(p, s, i);
      MatchAt(p, s, i)
    else
      assert NoMatchBefore(p, s, i + 1) by {
        forall k: nat | k < i + 1 ensures MatchAt(p, s, k).None? {
          if k < i {
            assert MatchAt(p, s, k).None?;
          }
        }
      }
      SearchFrom(p, s, i + 1)
  }
}
