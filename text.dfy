/** The handful of Python `str` operations the adapters use: `strip()`,
    `split('\n')`, `' '.join(...)`, `endswith` and `str(int)`. Text is a
    sequence of characters; encoding and decoding are the identity. */
module Text {

  /** `c.isspace()` for a `unicode` character in Python 2.7: the characters
      `strip()` removes from decoded text. */
  predicate IsSpace(c: char) {
    c == ' ' || c == '\t' || c == '\n' || c == '\r' || c == '\U{B}' || c == '\U{C}'
    || ('\U{1C}' <= c <= '\U{1F}') || c == '\U{85}' || c == '\U{A0}' || c == '\U{1680}'
    || c == '\U{180E}' || ('\U{2000}' <= c <= '\U{200A}') || c == '\U{2028}' || c == '\U{2029}'
    || c == '\U{202F}' || c == '\U{205F}' || c == '\U{3000}'
  }

  /** No whitespace at either end: what `strip()` returns. */
  predicate IsStripped(s: string) {
    s == [] || (!IsSpace(s[0]) && !IsSpace(s[|s| - 1]))
  }

  /** How many whitespace characters `s` starts with */
  function LeadingSpace(s: string): (n: nat)
    ensures n <= |s|
    ensures forall i :: 0 <= i < n ==> IsSpace(s[i])
    ensures n == |s| || !IsSpace(s[n])
  {
    if s != [] && IsSpace(s[0]) then
      var n := 1 + LeadingSpace(s[1..]);
      assert forall i :: 1 <= i < n ==> s[i] == s[1..][i - 1];
      n
    else 0
  }

  /** How many whitespace characters `s` ends with */
  function TrailingSpace(s: string): (n: nat)
    ensures n <= |s|
    ensures forall i :: |s| - n <= i < |s| ==> IsSpace(s[i])
    ensures n == |s| || !IsSpace(s[|s| - n - 1])
  {
    if s != [] && IsSpace(s[|s| - 1]) then
      var n := 1 + TrailingSpace(s[..|s| - 1]);
      assert forall i :: |s| - n <= i < |s| - 1 ==> s[i] == s[..|s| - 1][i];
      n
    else 0
  }

  /** `s.lstrip()`: the longest suffix of `s` that does not start with whitespace */
  function LStrip(s: string): (r: string)
    ensures |r| <= |s| && r == s[|s| - |r|..]
    ensures forall i :: 0 <= i < |s| - |r| ==> IsSpace(s[i])
    ensures r == [] || !IsSpace(r[0])
  {
    s[LeadingSpace(s)..]
  }

  /** `s.rstrip()`: the longest prefix of `s` that does not end with whitespace */
  function RStrip(s: string): (r: string)
    ensures |r| <= |s| && r == s[..|r|]
    ensures forall i :: |r| <= i < |s| ==> IsSpace(s[i])
    ensures r == [] || !IsSpace(r[|r| - 1])
  {
    s[..|s| - TrailingSpace(s)]
  }

  /** `lstrip` keeps every character from the first non-blank one on. */
  lemma LStripKeeps(s: string, i: nat)
    requires i < |s| && !IsSpace(s[i])
    ensures |s| - |LStrip(s)| <= i
  {
  }

  /** `rstrip` keeps every character up to the last non-blank one. */
  lemma RStripKeeps(s: string, i: nat)
    requires i < |s| && !IsSpace(s[i])
    ensures i < |RStrip(s)|
  {
  }

  /** `s.strip()` */
  function Strip(s: string): (r: string)
    ensures IsStripped(r)
    ensures |r| <= |s|
  {
    RStrip(LStrip(s))
  }

  /** What `strip()` returns is the middle of `s`: it starts after the leading
      whitespace, and only whitespace follows it. */
  lemma StripValue(s: string)
    ensures var k := |s| - |LStrip(s)|;
            k + |Strip(s)| <= |s| && Strip(s) == s[k..k + |Strip(s)|]
            && (forall i :: 0 <= i < k ==> IsSpace(s[i]))
            && (forall i :: k + |Strip(s)| <= i < |s| ==> IsSpace(s[i]))
  {
    var l := LStrip(s);
    var k := |s| - |l|;
    var r := RStrip(l);
    assert l == s[k..];
    forall i | k + |r| <= i < |s| ensures IsSpace(s[i]) {
      assert s[i] == l[i - k];
    }
  }

  /** Conversely, a middle of `s` that has no whitespace at either end and
      only whitespace around it is what `strip()` returns. */
  lemma StripUnique(s: string, a: nat, b: nat)
    requires a <= b <= |s| && IsStripped(s[a..b])
    requires forall i :: 0 <= i < a ==> IsSpace(s[i])
    requires forall i :: b <= i < |s| ==> IsSpace(s[i])
    ensures Strip(s) == s[a..b]
  {
    StripValue(s);
    var r := Strip(s);
    var k := |s| - |LStrip(s)|;
    if a < b {
      assert !IsSpace(s[a]) && !IsSpace(s[b - 1]);
      if k + |r| <= a || k > a {
        assert false;
      }
      assert k == a;
      if k + |r| < b {
        assert false;
      } else if k + |r| > b {
        assert false;
      }
    } else if r != [] {
      assert false;
    }
  }

  /** `if s: s = s.strip()`: stripping only text that is not empty is
      stripping, since stripping empty text leaves it empty. */
  function StripIfAny(s: string): (r: string)
    ensures r == Strip(s)
  {
    if s == "" then
      assert LStrip(s) == "";
      s
    else Strip(s)
  }

  /** Stripping text that has no whitespace at either end changes nothing;
      in particular stripping is idempotent. */
  lemma StripOfStripped(s: string)
    requires IsStripped(s)
    ensures Strip(s) == s
  {
    if s != [] {
      assert LStrip(s) == s;
    }
  }

  /** A prefix with no whitespace at its end, followed only by whitespace,
      is what `rstrip()` keeps. */
  lemma RStripUnique(s: string, k: nat)
    requires k <= |s| && (k == 0 || !IsSpace(s[k - 1]))
    requires forall i :: k <= i < |s| ==> IsSpace(s[i])
    ensures RStrip(s) == s[..k]
  {
  }

  /** A non-blank word, a blank, then any text: stripping keeps the word
      and, unless the text is all whitespace, the blank and the text with
      its trailing whitespace removed. */
  lemma StripWordThenBlank(word: string, rest: string)
    requires word != [] && IsStripped(word)
    ensures Strip(word + " " + rest) == if RStrip(rest) == "" then word else word + " " + RStrip(rest)
  {
    var s := word + " " + rest;
    var r := RStrip(rest);
    assert s[0] == word[0];
    assert LStrip(s) == s;
    if r == "" {
      forall i | |word| <= i < |s| ensures IsSpace(s[i]) {
        if i > |word| {
          assert s[i] == rest[i - |word| - 1];
        }
      }
      RStripUnique(s, |word|);
      assert s[..|word|] == word;
    } else {
      var k := |word| + 1 + |r|;
      assert s[..k] == word + " " + r;
      forall i | k <= i < |s| ensures IsSpace(s[i]) {
        assert s[i] == rest[i - |word| - 1];
      }
      RStripUnique(s, k);
    }
  }

  /** In particular, text that does not end in whitespace is kept whole. */
  lemma RStripOfUnspaced(s: string)
    requires s == [] || !IsSpace(s[|s| - 1])
    ensures RStrip(s) == s
  {
    RStripUnique(s, |s|);
  }

  /** `s.split(sep)`: the pieces between the separators, in order; there is
      always at least one piece, and `"".split(sep) == [""]`. */
  function Split(s: string, sep: char): (parts: seq<string>)
    ensures |parts| >= 1
    ensures forall k :: 0 <= k < |parts| ==> sep !in parts[k]
  {
    if s == [] then [""]
    else
      var rest := Split(s[1..], sep);
      if s[0] == sep then [""] + rest else [[s[0]] + rest[0]] + rest[1..]
  }

  /** `sep.join(parts)` */
  function Join(parts: seq<string>, sep: string): string {
    if |parts| == 0 then ""
    else if |parts| == 1 then parts[0]
    else parts[0] + sep + Join(parts[1..], sep)
  }

  /** Joining the pieces with the separator gives back the text. */
  lemma {:induction false} JoinSplit(s: string, sep: char)
    ensures Join(Split(s, sep), [sep]) == s
  {
    if s != [] {
      var rest := Split(s[1..], sep);
      JoinSplit(s[1..], sep);
      if s[0] == sep {
        assert ([""] + rest)[1..] == rest;
        assert s == [sep] + s[1..];
      } else {
        var parts := [[s[0]] + rest[0]] + rest[1..];
        assert parts[1..] == rest[1..];
        if |rest| > 1 {
          assert Join(rest, [sep]) == rest[0] + [sep] + Join(rest[1..], [sep]);
        }
        assert s == [s[0]] + s[1..];
      }
    }
  }

  /** A piece without the separator, followed by the separator, splits off
      as the first piece. */
  lemma {:induction false} SplitAfterPiece(piece: string, sep: char, t: string)
    requires sep !in piece
    ensures Split(piece + [sep] + t, sep) == [piece] + Split(t, sep)
  {
    var s := piece + [sep] + t;
    if piece == [] {
      assert s[1..] == t;
    } else {
      assert s[1..] == piece[1..] + [sep] + t;
      SplitAfterPiece(piece[1..], sep, t);
      assert [piece[0]] + piece[1..] == piece;
    }
  }

  /** Text without the separator is a single piece. */
  lemma {:induction false} SplitWithoutSeparator(piece: string, sep: char)
    requires sep !in piece
    ensures Split(piece, sep) == [piece]
  {
    if piece != [] {
      SplitWithoutSeparator(piece[1..], sep);
      assert [piece[0]] + piece[1..] == piece;
    }
  }

  /** Splitting is the inverse of joining pieces that do not contain the
      separator. */
  lemma {:induction false} SplitJoin(parts: seq<string>, sep: char)
    requires |parts| >= 1
    requires forall k :: 0 <= k < |parts| ==> sep !in parts[k]
    ensures Split(Join(parts, [sep]), sep) == parts
  {
    if |parts| == 1 {
      SplitWithoutSeparator(parts[0], sep);
    } else {
      SplitJoin(parts[1..], sep);
      SplitAfterPiece(parts[0], sep, Join(parts[1..], [sep]));
      assert [parts[0]] + parts[1..] == parts;
    }
  }

  /** `to_text(candidate).strip().split('\n')`: the candidate's lines */
  function Lines(text: string): (lines: seq<string>)
    ensures |lines| >= 1
    ensures forall k :: 0 <= k < |lines| ==> '\n' !in lines[k]
    ensures Join(lines, "\n") == Strip(text)
  {
    JoinSplit(Strip(text), '\n');
    Split(Strip(text), '\n')
  }

  /** Every character is a decimal digit. */
  predicate IsDigits(d: string) {
    forall k :: 0 <= k < |d| ==> '0' <= d[k] <= '9'
  }

  /** The number a string of decimal digits denotes, read left to right */
  function DigitsValue(d: string): nat
    requires IsDigits(d)
  {
    if d == [] then 0 else 10 * DigitsValue(d[..|d| - 1]) + (d[|d| - 1] as int - '0' as int)
  }

  /** `str(n)` for a natural number */
  function Decimal(n: nat): (r: string)
    ensures |r| >= 1 && IsDigits(r)
    ensures r[0] == '0' ==> n == 0
  {
    var digit := ['0' + (n % 10) as char];
    if n < 10 then digit
    else
      var r := Decimal(n / 10) + digit;
      assert r[0] == Decimal(n / 10)[0];
      r
  }

  /** `str(n)` reads back as n ... */
  lemma {:induction false} DecimalValue(n: nat)
    ensures DigitsValue(Decimal(n)) == n
  {
    var r := Decimal(n);
    if n >= 10 {
      DecimalValue(n / 10);
      assert r[..|r| - 1] == Decimal(n / 10);
    }
  }

  /** ... and every digit string without a leading zero is `str` of the
      number it denotes. */
  lemma {:induction false} DecimalOfDigits(d: string)
    requires d != [] && IsDigits(d) && (d[0] == '0' ==> |d| == 1)
    ensures Decimal(DigitsValue(d)) == d
  {
    var last := d[|d| - 1] as int - '0' as int;
    if |d| > 1 {
      var front := d[..|d| - 1];
      assert front[0] == d[0];
      DecimalOfDigits(front);
      DigitsPositive(front);
      assert DigitsValue(d) / 10 == DigitsValue(front);
      assert DigitsValue(d) % 10 == last;
      assert d == front + [d[|d| - 1]];
    }
  }

  /** Digits that do not start with zero denote a positive number. */
  lemma {:induction false} DigitsPositive(d: string)
    requires d != [] && IsDigits(d) && d[0] != '0'
    ensures DigitsValue(d) > 0
  {
    if |d| > 1 {
      var front := d[..|d| - 1];
      assert front[0] == d[0];
      DigitsPositive(front);
    }
  }
}
