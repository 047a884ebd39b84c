/** The string operations the pages call on JavaScript strings:
    `toLowerCase`, `includes`, `trim`, `split`, `join` and number
    formatting in template literals. */
module Text {

  /** `c.toLowerCase()` on the ASCII letters; other characters are kept. */
  function LowerChar(c: char): (r: char)
    ensures 'A' <= c <= 'Z' ==> 'a' <= r <= 'z'
    ensures !('A' <= c <= 'Z') ==> r == c
  {
    if 'A' <= c <= 'Z' then (c as int + 32) as char else c
  }

  function Lower(s: string): (r: string)
    ensures |r| == |s|
    ensures forall i :: 0 <= i < |s| ==> r[i] == LowerChar(s[i])
  {
    if s == [] then [] else [LowerChar(s[0])] + Lower(s[1..])
  }

  /** Lower-casing twice is lower-casing once. */
  lemma LowerIdempotent(s: string)
    ensures Lower(Lower(s)) == Lower(s)
  {
    forall i | 0 <= i < |s| ensures Lower(Lower(s))[i] == Lower(s)[i] {
      assert !('A' <= LowerChar(s[i]) <= 'Z');
    }
  }

  /** `s.includes(sub)`, searched position by position. */
  predicate Contains(s: string, sub: string)
    decreases |s|
  {
    |sub| <= |s| && (sub <= s || (|s| > 0 && Contains(s[1..], sub)))
  }

  /** The same relation stated by position: `sub` occurs at some offset. */
  ghost predicate OccursAt(s: string, sub: string, i: int) {
    0 <= i && i + |sub| <= |s| && s[i..i + |sub|] == sub
  }

  /** The positional search finds exactly the occurrences. */
  lemma {:induction false} ContainsIff(s: string, sub: string)
    ensures Contains(s, sub) <==> exists i :: OccursAt(s, sub, i)
  {
    if Contains(s, sub) {
      if sub <= s {
        assert s[0..|sub|] == sub;
        assert OccursAt(s, sub, 0);
      } else {
        ContainsIff(s[1..], sub);
        var i :| OccursAt(s[1..], sub, i);
        assert s[1..][i..i + |sub|] == s[i + 1..i + 1 + |sub|];
        assert OccursAt(s, sub, i + 1);
      }
    }
    if exists i :: OccursAt(s, sub, i) {
      var i :| OccursAt(s, sub, i);
      if i == 0 {
        assert sub <= s;
      } else {
        assert s[1..][i - 1..i - 1 + |sub|] == s[i..i + |sub|];
        assert OccursAt(s[1..], sub, i - 1);
        ContainsIff(s[1..], sub);
      }
    }
  }

  /** Every string includes the empty string. */
  lemma ContainsEmpty(s: string)
    ensures Contains(s, "")
  {
  }

  /** The characters `String.prototype.trim` removes: white space and
      line terminators of ECMAScript. */
  predicate IsWhitespace(c: char) {
    c == ' ' || c == '\t' || c == '\n' || c == '\r' || c == '\U{B}' || c == '\U{C}'
    || c == '\U{A0}' || c == '\U{FEFF}' || c == '\U{1680}' || ('\U{2000}' <= c <= '\U{200A}')
    || c == '\U{2028}' || c == '\U{2029}' || c == '\U{202F}' || c == '\U{205F}' || c == '\U{3000}'
  }

  /** A string with no white space at either end. */
  predicate IsTrimmed(s: string) {
    s == [] || (!IsWhitespace(s[0]) && !IsWhitespace(s[|s| - 1]))
  }

  function TrimStart(s: string): (r: string)
    ensures |r| <= |s| && r == s[|s| - |r|..]
    ensures r == [] || !IsWhitespace(r[0])
    ensures forall i :: 0 <= i < |s| - |r| ==> IsWhitespace(s[i])
  {
    if s != [] && IsWhitespace(s[0]) then TrimStart(s[1..]) else s
  }

  function TrimEnd(s: string): (r: string)
    ensures |r| <= |s| && r == s[..|r|]
    ensures r == [] || !IsWhitespace(r[|r| - 1])
    ensures forall i :: |r| <= i < |s| ==> IsWhitespace(s[i])
  {
    if s != [] && IsWhitespace(s[|s| - 1]) then TrimEnd(s[..|s| - 1]) else s
  }

  /** `r` is `s` with white space only cut from its two ends, at offset `i`. */
  ghost predicate CutAt(s: string, r: string, i: int) {
    OccursAt(s, r, i)
    && (forall k :: 0 <= k < i ==> IsWhitespace(s[k]))
    && (forall k :: i + |r| <= k < |s| ==> IsWhitespace(s[k]))
  }

  /** Cutting white space from the front and then from the back cuts `s`
      at the length of the front part. */
  lemma CutFromEnds(s: string, a: string, r: string)
    requires |a| <= |s| && a == s[|s| - |a|..]
    requires forall i :: 0 <= i < |s| - |a| ==> IsWhitespace(s[i])
    requires |r| <= |a| && r == a[..|r|]
    requires forall i :: |r| <= i < |a| ==> IsWhitespace(a[i])
    ensures CutAt(s, r, |s| - |a|)
  {
    var j := |s| - |a|;
    assert s[j..j + |r|] == r;
    forall k | j + |r| <= k < |s| ensures IsWhitespace(s[k]) {
      assert s[k] == a[k - j];
    }
  }

  /** A front of a string that does not start with white space, itself
      not ending in white space, is trimmed. */
  lemma TrimmedEnds(a: string, r: string)
    requires a == [] || !IsWhitespace(a[0])
    requires |r| <= |a| && r == a[..|r|]
    requires r == [] || !IsWhitespace(r[|r| - 1])
    ensures IsTrimmed(r)
  {
    if r != [] {
      assert r[0] == a[0];
    }
  }

  /** `s.trim()`: an infix of `s` with no white space at its ends;
      everything cut off is white space. */
  function Trim(s: string): (r: string)
    ensures IsTrimmed(r)
    ensures exists i :: CutAt(s, r, i)
  {
    var a := TrimStart(s);
    var r := TrimEnd(a);
    CutFromEnds(s, a, r);
    TrimmedEnds(a, r);
    r
  }

  /** Trimming a trimmed string changes nothing. */
  lemma TrimTrimmed(s: string)
    requires IsTrimmed(s)
    ensures Trim(s) == s
  {
  }

  /** A leading blank is removed by `trim`. */
  lemma {:induction false} TrimLeadingSpace(s: string)
    requires IsTrimmed(s)
    ensures Trim(" " + s) == s
  {
    assert (" " + s)[1..] == s;
    assert TrimStart(" " + s) == TrimStart(s) == s;
  }

  /** `s.split(sep)` for a one-character separator: the piece before the
      first separator, then the pieces of what follows it. */
  function Split(s: string, sep: char): (r: seq<string>)
    ensures |r| >= 1
    ensures forall k :: 0 <= k < |r| ==> sep !in r[k]
    decreases |s|, 1
  {
    var later := LaterPieces(s, sep);
    assert forall k :: 1 <= k < |later| + 1 ==> ([FirstPiece(s, sep)] + later)[k] == later[k - 1];
    [FirstPiece(s, sep)] + later
  }

  /** The characters before the first separator (all of them when there is none). */
  function FirstPiece(s: string, sep: char): (p: string)
    ensures sep !in p
  {
    if s == [] || s[0] == sep then "" else [s[0]] + FirstPiece(s[1..], sep)
  }

  /** The pieces after the first separator; none when there is no separator. */
  function LaterPieces(s: string, sep: char): (r: seq<string>)
    ensures forall k :: 0 <= k < |r| ==> sep !in r[k]
    decreases |s|, 0
  {
    if s == [] then [] else if s[0] == sep then Split(s[1..], sep) else LaterPieces(s[1..], sep)
  }

  /** `xs.join(sep)`. */
  function Join(xs: seq<string>, sep: string): string {
    if |xs| == 0 then ""
    else if |xs| == 1 then xs[0]
    else xs[0] + sep + Join(xs[1..], sep)
  }

  /** A character in front of a string joins its first piece. */
  lemma SplitPrepend(c: char, s: string, sep: char)
    requires c != sep
    ensures Split([c] + s, sep) == [[c] + Split(s, sep)[0]] + Split(s, sep)[1..]
  {
    assert ([c] + s)[1..] == s;
    assert Split(s, sep)[1..] == LaterPieces(s, sep);
  }

  /** A separator in front of a string starts with an empty piece. */
  lemma SplitAtSeparator(s: string, sep: char)
    ensures Split([sep] + s, sep) == [""] + Split(s, sep)
  {
    assert ([sep] + s)[1..] == s;
  }

  /** Joining the pieces of a split with its separator gives back the string. */
  lemma {:induction false} JoinSplit(s: string, sep: char)
    ensures Join(Split(s, sep), [sep]) == s
  {
    if s != [] {
      assert s == [s[0]] + s[1..];
      var rest := Split(s[1..], sep);
      JoinSplit(s[1..], sep);
      if s[0] == sep {
        SplitAtSeparator(s[1..], sep);
        assert ([""] + rest)[1..] == rest;
      } else {
        SplitPrepend(s[0], s[1..], sep);
        var r := Split(s, sep);
        assert r[1..] == rest[1..];
        if |rest| == 1 {
          assert r == [[s[0]] + rest[0]];
        } else {
          assert rest == [rest[0]] + rest[1..];
          assert Join(rest, [sep]) == rest[0] + [sep] + Join(rest[1..], [sep]);
        }
      }
    }
  }

  /** Splitting a separator-free string keeps it whole. */
  lemma {:induction false} SplitNoSeparator(s: string, sep: char)
    requires sep !in s
    ensures Split(s, sep) == [s]
  {
    if s != [] {
      assert sep !in s[1..] by {
        forall k | 0 <= k < |s[1..]| ensures s[1..][k] != sep {
          assert s[1..][k] == s[k + 1];
        }
      }
      SplitNoSeparator(s[1..], sep);
      assert s == [s[0]] + s[1..];
      SplitPrepend(s[0], s[1..], sep);
    }
  }

  /** A separator-free piece followed by a separator starts a new piece. */
  lemma {:induction false} SplitCons(a: string, b: string, sep: char)
    requires sep !in a
    ensures Split(a + [sep] + b, sep) == [a] + Split(b, sep)
  {
    if a == [] {
      assert a + [sep] + b == [sep] + b;
      SplitAtSeparator(b, sep);
    } else {
      var s := a + [sep] + b;
      assert s == [a[0]] + (a[1..] + [sep] + b);
      assert sep !in a[1..] by {
        forall k | 0 <= k < |a[1..]| ensures a[1..][k] != sep {
          assert a[1..][k] == a[k + 1];
        }
      }
      SplitCons(a[1..], b, sep);
      SplitPrepend(a[0], a[1..] + [sep] + b, sep);
      assert [a[0]] + a[1..] == a;
      assert ([a[1..]] + Split(b, sep))[1..] == Split(b, sep);
    }
  }

  // ---- numbers in template literals ----

  function DigitChar(d: nat): (c: char)
    requires d < 10
    ensures '0' <= c <= '9'
  {
    (d + '0' as int) as char
  }

  /** `${n}` for a natural number: its decimal digits, no leading zero. */
  function NatToString(n: nat): (r: string)
    ensures |r| >= 1
    ensures n >= 10 ==> |r| >= 2
    ensures forall k :: 0 <= k < |r| ==> '0' <= r[k] <= '9'
  {
    if n < 10 then [DigitChar(n)] else NatToString(n / 10) + [DigitChar(n % 10)]
  }

  function DigitValue(c: char): int {
    c as int - '0' as int
  }

  /** Reads a string of decimal digits, most significant first. */
  function ParseDigits(s: string): int {
    if s == [] then 0 else ParseDigits(s[..|s| - 1]) * 10 + DigitValue(s[|s| - 1])
  }

  /** Reading back the decimal form of a number gives the number. */
  lemma {:induction false} ParseNatToString(n: nat)
    ensures ParseDigits(NatToString(n)) == n
  {
    if n >= 10 {
      var s := NatToString(n);
      assert s[..|s| - 1] == NatToString(n / 10);
      assert s[|s| - 1] == DigitChar(n % 10);
      ParseNatToString(n / 10);
    }
  }

  /** Different numbers are written differently. */
  lemma {:induction false} NatToStringInjective(a: nat, b: nat)
    requires NatToString(a) == NatToString(b)
    ensures a == b
  {
    if a >= 10 && b >= 10 {
      var sa, sb := NatToString(a), NatToString(b);
      assert sa[|sa| - 1] == DigitChar(a % 10) && sb[|sb| - 1] == DigitChar(b % 10);
      assert sa[..|sa| - 1] == NatToString(a / 10);
      assert sb[..|sb| - 1] == NatToString(b / 10);
      NatToStringInjective(a / 10, b / 10);
    }
  }

  /** A fixed prefix followed by a number names that number alone. */
  lemma PrefixedNumberInjective(p: string, a: nat, b: nat)
    requires p + NatToString(a) == p + NatToString(b)
    ensures a == b
  {
    assert (p + NatToString(a))[|p|..] == NatToString(a);
    assert (p + NatToString(b))[|p|..] == NatToString(b);
    NatToStringInjective(a, b);
  }
}
