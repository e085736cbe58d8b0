/**
 * String operations the detection rules are built from: ASCII case folding
 * (`str.lower()`), substring and prefix tests (`in`, anchored patterns),
 * joining command-line tokens with spaces, and the decimal rendering of
 * integers used in finding ids (`f"{n}"`, `f"{n:03d}"`).
 */
module Text {

  /** `str.lower()` restricted to ASCII: only 'A'..'Z' change. */
  function LowerChar(c: char): (l: char)
  {
    if 'A' <= c <= 'Z' then (c as int - 'A' as int + 'a' as int) as char else c
  }

  function Lower(s: string): (r: string)
    ensures |r| == |s|
    ensures forall i :: 0 <= i < |s| ==> r[i] == LowerChar(s[i])
  {
    if s == [] then [] else [LowerChar(s[0])] + Lower(s[1..])
  }

  predicate NoUpper(s: string)
  {
    forall i :: 0 <= i < |s| ==> !('A' <= s[i] <= 'Z')
  }

  /** Lowering a string without upper-case letters leaves it as it is. */
  lemma LowerOfLowercase(s: string)
    requires NoUpper(s)
    ensures Lower(s) == s
  {
    var r := Lower(s);
    forall i | 0 <= i < |s| ensures r[i] == s[i] {
      assert !('A' <= s[i] <= 'Z');
    }
  }

  /** `sub` occurs in `s` starting at index `i`. */
  predicate OccursAt(s: string, sub: string, i: int)
  {
    0 <= i && i + |sub| <= |s| && s[i..i + |sub|] == sub
  }

  /** Python's `sub in s`. */
  predicate Contains(s: string, sub: string)
  {
    exists i | 0 <= i <= |s| - |sub| :: OccursAt(s, sub, i)
  }

  /** Python's `any(w in s for w in words)`. */
  predicate AnyContains(s: string, words: seq<string>)
  {
    exists w | w in words :: Contains(s, w)
  }

  /** An anchored match `^p` of a literal pattern `p`. */
  predicate StartsWith(s: string, p: string)
  {
    |p| <= |s| && s[..|p|] == p
  }

  /** A string that starts with `p + q` starts with `p`. */
  lemma StartsWithPrefix(s: string, p: string, q: string)
    ensures StartsWith(s, p + q) ==> StartsWith(s, p)
  {
    if StartsWith(s, p + q) {
      assert s[..|p|] == (p + q)[..|p|] == p;
    }
  }

  /** After a common prefix `p`, matching `p + q` is matching `q`. */
  lemma StartsWithAfter(p: string, t: string, q: string)
    ensures StartsWith(p + t, p + q) <==> StartsWith(t, q)
  {
    var s := p + t;
    if StartsWith(t, q) {
      assert s[..|p + q|] == p + t[..|q|];
    }
    if StartsWith(s, p + q) {
      assert t[..|q|] == s[..|p + q|][|p|..] == (p + q)[|p|..] == q;
    }
  }

  /** `' '.join(tokens)`. */
  function JoinSpaces(tokens: seq<string>): (line: string)
  {
    if |tokens| == 0 then ""
    else if |tokens| == 1 then tokens[0]
    else tokens[0] + " " + JoinSpaces(tokens[1..])
  }

  /** An occurrence in `a` is an occurrence in `a + b`. */
  lemma ContainsLeft(a: string, b: string, w: string)
    requires Contains(a, w)
    ensures Contains(a + b, w)
  {
    var i :| 0 <= i <= |a| - |w| && OccursAt(a, w, i);
    assert (a + b)[i..i + |w|] == a[i..i + |w|];
    assert OccursAt(a + b, w, i);
  }

  /** An occurrence in `b` is an occurrence in `a + b`, shifted by `|a|`. */
  lemma ContainsRight(a: string, b: string, w: string)
    requires Contains(b, w)
    ensures Contains(a + b, w)
  {
    var i :| 0 <= i <= |b| - |w| && OccursAt(b, w, i);
    assert (a + b)[|a| + i..|a| + i + |w|] == b[i..i + |w|];
    assert OccursAt(a + b, w, |a| + i);
  }

  /** A keyword found inside one command-line token is found in the joined command line. */
  lemma {:induction false} ContainsJoined(tokens: seq<string>, k: nat, w: string)
    requires k < |tokens| && Contains(tokens[k], w)
    ensures Contains(JoinSpaces(tokens), w)
  {
    if |tokens| == 1 {
    } else if k == 0 {
      assert JoinSpaces(tokens) == tokens[0] + (" " + JoinSpaces(tokens[1..]));
      ContainsLeft(tokens[0], " " + JoinSpaces(tokens[1..]), w);
    } else {
      ContainsJoined(tokens[1..], k - 1, w);
      assert JoinSpaces(tokens) == (tokens[0] + " ") + JoinSpaces(tokens[1..]);
      ContainsRight(tokens[0] + " ", JoinSpaces(tokens[1..]), w);
    }
  }

  /** Lowering works character by character, so it distributes over concatenation. */
  lemma LowerAppend(a: string, b: string)
    ensures Lower(a + b) == Lower(a) + Lower(b)
  {
    var l, r := Lower(a + b), Lower(a) + Lower(b);
    forall i | 0 <= i < |l| ensures l[i] == r[i] {
      if i < |a| {
        assert (a + b)[i] == a[i];
      } else {
        assert (a + b)[i] == b[i - |a|];
      }
    }
  }

  /** Each token lowered. */
  function LowerAll(tokens: seq<string>): (r: seq<string>)
    ensures |r| == |tokens|
    ensures forall k :: 0 <= k < |tokens| ==> r[k] == Lower(tokens[k])
  {
    if tokens == [] then [] else [Lower(tokens[0])] + LowerAll(tokens[1..])
  }

  /** Lowering the joined command line is joining the lowered tokens. */
  lemma {:induction false} LowerJoin(tokens: seq<string>)
    ensures Lower(JoinSpaces(tokens)) == JoinSpaces(LowerAll(tokens))
  {
    if |tokens| > 1 {
      var rest := tokens[1..];
      assert LowerAll(tokens)[1..] == LowerAll(rest);
      LowerJoin(rest);
      LowerAppend(tokens[0] + " ", JoinSpaces(rest));
      LowerAppend(tokens[0], " ");
      assert Lower(" ") == " ";
    }
  }

  /** A character of `s` covered by an occurrence of `w` is a character of `w`. */
  lemma SpaceInside(s: string, w: string, i: int, pos: int)
    requires OccursAt(s, w, i) && i <= pos < i + |w|
    ensures s[pos] in w
  {
    assert s[pos] == s[i..i + |w|][pos - i];
  }

  /**
   * A non-empty word without a space found in the space-joined tokens lies
   * inside one token: an occurrence cannot straddle a separator.
   */
  lemma {:induction false} ContainsSplit(tokens: seq<string>, w: string)
    requires |w| > 0 && ' ' !in w && Contains(JoinSpaces(tokens), w)
    ensures exists k | 0 <= k < |tokens| :: Contains(tokens[k], w)
  {
    if |tokens| == 1 {
      assert Contains(tokens[0], w);
    } else {
      var t0, rest := tokens[0], tokens[1..];
      var j := JoinSpaces(tokens);
      assert |tokens| != 0;
      assert j == t0 + " " + JoinSpaces(rest);
      var i :| 0 <= i <= |j| - |w| && OccursAt(j, w, i);
      if i + |w| <= |t0| {
        assert j[i..i + |w|] == t0[i..i + |w|];
        assert OccursAt(t0, w, i);
      } else if i > |t0| {
        var o := i - |t0| - 1;
        assert j[i..i + |w|] == JoinSpaces(rest)[o..o + |w|];
        assert OccursAt(JoinSpaces(rest), w, o);
        ContainsSplit(rest, w);
        var k :| 0 <= k < |rest| && Contains(rest[k], w);
        assert tokens[k + 1] == rest[k];
      } else {
        // the occurrence would cover the separating space
        assert j[|t0|] == ' ';
        SpaceInside(j, w, i, |t0|);
        assert false;
      }
    }
  }

  predicate IsDigit(c: char)
  {
    '0' <= c <= '9'
  }

  predicate AllDigits(s: string)
  {
    forall i :: 0 <= i < |s| ==> IsDigit(s[i])
  }

  function DigitChar(d: nat): (c: char)
    requires d < 10
    ensures IsDigit(c)
  {
    ('0' as int + d) as char
  }

  function DigitValue(c: char): (d: nat)
    requires IsDigit(c)
  {
    c as int - '0' as int
  }

  /** `str(n)` for a non-negative integer: decimal digits, no leading zero. */
  function Decimal(n: nat): (s: string)
    ensures 1 <= |s| && AllDigits(s)
    ensures n < 10 <==> |s| == 1
    ensures n >= 100 ==> |s| >= 3
    decreases n
  {
    if n < 10 then [DigitChar(n)] else Decimal(n / 10) + [DigitChar(n % 10)]
  }

  /** Reads a string of digits as a number; leading zeros are allowed. */
  function ParseDecimal(s: string): (n: nat)
    requires AllDigits(s)
  {
    if s == [] then 0 else ParseDecimal(s[..|s| - 1]) * 10 + DigitValue(s[|s| - 1])
  }

  /** Decimal rendering round-trips through ParseDecimal. */
  lemma {:induction false} ParseDecimalOfDecimal(n: nat)
    ensures ParseDecimal(Decimal(n)) == n
    decreases n
  {
    var s := Decimal(n);
    if n < 10 {
      assert s[..0] == [];
    } else {
      assert s[..|s| - 1] == Decimal(n / 10);
      ParseDecimalOfDecimal(n / 10);
    }
  }

  /** Decimal rendering is injective. */
  lemma DecimalInjective(m: nat, n: nat)
    requires Decimal(m) == Decimal(n)
    ensures m == n
  {
    ParseDecimalOfDecimal(m);
    ParseDecimalOfDecimal(n);
  }

  function Zeros(k: nat): (s: string)
    ensures |s| == k && AllDigits(s)
  {
    if k == 0 then [] else Zeros(k - 1) + ['0']
  }

  /** `f"{n:0<width>d}"` on the rendered digits: left-pad with zeros up to `width`. */
  function ZeroPad(s: string, width: nat): (r: string)
    ensures |r| == if |s| >= width then |s| else width
  {
    if |s| >= width then s else Zeros(width - |s|) + s
  }

  /** Leading zeros do not change the value read. */
  lemma {:induction false} ParseDecimalLeadingZeros(k: nat, s: string)
    requires AllDigits(s)
    ensures AllDigits(Zeros(k) + s)
    ensures ParseDecimal(Zeros(k) + s) == ParseDecimal(s)
    decreases |s|, k
  {
    var z := Zeros(k) + s;
    if s == [] {
      assert z == Zeros(k);
      if k > 0 {
        assert z[..|z| - 1] == Zeros(k - 1) + [];
        ParseDecimalLeadingZeros(k - 1, []);
      }
    } else {
      assert z[..|z| - 1] == Zeros(k) + s[..|s| - 1];
      ParseDecimalLeadingZeros(k, s[..|s| - 1]);
    }
  }

  /** Zero padding of a rendered number still reads back as that number. */
  lemma ParseZeroPadDecimal(n: nat, width: nat)
    ensures AllDigits(ZeroPad(Decimal(n), width))
    ensures ParseDecimal(ZeroPad(Decimal(n), width)) == n
  {
    var s := Decimal(n);
    ParseDecimalOfDecimal(n);
    if |s| < width {
      ParseDecimalLeadingZeros(width - |s|, s);
    }
  }
}
