/**
 * String operations the pages apply to user input: the digit filter
 * `value.replace(/[^0-9]/g, '')`, `parseFloat` on the digit strings it leaves,
 * `String.prototype.trim`, `toLowerCase` and `includes`.
 */
module Text {

  /** A member of the class `[0-9]`. */
  predicate IsDigit(c: char) {
    '0' <= c <= '9'
  }

  predicate IsDigits(s: string) {
    forall i :: 0 <= i < |s| ==> IsDigit(s[i])
  }

  /** `s.replace(/[^0-9]/g, '')`: the digits of `s`, in their order. */
  function KeepDigits(s: string): (r: string)
    ensures IsDigits(r)
    ensures |r| <= |s|
  {
    if s == [] then []
    else if IsDigit(s[0]) then [s[0]] + KeepDigits(s[1..])
    else KeepDigits(s[1..])
  }

  /** The filter leaves a digit string as it is. */
  lemma {:induction false} KeepDigitsOfDigits(s: string)
    requires IsDigits(s)
    ensures KeepDigits(s) == s
  {
    if s != [] {
      KeepDigitsOfDigits(s[1..]);
    }
  }

  /** A string passes the filter unchanged exactly when it is a digit string. */
  lemma KeepDigitsFixpoint(s: string)
    ensures KeepDigits(s) == s <==> IsDigits(s)
  {
    if IsDigits(s) {
      KeepDigitsOfDigits(s);
    }
  }

  /** The filter keeps every character exactly when all of them are digits. */
  lemma {:induction false} KeepDigitsKeepsLengthIff(s: string)
    ensures |KeepDigits(s)| == |s| <==> IsDigits(s)
  {
    if s != [] {
      KeepDigitsKeepsLengthIff(s[1..]);
      if IsDigit(s[0]) && IsDigits(s[1..]) {
        assert IsDigits(s) by {
          forall i | 0 <= i < |s| ensures IsDigit(s[i]) {
            if i > 0 { assert s[i] == s[1..][i - 1]; }
          }
        }
      }
      if IsDigits(s) {
        assert IsDigits(s[1..]) by {
          forall i | 0 <= i < |s| - 1 ensures IsDigit(s[1..][i]) {
            assert s[1..][i] == s[i + 1];
          }
        }
      }
    }
  }

  /** Filtering twice is filtering once. */
  lemma KeepDigitsIdempotent(s: string)
    ensures KeepDigits(KeepDigits(s)) == KeepDigits(s)
  {
    KeepDigitsOfDigits(KeepDigits(s));
  }

  /** The filter works character by character: it distributes over concatenation. */
  lemma {:induction false} KeepDigitsAppend(a: string, b: string)
    ensures KeepDigits(a + b) == KeepDigits(a) + KeepDigits(b)
  {
    if a == [] {
      assert a + b == b;
    } else {
      assert (a + b)[1..] == a[1..] + b;
      KeepDigitsAppend(a[1..], b);
    }
  }

  function DigitValue(c: char): (d: nat)
    requires IsDigit(c)
    ensures d < 10
  {
    (c as int) - ('0' as int)
  }

  /**
   * The number a digit string denotes in base 10. `parseFloat` is applied
   * only to strings the digit filter produced, and this is its value on
   * them; `parseFloat('')` is NaN, which no comparison `> 0` accepts, and
   * the empty string has value 0 here, which `> 0` rejects as well.
   */
  function DecimalValue(s: string): nat
    requires IsDigits(s)
  {
    if s == [] then 0 else 10 * DecimalValue(s[..|s| - 1]) + DigitValue(s[|s| - 1])
  }

  /** `parseFloat(amount) > 0` for a digit string `amount`. */
  predicate IsPositiveAmount(amount: string)
    requires IsDigits(amount)
  {
    DecimalValue(amount) > 0
  }

  /** A digit string denotes a positive number exactly when one of its digits is not '0'. */
  lemma {:induction false} PositiveIffNonzeroDigit(s: string)
    requires IsDigits(s)
    ensures IsPositiveAmount(s) <==> exists i :: 0 <= i < |s| && s[i] != '0'
  {
    if s != [] {
      var init := s[..|s| - 1];
      assert IsDigits(init);
      PositiveIffNonzeroDigit(init);
      if exists i :: 0 <= i < |init| && init[i] != '0' {
        var i :| 0 <= i < |init| && init[i] != '0';
        assert s[i] != '0';
      }
      if s[|s| - 1] == '0' {
        forall i | 0 <= i < |s| && s[i] != '0'
          ensures exists j :: 0 <= j < |init| && init[j] != '0'
        {
          assert init[i] == s[i];
        }
      }
    }
  }

  /**
   * The characters `trim` removes: the WhiteSpace and LineTerminator
   * code points of the ECMAScript grammar.
   */
  const WhiteSpaceChars: set<char> := {
    '\t', '\U{000B}', '\U{000C}', ' ', '\U{00A0}', '\U{FEFF}', '\U{1680}',
    '\U{2000}', '\U{2001}', '\U{2002}', '\U{2003}', '\U{2004}', '\U{2005}',
    '\U{2006}', '\U{2007}', '\U{2008}', '\U{2009}', '\U{200A}',
    '\U{202F}', '\U{205F}', '\U{3000}',
    '\n', '\r', '\U{2028}', '\U{2029}'
  }

  predicate IsWhiteSpace(c: char) {
    c in WhiteSpaceChars
  }

  /** `s` with its leading white space removed. */
  function TrimStart(s: string): (r: string)
    ensures |r| <= |s| && r == s[|s| - |r|..]
    ensures forall i :: 0 <= i < |s| - |r| ==> IsWhiteSpace(s[i])
    ensures r == [] || !IsWhiteSpace(r[0])
  {
    if s != [] && IsWhiteSpace(s[0]) then TrimStart(s[1..]) else s
  }

  /** `s` with its trailing white space removed. */
  function TrimEnd(s: string): (r: string)
    ensures |r| <= |s| && r == s[..|r|]
    ensures forall i :: |r| <= i < |s| ==> IsWhiteSpace(s[i])
    ensures r == [] || !IsWhiteSpace(r[|r| - 1])
  {
    if s != [] && IsWhiteSpace(s[|s| - 1]) then TrimEnd(s[..|s| - 1]) else s
  }

  predicate AllWhiteSpace(w: string) {
    forall i :: 0 <= i < |w| ==> IsWhiteSpace(w[i])
  }

  /** `s.trim()`: what is left of `s` after dropping the white space at both ends. */
  function Trim(s: string): (r: string)
    ensures r == [] || (!IsWhiteSpace(r[0]) && !IsWhiteSpace(r[|r| - 1]))
  {
    TrimEnd(TrimStart(s))
  }

  /** The trim of `s` is a slice of `s`, and only white space lies outside it. */
  lemma TrimIsSlice(s: string)
    ensures exists lo, hi :: 0 <= lo <= hi <= |s| && Trim(s) == s[lo..hi] && AllWhiteSpace(s[..lo]) && AllWhiteSpace(s[hi..])
  {
    var t := TrimStart(s);
    var r := TrimEnd(t);
    var lo := |s| - |t|;
    var hi := lo + |r|;
    assert t == s[lo..];
    assert r == t[..|r|];
    assert r == s[lo..hi];
    assert AllWhiteSpace(s[..lo]) by {
      forall i | 0 <= i < lo
        ensures IsWhiteSpace(s[..lo][i])
      {
        assert s[..lo][i] == s[i];
      }
    }
    assert AllWhiteSpace(s[hi..]) by {
      forall i | 0 <= i < |s| - hi
        ensures IsWhiteSpace(s[hi..][i])
      {
        assert s[hi..][i] == t[|r| + i];
      }
    }
  }

  /** A string that neither starts nor ends with white space is its own trim. */
  lemma TrimOfTrimmed(s: string)
    requires s == [] || (!IsWhiteSpace(s[0]) && !IsWhiteSpace(s[|s| - 1]))
    ensures Trim(s) == s
  {
  }

  /** Trimming twice is trimming once. */
  lemma TrimIdempotent(s: string)
    ensures Trim(Trim(s)) == Trim(s)
  {
    TrimOfTrimmed(Trim(s));
  }

  /** A prefix made of white space only does not survive `TrimStart`. */
  lemma {:induction false} TrimStartWhiteSpacePrefix(w: string, s: string)
    requires AllWhiteSpace(w)
    ensures TrimStart(w + s) == TrimStart(s)
  {
    if w == [] {
      assert w + s == s;
    } else {
      assert (w + s)[1..] == w[1..] + s;
      TrimStartWhiteSpacePrefix(w[1..], s);
    }
  }

  /** A string of white space only trims to nothing. */
  lemma {:induction false} TrimAllWhiteSpace(w: string)
    requires AllWhiteSpace(w)
    ensures TrimStart(w) == [] && Trim(w) == []
  {
    if w != [] {
      assert AllWhiteSpace(w[1..]) by {
        assert forall i :: 0 <= i < |w| - 1 ==> w[1..][i] == w[i + 1];
      }
      TrimAllWhiteSpace(w[1..]);
    }
  }

  /** Once `TrimStart` stops inside `s`, whatever follows `s` is kept whole. */
  lemma {:induction false} TrimStartAppend(s: string, w: string)
    requires TrimStart(s) != []
    ensures TrimStart(s + w) == TrimStart(s) + w
  {
    if IsWhiteSpace(s[0]) {
      assert (s + w)[1..] == s[1..] + w;
      TrimStartAppend(s[1..], w);
    }
  }

  /** A suffix made of white space only does not survive `TrimEnd`. */
  lemma {:induction false} TrimEndWhiteSpaceSuffix(s: string, w: string)
    requires AllWhiteSpace(w)
    ensures TrimEnd(s + w) == TrimEnd(s)
  {
    if w == [] {
      assert s + w == s;
    } else {
      var w' := w[..|w| - 1];
      assert (s + w)[..|s + w| - 1] == s + w';
      TrimEndWhiteSpaceSuffix(s, w');
    }
  }

  /** White space around a string does not change its trim. */
  lemma TrimIgnoresSurroundingWhiteSpace(w1: string, s: string, w2: string)
    requires AllWhiteSpace(w1) && AllWhiteSpace(w2)
    ensures Trim(w1 + s + w2) == Trim(s)
  {
    assert w1 + s + w2 == w1 + (s + w2);
    TrimStartWhiteSpacePrefix(w1, s + w2);
    var t := TrimStart(s);
    if t == [] {
      assert AllWhiteSpace(s);
      TrimStartWhiteSpacePrefix(s, w2);
      TrimAllWhiteSpace(w2);
    } else {
      TrimStartAppend(s, w2);
      TrimEndWhiteSpaceSuffix(t, w2);
    }
  }

  /** `toLowerCase` on one character of the ASCII range. */
  function LowerChar(c: char): char {
    if 'A' <= c <= 'Z' then ((c as int) + 32) as char else c
  }

  predicate IsUpperAscii(c: char) {
    'A' <= c <= 'Z'
  }

  /** `s.toLowerCase()` as it acts on ASCII letters; every other character is kept. */
  function ToLower(s: string): (r: string)
    ensures |r| == |s|
    ensures forall i :: 0 <= i < |s| ==> r[i] == LowerChar(s[i])
  {
    if s == [] then [] else [LowerChar(s[0])] + ToLower(s[1..])
  }

  /** Lower-casing leaves no upper-case ASCII letter and is idempotent. */
  lemma ToLowerIdempotent(s: string)
    ensures forall i :: 0 <= i < |s| ==> !IsUpperAscii(ToLower(s)[i])
    ensures ToLower(ToLower(s)) == ToLower(s)
  {
  }

  /** No white-space character is an upper-case ASCII letter. */
  lemma WhiteSpaceIsNotUpper(w: string)
    requires AllWhiteSpace(w)
    ensures forall i :: 0 <= i < |w| ==> !IsUpperAscii(w[i])
  {
  }

  predicate StartsWith(s: string, prefix: string) {
    |prefix| <= |s| && s[..|prefix|] == prefix
  }

  /** `s.includes(sub)`, scanning `s` from the left. */
  predicate Contains(s: string, sub: string)
    decreases |s|
  {
    StartsWith(s, sub) || (s != [] && Contains(s[1..], sub))
  }

  /** `includes` finds `sub` exactly when `sub` occurs at some position of `s`. */
  lemma {:induction false} ContainsIffOccurs(s: string, sub: string)
    ensures Contains(s, sub) <==> exists k :: 0 <= k <= |s| && StartsWith(s[k..], sub)
  {
    if s == [] {
      if exists k :: 0 <= k <= |s| && StartsWith(s[k..], sub) {
        var k :| 0 <= k <= |s| && StartsWith(s[k..], sub);
        assert s[k..] == s;
      }
    } else {
      ContainsIffOccurs(s[1..], sub);
      if Contains(s, sub) {
        if StartsWith(s, sub) {
          assert s[0..] == s;
        } else {
          var k :| 0 <= k <= |s[1..]| && StartsWith(s[1..][k..], sub);
          assert s[1..][k..] == s[k + 1..];
        }
      }
      if exists k :: 0 <= k <= |s| && StartsWith(s[k..], sub) {
        var k :| 0 <= k <= |s| && StartsWith(s[k..], sub);
        if k == 0 {
          assert s[0..] == s;
        } else {
          assert s[1..][k - 1..] == s[k..];
        }
      }
    }
  }

  /** An occurrence inside `s` is an occurrence inside any extension of `s`. */
  lemma ContainsExtend(pre: string, s: string, post: string, sub: string)
    requires Contains(s, sub)
    ensures Contains(pre + s + post, sub)
  {
    ContainsIffOccurs(s, sub);
    var k :| 0 <= k <= |s| && StartsWith(s[k..], sub);
    var t := pre + s + post;
    assert t[|pre| + k..][..|sub|] == s[k..][..|sub|];
    ContainsIffOccurs(t, sub);
  }
}
