/** String operations of the JavaScript runtime that the core relies on, over `seq<char>`. */
module Strings {

  /** The characters of JavaScript's `\s` class; `String.prototype.trim` strips exactly these. */
  predicate IsWhitespace(c: char)
  {
    || c == ' ' || c == '\t' || c == '\n' || c == '\U{B}' || c == '\U{C}' || c == '\r'
    || c == '\U{A0}' || c == '\U{1680}' || ('\U{2000}' <= c <= '\U{200A}')
    || c == '\U{2028}' || c == '\U{2029}' || c == '\U{202F}' || c == '\U{205F}'
    || c == '\U{3000}' || c == '\U{FEFF}'
  }

  predicate NoWhitespace(s: string)
  {
    forall k :: 0 <= k < |s| ==> !IsWhitespace(s[k])
  }

  /** `s.startsWith(p)` */
  predicate StartsWith(s: string, p: string)
  {
    |p| <= |s| && s[..|p|] == p
  }

  /** `s.endsWith(suffix)` */
  predicate EndsWith(s: string, suffix: string)
  {
    |suffix| <= |s| && s[|s| - |suffix|..] == suffix
  }

  lemma EndsWithConcat(p: string, suffix: string)
    ensures EndsWith(p + suffix, suffix)
  {
    assert (p + suffix)[|p|..] == suffix;
  }

  /** Whatever ends with `suffix` is some string followed by `suffix`. */
  lemma EndsWithSplits(s: string, suffix: string)
    requires EndsWith(s, suffix)
    ensures s == s[..|s| - |suffix|] + suffix
  {
  }

  /** `s.substring(0, n)`: the first `n` characters, or all of `s` when it is shorter. */
  function Prefix(s: string, n: nat): (p: string)
    ensures |p| == if |s| < n then |s| else n
    ensures p == s[..|p|]
  {
    if |s| <= n then s else s[..n]
  }

  /** Leading whitespace removed. */
  function TrimStart(s: string): (r: string)
    ensures |r| <= |s| && r == s[|s| - |r|..]
    ensures r == [] || !IsWhitespace(r[0])
  {
    if |s| > 0 && IsWhitespace(s[0]) then TrimStart(s[1..]) else s
  }

  /** Trailing whitespace removed. */
  function TrimEnd(s: string): (r: string)
    ensures |r| <= |s| && r == s[..|r|]
    ensures r == [] || !IsWhitespace(r[|r| - 1])
  {
    if |s| > 0 && IsWhitespace(s[|s| - 1]) then TrimEnd(s[..|s| - 1]) else s
  }

  /** `s.trim()`, the setter of a schema path declared `trim: true`. */
  function Trim(s: string): string
  {
    TrimEnd(TrimStart(s))
  }

  /**
   * A trimmed string neither starts nor ends with whitespace, is a slice of its input,
   * and everything cut away on either side is whitespace.
   */
  lemma TrimShape(s: string)
    ensures var t := Trim(s);
      && (t == [] || (!IsWhitespace(t[0]) && !IsWhitespace(t[|t| - 1])))
      && var a := |s| - |TrimStart(s)|;
      && t == s[a..a + |t|]
      && (forall k :: 0 <= k < a ==> IsWhitespace(s[k]))
      && (forall k :: a + |t| <= k < |s| ==> IsWhitespace(s[k]))
  {
    TrimEnds(s);
    TrimSlice(s);
    TrimDropsWhitespace(s);
  }

  /** What `trim` cuts away on either side is whitespace. */
  lemma TrimDropsWhitespace(s: string)
    ensures var a := |s| - |TrimStart(s)|;
      && (forall k :: 0 <= k < a ==> IsWhitespace(s[k]))
      && (forall k :: a + |Trim(s)| <= k < |s| ==> IsWhitespace(s[k]))
  {
    TrimStartDropsWhitespace(s);
    var u := TrimStart(s);
    TrimEndDropsWhitespace(u);
    var a := |s| - |u|;
    var t := TrimEnd(u);
    assert Trim(s) == t;
    forall k | a + |t| <= k < |s|
      ensures IsWhitespace(s[k])
    {
      assert s[k] == u[k - a];
    }
  }

  /** Only whitespace is cut from the front. */
  lemma {:induction false} TrimStartDropsWhitespace(s: string)
    ensures forall k :: 0 <= k < |s| - |TrimStart(s)| ==> IsWhitespace(s[k])
  {
    if |s| > 0 && IsWhitespace(s[0]) {
      TrimStartDropsWhitespace(s[1..]);
      forall k | 0 <= k < |s| - |TrimStart(s)|
        ensures IsWhitespace(s[k])
      {
        if k > 0 {
          assert s[k] == s[1..][k - 1];
        }
      }
    }
  }

  /** Only whitespace is cut from the back. */
  lemma {:induction false} TrimEndDropsWhitespace(s: string)
    ensures forall k :: |TrimEnd(s)| <= k < |s| ==> IsWhitespace(s[k])
  {
    if |s| > 0 && IsWhitespace(s[|s| - 1]) {
      var p := s[..|s| - 1];
      TrimEndDropsWhitespace(p);
      forall k | |TrimEnd(s)| <= k < |s|
        ensures IsWhitespace(s[k])
      {
        if k < |s| - 1 {
          assert s[k] == p[k];
        }
      }
    }
  }

  lemma TrimEnds(s: string)
    ensures var t := Trim(s); t == [] || (!IsWhitespace(t[0]) && !IsWhitespace(t[|t| - 1]))
  {
    var u := TrimStart(s);
    var t := TrimEnd(u);
    assert t == [] || t[0] == u[0];
  }

  lemma TrimSlice(s: string)
    ensures var a := |s| - |TrimStart(s)|; Trim(s) == s[a..a + |Trim(s)|]
  {
    var u := TrimStart(s);
    var t := TrimEnd(u);
    SliceOfSuffix(s, u, t);
  }

  /** A prefix of a suffix is a slice. */
  lemma SliceOfSuffix(s: string, u: string, t: string)
    requires |u| <= |s| && u == s[|s| - |u|..]
    requires |t| <= |u| && t == u[..|t|]
    ensures t == s[|s| - |u|..|s| - |u| + |t|]
  {
  }

  /** Trimming twice is trimming once. */
  lemma {:induction false} TrimIdempotent(s: string)
    ensures Trim(Trim(s)) == Trim(s)
  {
    var t := Trim(s);
    TrimShape(s);
    assert TrimStart(t) == t;
    assert TrimEnd(t) == t;
  }

  /** Neither end is whitespace: what `trim` leaves. */
  predicate IsTrimmed(s: string)
  {
    s == [] || (!IsWhitespace(s[0]) && !IsWhitespace(s[|s| - 1]))
  }

  /** The strings `trim` leaves alone are exactly the trimmed ones. */
  lemma TrimmedIff(s: string)
    ensures Trim(s) == s <==> IsTrimmed(s)
  {
    if IsTrimmed(s) {
      assert TrimStart(s) == s;
      assert TrimEnd(s) == s;
    } else {
      TrimShape(s);
    }
  }

  /** Lower-casing of one character (ASCII letters only). */
  function LowerChar(c: char): char
  {
    if 'A' <= c <= 'Z' then (c as int + 32) as char else c
  }

  /** `s.toLowerCase()`, restricted to ASCII letters; the setter of a path declared `lowercase: true`. */
  function ToLower(s: string): (r: string)
    ensures |r| == |s|
    ensures forall k :: 0 <= k < |s| ==> r[k] == LowerChar(s[k])
  {
    seq(|s|, k requires 0 <= k < |s| => LowerChar(s[k]))
  }

  /** No ASCII capital letter. */
  predicate IsLower(s: string)
  {
    forall k :: 0 <= k < |s| ==> !('A' <= s[k] <= 'Z')
  }

  /** The strings lower-casing leaves alone are exactly those without capitals. */
  lemma LowerIff(s: string)
    ensures ToLower(s) == s <==> IsLower(s)
  {
    if ToLower(s) == s {
      forall k | 0 <= k < |s| ensures !('A' <= s[k] <= 'Z') {
        assert ToLower(s)[k] == LowerChar(s[k]);
      }
    }
  }

  lemma ToLowerIsLower(s: string)
    ensures IsLower(ToLower(s))
  {
  }

  lemma SliceOfLower(s: string, a: nat, b: nat)
    requires IsLower(s) && a <= b <= |s|
    ensures IsLower(s[a..b])
  {
    forall k | 0 <= k < b - a ensures !('A' <= s[a..b][k] <= 'Z') {
      assert s[a..b][k] == s[a + k];
    }
  }

  lemma ToLowerIdempotent(s: string)
    ensures ToLower(ToLower(s)) == ToLower(s)
  {
  }
}
