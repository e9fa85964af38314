/** String and sequence helpers, with the meaning JavaScript gives the operations the
  * sources use (`slice`, `||` on strings, `split`, `join`, `startsWith`, `includes`). */
module Text {

  datatype Option<+T> = None | Some(value: T)

  /** A nullable string is "truthy" in JavaScript exactly when it is present and not empty. */
  predicate Truthy(s: Option<string>)
  {
    s.Some? && s.value != ""
  }

  /** `s || fallback` for a nullable string. */
  function OrElse(s: Option<string>, fallback: string): (r: string)
    ensures Truthy(s) ==> r == s.value
    ensures !Truthy(s) ==> r == fallback
  {
    if Truthy(s) then s.value else fallback
  }

  /** `s.slice(0, n)` for a non-negative `n`: the first `n` characters, or all of `s`. */
  function Take(s: string, n: nat): (r: string)
    ensures |r| <= n && |r| <= |s|
    ensures r == s[..|r|]
    ensures |s| <= n ==> r == s
    ensures n <= |s| ==> |r| == n
  {
    if |s| <= n then s else s[..n]
  }

  /** `s?.slice(0, n)` on an optional string. */
  function TakeOpt(s: Option<string>, n: nat): (r: Option<string>)
    ensures r.Some? <==> s.Some?
    ensures r.Some? ==> |r.value| <= n && r.value == Take(s.value, n)
  {
    if s.Some? then Some(Take(s.value, n)) else None
  }

  /** `text ? text.slice(0, n) : undefined`. */
  function TakeIfTruthy(text: Option<string>, n: nat): (r: Option<string>)
    ensures r.Some? <==> Truthy(text)
    ensures r.Some? ==> |r.value| <= n && r.value == Take(text.value, n)
  {
    if Truthy(text) then Some(Take(text.value, n)) else None
  }

  /** `xs.slice(0, n)` on an array. */
  function FirstN<T>(xs: seq<T>, n: nat): (r: seq<T>)
    ensures |r| <= n && |r| <= |xs|
    ensures r == xs[..|r|]
    ensures |xs| <= n ==> r == xs
    ensures n <= |xs| ==> |r| == n
  {
    if |xs| <= n then xs else xs[..n]
  }

  /** `s.slice(0, end)` for any integer `end`: a negative end counts back from the end of `s`. */
  function SliceTo(s: string, end: int): (r: string)
    ensures end >= 0 ==> r == Take(s, end)
    ensures end < 0 ==> |r| == if |s| + end >= 0 then |s| + end else 0
    ensures r == s[..|r|]
  {
    if end >= 0 then Take(s, end)
    else if |s| + end >= 0 then s[..|s| + end]
    else ""
  }

  predicate StartsWith(s: string, prefix: string)
  {
    |prefix| <= |s| && s[..|prefix|] == prefix
  }

  lemma StartsWithAppend(prefix: string, rest: string)
    ensures StartsWith(prefix + rest, prefix)
  {
    assert (prefix + rest)[..|prefix|] == prefix;
  }

  /** A string cannot start with two prefixes that begin differently. */
  lemma StartsDifferently(s: string, a: string, b: string)
    requires StartsWith(s, a) && |a| > 0 && |b| > 0 && a[0] != b[0]
    ensures !StartsWith(s, b)
  {
    assert s[0] == s[..|a|][0];
    if |b| <= |s| {
      assert s[..|b|][0] == s[0];
    }
  }

  predicate EndsWith(s: string, suffix: string)
  {
    |suffix| <= |s| && s[|s| - |suffix|..] == suffix
  }

  /** `s.includes(sub)`. */
  predicate Contains(s: string, sub: string)
    decreases |s|
  {
    StartsWith(s, sub) || (|s| > 0 && Contains(s[1..], sub))
  }

  predicate IsDigit(c: char)
  {
    '0' <= c <= '9'
  }

  predicate AllDigits(s: string)
  {
    forall i :: 0 <= i < |s| ==> IsDigit(s[i])
  }

  /** ASCII `toLowerCase`. */
  function LowerChar(c: char): char
  {
    if 'A' <= c <= 'Z' then (c as int + 32) as char else c
  }

  function ToLower(s: string): (r: string)
    ensures |r| == |s|
  {
    seq(|s|, i requires 0 <= i < |s| => LowerChar(s[i]))
  }

  function DigitChar(d: nat): (c: char)
    requires d < 10
    ensures IsDigit(c)
  {
    ('0' as int + d) as char
  }

  /** Decimal rendering of a natural number, as `String(n)` gives it. */
  function NatToString(n: nat): (r: string)
    ensures 1 <= |r|
    ensures AllDigits(r)
    decreases n
  {
    if n < 10 then [DigitChar(n)] else NatToString(n / 10) + [DigitChar(n % 10)]
  }

  /** `String(n)` for an integer. */
  function IntToString(n: int): string
  {
    if n < 0 then "-" + NatToString(-n) else NatToString(n)
  }

  function Pow10(k: nat): (p: nat)
    ensures p >= 1
  {
    if k == 0 then 1 else 10 * Pow10(k - 1)
  }

  /** Different numbers have different decimal renderings. */
  lemma {:induction false} NatToStringInjective(a: nat, b: nat)
    requires NatToString(a) == NatToString(b)
    ensures a == b
    decreases a
  {
    var sa, sb := NatToString(a), NatToString(b);
    if a < 10 && b < 10 {
      assert sa[0] == DigitChar(a) && sb[0] == DigitChar(b);
    } else if a < 10 || b < 10 {
      // one rendering has a single digit and the other at least two
    } else {
      var pa, pb := NatToString(a / 10), NatToString(b / 10);
      assert sa == pa + [DigitChar(a % 10)];
      assert sb == pb + [DigitChar(b % 10)];
      assert |pa| == |pb|;
      assert sa[..|pa|] == pa && sb[..|pb|] == pb;
      NatToStringInjective(a / 10, b / 10);
      assert sa[|pa|] == DigitChar(a % 10) && sb[|pb|] == DigitChar(b % 10);
    }
  }

  /** A number below 10^k has at most k digits. */
  lemma {:induction false} NatToStringLength(n: nat, k: nat)
    requires 1 <= k && n < Pow10(k)
    ensures |NatToString(n)| <= k
    decreases k
  {
    if n >= 10 {
      NatToStringLength(n / 10, k - 1);
    }
  }

  /** A number of at least 10^k has more than k digits. */
  lemma {:induction false} NatToStringLengthAtLeast(n: nat, k: nat)
    requires Pow10(k) <= n
    ensures |NatToString(n)| >= k + 1
    decreases k
  {
    if k > 0 {
      assert n / 10 >= Pow10(k - 1);
      NatToStringLengthAtLeast(n / 10, k - 1);
    }
  }

  /** `s.split(sep)` for a one-character separator. */
  function Split(s: string, sep: char): (r: seq<string>)
    ensures |r| >= 1
    decreases |s|
  {
    if |s| == 0 then [""]
    else if s[0] == sep then [""] + Split(s[1..], sep)
    else
      var rest := Split(s[1..], sep);
      [[s[0]] + rest[0]] + rest[1..]
  }

  /** `parts.join(sep)`; an empty list joins to the empty string. */
  function Join(parts: seq<string>, sep: char): string
    decreases |parts|
  {
    if |parts| == 0 then ""
    else if |parts| == 1 then parts[0]
    else parts[0] + [sep] + Join(parts[1..], sep)
  }

  /** Joining the pieces of a split gives back the original string. */
  lemma {:induction false} JoinSplit(s: string, sep: char)
    ensures Join(Split(s, sep), sep) == s
    decreases |s|
  {
    if |s| == 0 {
    } else if s[0] == sep {
      JoinSplit(s[1..], sep);
      var rest := Split(s[1..], sep);
      assert Split(s, sep) == [""] + rest;
      assert ([""] + rest)[1..] == rest;
    } else {
      JoinSplit(s[1..], sep);
      var rest := Split(s[1..], sep);
      var r := [[s[0]] + rest[0]] + rest[1..];
      assert Split(s, sep) == r;
      if |rest| == 1 {
        assert Join(r, sep) == [s[0]] + rest[0];
      } else {
        assert r[1..] == rest[1..];
        assert Join(rest, sep) == rest[0] + [sep] + Join(rest[1..], sep);
        assert Join(r, sep) == ([s[0]] + rest[0]) + [sep] + Join(rest[1..], sep);
      }
      assert s == [s[0]] + s[1..];
    }
  }

  /** Splitting `a + sep + b` splits `a` and `b` separately. */
  lemma {:induction false} SplitAppend(a: string, sep: char, b: string)
    ensures Split(a + [sep] + b, sep) == Split(a, sep) + Split(b, sep)
    decreases |a|
  {
    var s := a + [sep] + b;
    if |a| == 0 {
      assert s == [sep] + b;
      assert s[1..] == b;
    } else {
      SplitAppend(a[1..], sep, b);
      assert a == [a[0]] + a[1..];
      assert s == [a[0]] + (a[1..] + [sep] + b);
      SplitAppendStep(a[0], a[1..], sep, b);
    }
  }

  /** The inductive step of `SplitAppend`: one more character `c` in front of `a`. */
  lemma SplitAppendStep(c: char, a: string, sep: char, b: string)
    requires Split(a + [sep] + b, sep) == Split(a, sep) + Split(b, sep)
    ensures Split([c] + (a + [sep] + b), sep) == Split([c] + a, sep) + Split(b, sep)
  {
    var t := a + [sep] + b;
    var ra, rb := Split(a, sep), Split(b, sep);
    assert ([c] + t)[1..] == t && ([c] + a)[1..] == a;
    if c == sep {
      AppendAssoc([""], ra, rb);
    } else {
      var x := ra + rb;
      assert x[0] == ra[0] && x[1..] == ra[1..] + rb;
      AppendAssoc([[c] + ra[0]], ra[1..], rb);
    }
  }

  /** `parts.indexOf(x)`: the first position holding `x`, if any. */
  function IndexOf(parts: seq<string>, x: string): (r: Option<nat>)
    ensures r.Some? ==> r.value < |parts| && parts[r.value] == x && x !in parts[..r.value]
    ensures r.None? ==> x !in parts
  {
    if |parts| == 0 then None
    else if parts[0] == x then Some(0)
    else
      var r := IndexOf(parts[1..], x);
      if r.Some? then
        assert parts[1..][..r.value] == parts[1..r.value + 1];
        Some(r.value + 1)
      else None
  }

  predicate Distinct<T(==)>(s: seq<T>)
  {
    forall i, j :: 0 <= i < j < |s| ==> s[i] != s[j]
  }

  /** A non-empty sequence is its front followed by its last element. */
  lemma SplitLast<T>(s: seq<T>)
    requires |s| > 0
    ensures s == s[..|s| - 1] + [s[|s| - 1]]
  {
  }

  /** A prefix of a slice is a slice. */
  lemma SliceOfSlice<T>(s: seq<T>, i: nat, j: nat, k: nat)
    requires i <= j <= |s| && k <= j - i
    ensures s[i..j][..k] == s[i..i + k]
  {
  }

  /** A prefix of a prefix is a prefix. */
  lemma PrefixOfPrefix<T>(s: seq<T>, n: nat, k: nat)
    requires k <= n <= |s|
    ensures s[..n][..k] == s[..k]
  {
  }

  /** A slice that ends after `s[j - 1]` is the shorter slice followed by that element. */
  lemma SliceSnoc<T>(s: seq<T>, i: nat, j: nat)
    requires i < j <= |s|
    ensures s[i..j] == s[i..j - 1] + [s[j - 1]]
    ensures s[..j] == s[..j - 1] + [s[j - 1]]
  {
  }

  /** Without its last element a sequence of distinct elements stays distinct, and that
    * element occurs nowhere before. */
  lemma DistinctFront<T>(s: seq<T>)
    requires |s| > 0 && Distinct(s)
    ensures Distinct(s[..|s| - 1])
    ensures forall k :: 0 <= k < |s| - 1 ==> s[k] != s[|s| - 1]
  {
  }

  /** A prefix followed by the next slice is the longer prefix. */
  lemma SliceJoin<T>(s: seq<T>, i: nat, j: nat)
    requires i <= j <= |s|
    ensures s[..i] + s[i..j] == s[..j]
  {
  }

  lemma DropAcrossJoin<T>(a: seq<T>, b: seq<T>, n: nat)
    requires n <= |a|
    ensures (a + b)[n..] == a[n..] + b
  {
  }

  lemma AppendAssoc<T>(a: seq<T>, b: seq<T>, c: seq<T>)
    ensures (a + b) + c == a + (b + c)
  {
  }

  lemma DistinctPrefix<T>(s: seq<T>, n: nat)
    requires n <= |s| && Distinct(s)
    ensures Distinct(s[..n])
  {
  }
}
