/** Button titles: WhatsApp limits a reply button's title to 20 characters and wants the
  * titles of one message to differ. Long texts are cut to 18 characters and "..", and a
  * title already taken is replaced by the first free numbered variant "<text> (k)..".
  * Also the grouping of choice items into messages of at most `n` buttons. */
module ButtonTitles {
  import opened Text

  /** The title a text gets when it is not taken: texts over 20 characters are cut. */
  function BaseTitle(text: string): (r: string)
    ensures |r| <= 20
    ensures |text| <= 20 ==> r == text
  {
    if |text| > 20 then text[..18] + ".." else text
  }

  /** The `k`-th numbered variant: `text.slice(0, 15 - digits)`, a space, `(k)` and "..".
    * With more than 15 digits the slice end is negative and counts back from the end. */
  function CollisionTitle(text: string, k: nat): (r: string)
  {
    var digits := NatToString(k);
    SliceTo(text, 15 - |digits|) + " (" + digits + ").."
  }

  /** A numbered variant with at most 15 digits fits in 20 characters. */
  lemma CollisionTitleFits(text: string, k: nat)
    requires k < Pow10(15)
    ensures |CollisionTitle(text, k)| <= 20
  {
    NatToStringLength(k, 15);
  }

  lemma OpenParenBeforeDigits(p: string, s: string)
    ensures var t := p + " (" + s + ")..";
            t[|t| - 4 - |s|] == '('
  {
  }

  lemma DigitsBeforeCloseParen(p: string, s: string, d: nat)
    requires d < |s| && AllDigits(s)
    ensures var t := p + " (" + s + ")..";
            |t| - 4 - d >= 0 && IsDigit(t[|t| - 4 - d])
  {
    var t := p + " (" + s + ")..";
    assert t[|t| - 4 - d] == s[|s| - 1 - d];
  }

  /** Different counters give different variants of the same text, so the numbered search
    * cannot cycle. */
  lemma CollisionTitleInjective(text: string, k1: nat, k2: nat)
    requires CollisionTitle(text, k1) == CollisionTitle(text, k2)
    ensures k1 == k2
  {
    var t := CollisionTitle(text, k1);
    var s1, s2 := NatToString(k1), NatToString(k2);
    var p1, p2 := SliceTo(text, 15 - |s1|), SliceTo(text, 15 - |s2|);
    var L := |t|;
    assert t == p1 + " (" + s1 + ")..";
    assert t == p2 + " (" + s2 + ")..";
    if |s1| == |s2| {
      assert t[L - 3 - |s1|..L - 3] == s1;
      assert t[L - 3 - |s2|..L - 3] == s2;
      NatToStringInjective(k1, k2);
    } else if |s1| < |s2| {
      DigitsBeforeCloseParen(p2, s2, |s1|);
      OpenParenBeforeDigits(p1, s1);
      assert false;
    } else {
      DigitsBeforeCloseParen(p1, s1, |s2|);
      OpenParenBeforeDigits(p2, s2);
      assert false;
    }
  }

  /** The variants numbered 1 to `n`. */
  function CollisionTitles(text: string, n: nat): (r: set<string>)
    ensures forall k :: 1 <= k <= n ==> CollisionTitle(text, k) in r
  {
    if n == 0 then {} else CollisionTitles(text, n - 1) + {CollisionTitle(text, n)}
  }

  /** Every member of `CollisionTitles(text, n)` is one of the `n` variants. */
  lemma {:induction false} CollisionTitlesMembers(text: string, n: nat, t: string)
    requires t in CollisionTitles(text, n)
    ensures exists k :: 1 <= k <= n && t == CollisionTitle(text, k)
  {
    if n > 0 && t != CollisionTitle(text, n) {
      CollisionTitlesMembers(text, n - 1, t);
    }
  }

  /** The `n` variants are all different. */
  lemma {:induction false} CollisionTitlesSize(text: string, n: nat)
    ensures |CollisionTitles(text, n)| == n
  {
    if n > 0 {
      CollisionTitlesSize(text, n - 1);
      if CollisionTitle(text, n) in CollisionTitles(text, n - 1) {
        CollisionTitlesMembers(text, n - 1, CollisionTitle(text, n));
        var k :| 1 <= k <= n - 1 && CollisionTitle(text, k) == CollisionTitle(text, n);
        CollisionTitleInjective(text, k, n);
        assert false;
      }
    }
  }

  function ToSet(s: seq<string>): (r: set<string>)
    ensures forall x :: x in r <==> x in s
  {
    set x | x in s
  }

  lemma {:induction false} ToSetSize(s: seq<string>)
    ensures |ToSet(s)| <= |s|
    decreases |s|
  {
    if |s| > 0 {
      var last := s[|s| - 1];
      ToSetSize(s[..|s| - 1]);
      assert ToSet(s) == ToSet(s[..|s| - 1]) + {last};
    }
  }

  /** The counter the do-while stops at when it starts at `counter` and every earlier
    * variant is taken: the first variant not in `taken`. */
  function NextFree(text: string, taken: set<string>, counter: nat): (r: nat)
    requires 1 <= counter
    requires CollisionTitles(text, counter - 1) <= taken
    ensures counter <= r <= |taken| + 1
    ensures CollisionTitle(text, r) !in taken
    ensures forall k :: counter <= k < r ==> CollisionTitle(text, k) in taken
    decreases |taken| + 1 - counter
  {
    CollisionTitlesSize(text, counter - 1);
    SubsetSize(CollisionTitles(text, counter - 1), taken);
    if CollisionTitle(text, counter) !in taken then counter
    else
      CollisionTitlesSize(text, counter);
      SubsetSize(CollisionTitles(text, counter), taken);
      NextFree(text, taken, counter + 1)
  }

  /** The first free variant is the one the search from 1 stops at. */
  lemma NextFreeIsFirstFree(text: string, taken: set<string>, k: nat)
    requires 1 <= k
    requires CollisionTitles(text, k - 1) <= taken && CollisionTitle(text, k) !in taken
    ensures NextFree(text, taken, 1) == k
  {
    var r := NextFree(text, taken, 1);
    if r < k {
      assert false;
    } else if k < r {
      assert false;
    }
  }

  lemma SubsetSize(a: set<string>, b: set<string>)
    requires a <= b
    ensures |a| <= |b|
  {
    assert b == a + (b - a);
  }

  /** `trimTextTo20Chars(text, existing)`: the base title when it is free, otherwise the
    * first free numbered variant. */
  function TrimTitle(text: string, existing: seq<string>): (r: string)
    ensures r !in existing
    ensures BaseTitle(text) !in existing ==> r == BaseTitle(text)
    ensures BaseTitle(text) in existing ==>
              exists k: nat :: 1 <= k <= |existing| + 1 && r == CollisionTitle(text, k)
  {
    var base := BaseTitle(text);
    if base !in existing then base
    else
      ToSetSize(existing);
      var k := NextFree(text, ToSet(existing), 1);
      CollisionTitle(text, k)
  }

  /** Whatever is taken, a title is at most 20 characters long while fewer than 10^15 - 1
    * titles are taken. */
  lemma TrimTitleFits(text: string, existing: seq<string>)
    requires |existing| + 1 < Pow10(15)
    ensures |TrimTitle(text, existing)| <= 20
  {
    var r := TrimTitle(text, existing);
    if BaseTitle(text) in existing {
      var k: nat :| 1 <= k <= |existing| + 1 && r == CollisionTitle(text, k);
      CollisionTitleFits(text, k);
    }
  }

  /** The variant as the loop assembles it: the suffix `(k)`, and the characters left for
    * the text once the suffix, the space and ".." are counted. */
  lemma VariantFromSuffix(text: string, k: nat)
    ensures var suffix := "(" + NatToString(k) + ")";
            SliceTo(text, 20 - |suffix| - 3) + " " + suffix + ".." == CollisionTitle(text, k)
  {
    var digits := NatToString(k);
    var suffix := "(" + digits + ")";
    assert 20 - |suffix| - 3 == 15 - |digits|;
    var p := SliceTo(text, 15 - |digits|);
    assert p + " " + suffix + ".." == p + " (" + digits + ")..";
  }

  /** One pass of the do-while body: the suffix `(counter)`, the characters left for the
    * text once the suffix, the space and ".." are counted, and the variant built from them. */
  method NumberedTitle(text: string, counter: nat) returns (title: string)
    ensures title == CollisionTitle(text, counter)
  {
    var suffix := "(" + NatToString(counter) + ")";
    var available := 20 - |suffix| - 3;
    title := SliceTo(text, available) + " " + suffix + "..";
    VariantFromSuffix(text, counter);
  }

  /** `trimTextTo20Chars`: the base title, or the do-while over the counter. */
  method TrimTextTo20Chars(text: string, existing: seq<string>) returns (title: string)
    ensures title == TrimTitle(text, existing)
  {
    var base := if |text| > 20 then text[..18] + ".." else text;
    if base !in existing {
      return base;
    }
    ghost var taken := ToSet(existing);
    ToSetSize(existing);
    var counter := 1;
    title := NumberedTitle(text, counter);
    counter := counter + 1;
    while title in existing
      invariant 2 <= counter
      invariant title == CollisionTitle(text, counter - 1)
      invariant CollisionTitles(text, counter - 2) <= taken
      decreases |taken| + 2 - counter
    {
      TakenVariantsGrow(text, taken, counter - 1);
      title := NumberedTitle(text, counter);
      counter := counter + 1;
    }
    NextFreeIsFirstFree(text, taken, counter - 1);
  }

  /** One more taken variant: the variants up to `k` are all taken, so there are at least
    * `k` taken titles. */
  lemma TakenVariantsGrow(text: string, taken: set<string>, k: nat)
    requires 1 <= k && CollisionTitles(text, k - 1) <= taken && CollisionTitle(text, k) in taken
    ensures CollisionTitles(text, k) <= taken && k <= |taken|
  {
    CollisionTitlesSize(text, k);
    SubsetSize(CollisionTitles(text, k), taken);
  }

  /** `getUniqueButtonTitles`: each text gets its title against the titles given before it. */
  function UniqueButtonTitles(texts: seq<string>): (r: seq<string>)
    ensures |r| == |texts|
    ensures Distinct(r)
    decreases |texts|
  {
    if texts == [] then []
    else
      var prev := UniqueButtonTitles(texts[..|texts| - 1]);
      prev + [TrimTitle(texts[|texts| - 1], prev)]
  }

  /** The titles of a prefix are the prefix of the titles. */
  lemma {:induction false} UniqueButtonTitlesPrefix(texts: seq<string>, n: nat)
    requires n <= |texts|
    ensures UniqueButtonTitles(texts[..n]) == UniqueButtonTitles(texts)[..n]
    decreases |texts|
  {
    if n < |texts| {
      assert texts[..|texts| - 1][..n] == texts[..n];
      UniqueButtonTitlesPrefix(texts[..|texts| - 1], n);
    } else {
      assert texts[..n] == texts;
    }
  }

  /** Each title is its text's title against the titles before it. */
  lemma UniqueButtonTitlesAt(texts: seq<string>, i: nat)
    requires i < |texts|
    ensures UniqueButtonTitles(texts)[i] == TrimTitle(texts[i], UniqueButtonTitles(texts)[..i])
  {
    var r, head := UniqueButtonTitles(texts), texts[..i + 1];
    UniqueButtonTitlesPrefix(texts, i + 1);
    UniqueButtonTitlesPrefix(texts, i);
    assert head[..i] == texts[..i] && head[i] == texts[i];
    var prev := UniqueButtonTitles(head[..i]);
    assert prev == r[..i];
    assert UniqueButtonTitles(head) == prev + [TrimTitle(texts[i], prev)];
    assert r[i] == r[..i + 1][i];
  }

  /** Titles of a realistic number of buttons fit in 20 characters. */
  lemma {:induction false} UniqueButtonTitlesFit(texts: seq<string>)
    requires |texts| < Pow10(15)
    ensures forall i :: 0 <= i < |texts| ==> |UniqueButtonTitles(texts)[i]| <= 20
    decreases |texts|
  {
    if texts != [] {
      var prev := UniqueButtonTitles(texts[..|texts| - 1]);
      UniqueButtonTitlesFit(texts[..|texts| - 1]);
      TrimTitleFits(texts[|texts| - 1], prev);
    }
  }

  /** Short texts that are all different keep their text as their title. */
  lemma {:induction false} DistinctShortTextsAreKept(texts: seq<string>)
    requires Distinct(texts)
    requires forall i :: 0 <= i < |texts| ==> |texts[i]| <= 20
    ensures UniqueButtonTitles(texts) == texts
    decreases |texts|
  {
    if texts != [] {
      var init := texts[..|texts| - 1];
      DistinctShortTextsAreKept(init);
      assert texts[|texts| - 1] !in init;
      assert texts == init + [texts[|texts| - 1]];
    }
  }

  /** The mapping loop of `getUniqueButtonTitles`. */
  method GetUniqueButtonTitles(texts: seq<string>) returns (titles: seq<string>)
    ensures titles == UniqueButtonTitles(texts)
  {
    titles := [];
    for i := 0 to |texts|
      invariant titles == UniqueButtonTitles(texts[..i])
    {
      assert texts[..i + 1][..i] == texts[..i];
      var title := TrimTextTo20Chars(texts[i], titles);
      titles := titles + [title];
    }
    assert texts[..|texts|] == texts;
  }

  function Abs(n: int): nat
  {
    if n < 0 then -n else n
  }

  /** Whether the element at index `i` opens a new group: `i % n` is falsy, which in
    * JavaScript it is when it is 0 and when `n` is 0 (the remainder is then NaN). For a
    * non-negative `i` the truncating remainder only depends on `|n|`. */
  predicate StartsGroup(i: nat, n: int)
  {
    n == 0 || i % Abs(n) == 0
  }

  function Concat<T>(groups: seq<seq<T>>): seq<T>
  {
    if groups == [] then [] else Concat(groups[..|groups| - 1]) + groups[|groups| - 1]
  }

  /** `groupArrayByArraySize(arr, n)`: the reduce that starts a group at every index
    * `StartsGroup` picks and otherwise appends to the last group. */
  function GroupBySize<T>(arr: seq<T>, n: int): (r: seq<seq<T>>)
    ensures Concat(r) == arr
    ensures |arr| == 0 <==> |r| == 0
    ensures forall j :: 0 <= j < |r| ==> |r[j]| >= 1
    decreases |arr|
  {
    if arr == [] then []
    else
      var i := |arr| - 1;
      SplitLast(arr);
      AddToGroups(GroupBySize(arr[..i], n), arr[i], i, n)
  }

  /** One step of the reduce: element `x` at index `i` opens a new group or joins the last. */
  function AddToGroups<T>(groups: seq<seq<T>>, x: T, i: nat, n: int): (r: seq<seq<T>>)
    requires StartsGroup(i, n) || |groups| > 0
    ensures Concat(r) == Concat(groups) + [x]
    ensures |r| >= 1
    ensures (forall j :: 0 <= j < |groups| ==> |groups[j]| >= 1) ==> forall j :: 0 <= j < |r| ==> |r[j]| >= 1
  {
    if StartsGroup(i, n) then
      assert (groups + [[x]])[..|groups|] == groups;
      groups + [[x]]
    else
      var last, init := groups[|groups| - 1], groups[..|groups| - 1];
      SplitLast(groups);
      assert (init + [last + [x]])[..|init|] == init;
      assert Concat(groups) == Concat(init) + last;
      AppendAssoc(Concat(init), last, [x]);
      init + [last + [x]]
  }

  function Min(a: int, b: int): int
  {
    if a < b then a else b
  }

  lemma DivStep(q: nat, m: nat, t: nat)
    requires 1 <= m && t < m
    ensures (q * m + t) % m == t
  {
    var x := q * m + t;
    var d, r := x / m, x % m;
    assert x == d * m + r && 0 <= r < m;
    if d > q {
      MulSplit(d - q, q, m);
      assert false;
    } else if d < q {
      MulSplit(q - d, d, m);
      assert false;
    }
  }

  /** `(a + b) * m` splits into `a * m + b * m`, and `a * m` is at least `m` when `a` is
    * positive. */
  lemma MulSplit(a: nat, b: nat, m: nat)
    requires 1 <= a
    ensures (a + b) * m == a * m + b * m && a * m >= m
  {
    assert a * m == (a - 1) * m + m;
  }

  /** The remainder of the next number: one more, or 0 after `m - 1`. */
  lemma ModSucc(a: nat, m: nat)
    requires 1 <= m
    ensures (a + 1) % m == if a % m == m - 1 then 0 else a % m + 1
  {
    var q, s := a / m, a % m;
    assert a == q * m + s;
    if s == m - 1 {
      assert a + 1 == (q + 1) * m + 0;
      DivStep(q + 1, m, 0);
    } else {
      assert a + 1 == q * m + (s + 1);
      DivStep(q, m, s + 1);
    }
  }

  /** For `n != 0` every group but the last holds exactly `|n|` elements and the last one
    * holds `(|arr| - 1) % |n| + 1`; with the concatenation being `arr`, the groups are the
    * consecutive slices of `|n|` elements. */
  lemma {:induction false} GroupsAreFull<T>(arr: seq<T>, n: int)
    requires n != 0
    ensures var r, m := GroupBySize(arr, n), Abs(n);
            && (forall j :: 0 <= j < |r| - 1 ==> |r[j]| == m)
            && (|arr| > 0 ==> |r[|r| - 1]| == (|arr| - 1) % m + 1 <= m)
    decreases |arr|
  {
    if arr != [] {
      var i := |arr| - 1;
      GroupsAreFull(arr[..i], n);
      AddToGroupsKeepsFull(GroupBySize(arr[..i], n), arr[i], i, n);
    }
  }

  /** Adding the element at index `i` to `i` elements grouped by `|n|` keeps every group
    * but the last full and gives the last `i % |n| + 1` elements. */
  lemma AddToGroupsKeepsFull<T>(groups: seq<seq<T>>, x: T, i: nat, n: int)
    requires n != 0
    requires |groups| == 0 <==> i == 0
    requires forall j :: 0 <= j < |groups| - 1 ==> |groups[j]| == Abs(n)
    requires i > 0 ==> |groups[|groups| - 1]| == (i - 1) % Abs(n) + 1 <= Abs(n)
    ensures var r := AddToGroups(groups, x, i, n);
            && (forall j :: 0 <= j < |r| - 1 ==> |r[j]| == Abs(n))
            && |r[|r| - 1]| == i % Abs(n) + 1 <= Abs(n)
  {
    LastGroupSize(groups, x, i, n);
    if i > 0 {
      var k := |groups| - 1;
      if StartsGroup(i, n) {
        ModSucc(i - 1, Abs(n));
        FullGroupsSnoc(groups, [x], Abs(n));
      } else {
        FullGroupsSnoc(groups[..k], groups[k] + [x], Abs(n));
      }
    }
  }

  /** Appending a group after full groups leaves every group but the last full. */
  lemma FullGroupsSnoc<T>(groups: seq<seq<T>>, g: seq<T>, m: nat)
    requires forall j :: 0 <= j < |groups| ==> |groups[j]| == m
    ensures forall j :: 0 <= j < |groups| ==> |(groups + [g])[j]| == m
  {
    forall j | 0 <= j < |groups| ensures |(groups + [g])[j]| == m {
      assert (groups + [g])[j] == groups[j];
    }
  }

  /** The size of the last group after adding the element at index `i`. */
  lemma LastGroupSize<T>(groups: seq<seq<T>>, x: T, i: nat, n: int)
    requires n != 0
    requires |groups| == 0 <==> i == 0
    requires i > 0 ==> |groups[|groups| - 1]| == (i - 1) % Abs(n) + 1 <= Abs(n)
    ensures var r := AddToGroups(groups, x, i, n);
            |r[|r| - 1]| == i % Abs(n) + 1 <= Abs(n)
  {
    var m := Abs(n);
    if i > 0 {
      ModSucc(i - 1, m);
    }
    if StartsGroup(i, n) {
      NewGroupHoldsOne(groups, x, i, n);
    } else {
      JoinedGroupGrows(groups, x, i, n);
    }
  }

  /** An element that opens a group is alone in it. */
  lemma NewGroupHoldsOne<T>(groups: seq<seq<T>>, x: T, i: nat, n: int)
    requires StartsGroup(i, n)
    ensures var r := AddToGroups(groups, x, i, n);
            |r[|r| - 1]| == 1
  {
  }

  /** An element that joins the last group makes it one longer. */
  lemma JoinedGroupGrows<T>(groups: seq<seq<T>>, x: T, i: nat, n: int)
    requires !StartsGroup(i, n) && |groups| > 0
    ensures var r := AddToGroups(groups, x, i, n);
            |r[|r| - 1]| == |groups[|groups| - 1]| + 1
  {
  }

  /** For `n != 0` no group holds more than `|n|` elements. */
  lemma GroupsAreAtMost<T>(arr: seq<T>, n: int)
    requires n != 0
    ensures forall j :: 0 <= j < |GroupBySize(arr, n)| ==> |GroupBySize(arr, n)[j]| <= Abs(n)
  {
    GroupsAreFull(arr, n);
  }

  /** With `n == 0` every element is its own group. */
  lemma {:induction false} GroupsOfZeroAreSingletons<T>(arr: seq<T>)
    ensures var r := GroupBySize(arr, 0);
            |r| == |arr| && forall j :: 0 <= j < |r| ==> r[j] == [arr[j]]
    decreases |arr|
  {
    if arr != [] {
      GroupsOfZeroAreSingletons(arr[..|arr| - 1]);
    }
  }
}
