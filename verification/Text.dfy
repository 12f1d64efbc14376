/** Python string operations the models need, on sequences of code points. */
module Text {
  import opened Graphs

  /** Code-point order, as Python compares `str`. */
  predicate Less(a: string, b: string) {
    if b == [] then false
    else if a == [] then true
    else a[0] < b[0] || (a[0] == b[0] && Less(a[1..], b[1..]))
  }

  lemma {:induction false} LessTotal(a: string, b: string)
    ensures a == b || Less(a, b) || Less(b, a)
    decreases |a|
  {
    if a != [] && b != [] {
      LessTotal(a[1..], b[1..]);
      if a[0] == b[0] && a[1..] == b[1..] {
        assert a == [a[0]] + a[1..];
        assert b == [b[0]] + b[1..];
      }
    }
  }

  lemma {:induction false} LessTransitive(a: string, b: string, c: string)
    requires Less(a, b) && Less(b, c)
    ensures Less(a, c)
    decreases |a|
  {
    if a != [] && a[0] == b[0] && b[0] == c[0] {
      LessTransitive(a[1..], b[1..], c[1..]);
    }
  }

  lemma {:induction false} LessIrreflexive(a: string)
    ensures !Less(a, a)
    decreases |a|
  {
    if a != [] { LessIrreflexive(a[1..]); }
  }

  ghost predicate Ascending(s: seq<string>) {
    forall i, j :: 0 <= i < j < |s| ==> !Less(s[j], s[i])
  }

  function Insert(x: string, s: seq<string>): (r: seq<string>)
    ensures multiset(r) == multiset(s) + multiset{x}
    ensures |r| == |s| + 1
  {
    if s == [] then [x]
    else if !Less(s[0], x) then [x] + s
    else
      assert s == [s[0]] + s[1..];
      [s[0]] + Insert(x, s[1..])
  }

  /** `sorted(names)` */
  function Sorted(s: seq<string>): (r: seq<string>)
    ensures multiset(r) == multiset(s)
    ensures |r| == |s|
  {
    if s == [] then []
    else
      assert s == [s[0]] + s[1..];
      Insert(s[0], Sorted(s[1..]))
  }

  lemma {:induction false} InsertAscending(x: string, s: seq<string>)
    requires Ascending(s)
    ensures Ascending(Insert(x, s))
    decreases |s|
  {
    if s == [] {
    } else if !Less(s[0], x) {
      var r := [x] + s;
      forall i, j | 0 <= i < j < |r| ensures !Less(r[j], r[i]) {
        if i == 0 && Less(s[j - 1], x) {
          if j > 1 { assert !Less(s[j - 1], s[0]); }
          LessTotal(s[0], s[j - 1]);
          if s[0] != s[j - 1] { LessTransitive(s[0], s[j - 1], x); }
        }
      }
    } else {
      InsertAscending(x, s[1..]);
      var t := Insert(x, s[1..]);
      var r := [s[0]] + t;
      forall i, j | 0 <= i < j < |r| ensures !Less(r[j], r[i]) {
        if i == 0 {
          assert t[j - 1] in multiset(t);
          assert t[j - 1] == x || t[j - 1] in s[1..];
          if t[j - 1] == x {
            if Less(x, s[0]) { LessTransitive(x, s[0], x); LessIrreflexive(x); }
          }
        }
      }
    }
  }

  lemma {:induction false} SortedAscending(s: seq<string>)
    ensures Ascending(Sorted(s))
    decreases |s|
  {
    if s != [] {
      SortedAscending(s[1..]);
      InsertAscending(s[0], Sorted(s[1..]));
    }
  }

  /** Membership and distinctness carry over to a permutation. */
  lemma PermutationKeeps<T>(a: seq<T>, b: seq<T>)
    requires multiset(a) == multiset(b)
    ensures forall x :: x in a <==> x in b
    ensures Distinct(a) ==> Distinct(b)
    ensures |a| == |b|
  {
    forall x ensures x in a <==> x in b {
      assert x in a <==> x in multiset(a);
      assert x in b <==> x in multiset(b);
    }
    assert |multiset(a)| == |a| && |multiset(b)| == |b|;
    if Distinct(a) {
      forall x ensures multiset(a)[x] <= 1 { CountDistinct(a, x); }
      forall i, j | 0 <= i < j < |b| ensures b[i] != b[j] {
        if b[i] == b[j] { CountTwice(b, i, j); }
      }
    }
  }

  lemma {:induction false} CountDistinct<T>(a: seq<T>, x: T)
    requires Distinct(a)
    ensures multiset(a)[x] <= 1
    decreases |a|
  {
    if a != [] {
      var n := |a| - 1;
      assert a == a[..n] + [a[n]];
      CountDistinct(a[..n], x);
      if x == a[n] { assert x !in a[..n]; }
    }
  }

  lemma CountTwice<T>(b: seq<T>, i: nat, j: nat)
    requires i < j < |b| && b[i] == b[j]
    ensures multiset(b)[b[i]] >= 2
  {
    assert b == b[..i] + [b[i]] + b[i + 1..j] + [b[j]] + b[j + 1..];
    assert multiset(b)
        == multiset(b[..i]) + multiset{b[i]} + multiset(b[i + 1..j]) + multiset{b[j]} + multiset(b[j + 1..]);
  }

  lemma TailsOfPermutation<T>(a: seq<T>, b: seq<T>)
    requires multiset(a) == multiset(b) && a != [] && b != [] && a[0] == b[0]
    ensures multiset(a[1..]) == multiset(b[1..])
  {
    assert a == [a[0]] + a[1..] && b == [b[0]] + b[1..];
    assert multiset(a[1..]) == multiset(a) - multiset{a[0]};
    assert multiset(b[1..]) == multiset(b) - multiset{b[0]};
  }

  /** Where the first entry of one arrangement sits in another. */
  lemma FirstInPermutation<T>(a: seq<T>, b: seq<T>) returns (k: nat)
    requires multiset(a) == multiset(b) && a != []
    ensures k < |b| && b[k] == a[0]
    ensures multiset(b[..k] + b[k + 1..]) == multiset(a[1..])
  {
    assert a[0] in multiset(b);
    k :| 0 <= k < |b| && b[k] == a[0];
    assert b == b[..k] + ([b[k]] + b[k + 1..]);
    assert a == [a[0]] + a[1..];
    assert multiset(b[..k] + b[k + 1..]) == multiset(b) - multiset{b[k]};
    assert multiset(a[1..]) == multiset(a) - multiset{a[0]};
  }

  /** White space, as `str.strip` removes it (the ASCII characters). */
  predicate Space(c: char) {
    c == ' ' || '\t' <= c <= '\r' || '\U{1C}' <= c <= '\U{1F}'
  }

  /** `text.strip()` */
  function Strip(text: string): string
    decreases |text|
  {
    if text == [] then text
    else if Space(text[0]) then Strip(text[1..])
    else if Space(text[|text| - 1]) then Strip(text[..|text| - 1])
    else text
  }

  /** All white space before `i` and from `k` on, and none at either end of what is between. */
  ghost predicate TrimmedAt(text: string, i: nat, k: nat) {
    && i <= k <= |text|
    && (forall x :: 0 <= x < i || k <= x < |text| ==> Space(text[x]))
    && (i < k ==> !Space(text[i]) && !Space(text[k - 1]))
  }

  ghost predicate Trimmed(text: string, r: string) {
    exists i: nat, k: nat :: TrimmedAt(text, i, k) && r == text[i..k]
  }

  lemma {:induction false} StripTrims(text: string) returns (i: nat, k: nat)
    ensures TrimmedAt(text, i, k) && Strip(text) == text[i..k]
    decreases |text|
  {
    i, k := 0, |text|;
    if text != [] && Space(text[0]) {
      i, k := StripTrims(text[1..]);
      assert text[1..][i..k] == text[i + 1..k + 1];
      i, k := i + 1, k + 1;
    } else if text != [] && Space(text[|text| - 1]) {
      i, k := StripTrims(text[..|text| - 1]);
    }
  }

  /** What has no white space at its ends is what is left when the white space around it is stripped. */
  lemma StripOf(before: string, text: string, after: string)
    requires forall i :: 0 <= i < |before| ==> Space(before[i])
    requires forall i :: 0 <= i < |after| ==> Space(after[i])
    requires text != [] && !Space(text[0]) && !Space(text[|text| - 1])
    ensures Strip(before + text + after) == text
  {
    var whole := before + text + after;
    var i, k := StripTrims(whole);
    var n, m := |before|, |before| + |text|;
    assert whole[n] == text[0] && whole[m - 1] == text[|text| - 1];
    assert forall x :: 0 <= x < n ==> whole[x] == before[x];
    assert forall x :: m <= x < |whole| ==> whole[x] == after[x - m];
    assert i == n && k == m;
    assert whole[n..m] == text;
  }

  /** `text.split(c)[0]` */
  function Before(text: string, c: char): string {
    if text == [] || text[0] == c then [] else [text[0]] + Before(text[1..], c)
  }
}
