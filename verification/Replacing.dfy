/** `str.replace`, and when replacing back undoes it. */
module Replacing {

  ghost predicate OccursAt(needle: string, s: string, i: nat) {
    i + |needle| <= |s| && s[i..i + |needle|] == needle
  }

  ghost predicate Occurs(needle: string, s: string) {
    exists i :: OccursAt(needle, s, i)
  }

  /** `needle in s` */
  predicate Contains(s: string, needle: string)
    ensures Contains(s, needle) <==> Occurs(needle, s)
  {
    if needle <= s then
      assert OccursAt(needle, s, 0);
      true
    else if s == [] then
      assert forall i: nat :: OccursAt(needle, s, i) ==> i == 0;
      false
    else
      ContainsTail(s, needle);
      Contains(s[1..], needle)
  }

  lemma ContainsTail(s: string, needle: string)
    requires s != [] && !(needle <= s)
    ensures Occurs(needle, s) <==> Occurs(needle, s[1..])
  {
    if Occurs(needle, s) {
      var i: nat :| OccursAt(needle, s, i);
      assert i > 0;
      assert s[1..][i - 1..i - 1 + |needle|] == s[i..i + |needle|];
      assert OccursAt(needle, s[1..], i - 1);
    }
    if Occurs(needle, s[1..]) {
      var i: nat :| OccursAt(needle, s[1..], i);
      assert s[1..][i..i + |needle|] == s[i + 1..i + 1 + |needle|];
      assert OccursAt(needle, s, i + 1);
    }
  }

  /** `s.replace(a, b)`: the occurrences from the left that do not overlap. */
  function Replace(s: string, a: string, b: string): string
    requires a != []
  {
    if s == [] then []
    else if a <= s then b + Replace(s[|a|..], a, b)
    else [s[0]] + Replace(s[1..], a, b)
  }

  /** No proper end of the text is also a start of it: two occurrences never overlap. */
  ghost predicate Unbordered(b: string) {
    forall k :: 0 < k < |b| ==> b[k..] != b[..|b| - k]
  }

  lemma {:induction false} NothingToReplace(s: string, a: string, b: string)
    requires a != [] && !Occurs(a, s)
    ensures Replace(s, a, b) == s
  {
    if s != [] {
      if a <= s {
        StartOccurs(a, s);
      } else {
        ContainsTail(s, a);
        NothingToReplace(s[1..], a, b);
      }
    }
  }

  /** Where two texts differ at a place both have, replacing an occurrence changes the text. */
  lemma {:induction false} ReplacingChanges(s: string, a: string, b: string, k: nat)
    requires k < |a| && k < |b| && a[k] != b[k] && Occurs(a, s)
    ensures Replace(s, a, b) != s
  {
    if a <= s {
      assert Replace(s, a, b)[k] == b[k];
    } else {
      ContainsTail(s, a);
      ReplacingChanges(s[1..], a, b, k);
    }
  }

  lemma StartOccurs(a: string, s: string)
    requires a <= s
    ensures Occurs(a, s)
  {
    assert OccursAt(a, s, 0);
  }

  /** How much of the text stands before the first occurrence. */
  ghost function FirstAt(s: string, a: string): (k: nat)
    ensures k <= |s|
    ensures k < |s| ==> a <= s[k..]
    ensures k == 0 ==> s == [] || a <= s
  {
    if s == [] || a <= s then
      assert s[0..] == s;
      0
    else
      assert s[1..][FirstAt(s[1..], a)..] == s[1 + FirstAt(s[1..], a)..];
      1 + FirstAt(s[1..], a)
  }

  /** That much is untouched. */
  lemma {:induction false} Untouched(s: string, a: string, b: string)
    requires a != []
    ensures var k := FirstAt(s, a); Replace(s, a, b) == s[..k] + Replace(s[k..], a, b)
  {
    if s == [] || a <= s {
      assert s[0..] == s;
    } else {
      Untouched(s[1..], a, b);
      Consed(s, FirstAt(s[1..], a), Replace(s[1..], a, b), Replace(s[1..][FirstAt(s[1..], a)..], a, b));
    }
  }

  lemma Consed(s: string, k: nat, replaced: string, tail: string)
    requires s != [] && k < |s| && replaced == s[1..][..k] + tail
    ensures [s[0]] + replaced == s[..k + 1] + tail && s[1..][k..] == s[k + 1..]
  {
    assert [s[0]] + s[1..][..k] == s[..k + 1];
  }

  lemma StartsStart(b: string, head: string, tail: string)
    requires |b| <= |head| && b <= head + tail
    ensures b <= head
  {
    assert b == (head + tail)[..|b|] == head[..|b|];
  }

  lemma Border(b: string, head: string, rest: string)
    requires 0 < |head| < |b| && b <= head + (b + rest)
    ensures b[|head|..] == b[..|b| - |head|]
  {
    var r, k := head + (b + rest), |head|;
    assert b[k..] == r[..|b|][k..] == (b + rest)[..|b| - k] == b[..|b| - k];
  }

  /** If `b` starts the replaced text though no occurrence of `a` starts the text, it was there before. */
  lemma StartWasThere(s: string, a: string, b: string)
    requires a != [] && b != [] && Unbordered(b) && !(a <= s) && b <= Replace(s, a, b)
    ensures Occurs(b, s)
  {
    var k := FirstAt(s, a);
    Untouched(s, a, b);
    assert s[..k] <= s;
    if |b| <= k {
      StartsStart(b, s[..k], Replace(s[k..], a, b));
      StartOccurs(b, s);
    } else if k < |s| {
      Border(b, s[..k], Replace(s[k..][|a|..], a, b));
    }
  }

  /** Text that does not contain `b` comes back when `a` is replaced by `b` and `b` by `a`. */
  lemma {:induction false} ReplaceBack(s: string, a: string, b: string)
    requires a != [] && b != [] && Unbordered(b) && !Occurs(b, s)
    ensures Replace(Replace(s, a, b), b, a) == s
    decreases |s|
  {
    if s == [] {
    } else if a <= s {
      var rest := Replace(s[|a|..], a, b);
      LaterOccurs(s, b, |a|);
      ReplaceBack(s[|a|..], a, b);
      assert (b + rest)[|b|..] == rest && s == a + s[|a|..];
    } else {
      var rest := Replace(s[1..], a, b);
      LaterOccurs(s, b, 1);
      ReplaceBack(s[1..], a, b);
      if b <= [s[0]] + rest {
        StartWasThere(s, a, b);
      } else {
        assert ([s[0]] + rest)[1..] == rest && s == [s[0]] + s[1..];
      }
    }
  }

  lemma LaterOccurs(s: string, b: string, n: nat)
    requires n <= |s| && !Occurs(b, s)
    ensures !Occurs(b, s[n..])
  {
    if Occurs(b, s[n..]) {
      var i: nat :| OccursAt(b, s[n..], i);
      assert s[n..][i..i + |b|] == s[n + i..n + i + |b|];
      assert OccursAt(b, s, n + i);
    }
  }

  lemma ReplaceAtStart(a: string, b: string, rest: string)
    requires a != [] && |rest| < |a|
    ensures Contains(a + rest, a) && Replace(a + rest, a, b) == b + rest
  {
    NothingToReplace(rest, a, b);
    assert (a + rest)[|a|..] == rest;
    StartOccurs(a, a + rest);
  }

  lemma ContainsEnd(head: string, a: string)
    ensures Contains(head + a, a)
  {
    assert (head + a)[|head|..|head| + |a|] == a;
    assert OccursAt(a, head + a, |head|);
  }

  // ---------------------------------------------------------------------------------------------
  // When replacing leaves nothing to replace
  // ---------------------------------------------------------------------------------------------

  ghost predicate EndsWith(s: string, end: string) {
    |end| <= |s| && s[|s| - |end|..] == end
  }

  /** The first character of the text occurs in it only once. */
  ghost predicate Headed(a: string) {
    a != [] && forall i :: 0 < i < |a| ==> a[i] != a[0]
  }

  /** `b` holds no occurrence of `a`, and ends with no start of one. */
  ghost predicate Clean(b: string, a: string) {
    !Contains(b, a) && forall k :: 0 < k < |a| ==> !EndsWith(b, a[..k])
  }

  lemma OccursInTwo(a: string, b: string, rest: string)
    requires a != [] && Occurs(a, b + rest)
    ensures Occurs(a, rest) || !Clean(b, a)
  {
    var s := b + rest;
    var i: nat :| OccursAt(a, s, i);
    if i >= |b| {
      assert rest[i - |b|..i - |b| + |a|] == s[i..i + |a|];
      assert OccursAt(a, rest, i - |b|);
    } else if i + |a| <= |b| {
      assert b[i..i + |a|] == s[i..i + |a|];
      assert OccursAt(a, b, i);
    } else {
      var k := |b| - i;
      assert s[i..i + |a|][..k] == s[i..|b|] == b[i..];
      assert EndsWith(b, a[..k]);
    }
  }

  /** With a `b` that starts like `a`, no occurrence of `a` runs into a replaced one. */
  lemma NoNewStart(s: string, a: string, b: string)
    requires Headed(a) && b != [] && b[0] == a[0] && s != [] && !(a <= s)
    ensures !(a <= Replace(s, a, b))
  {
    var k := FirstAt(s, a);
    Untouched(s, a, b);
    var r := Replace(s, a, b);
    assert s[..k] <= s && r[..k] == s[..k];
    if k == |s| {
      assert s[..k] == s && s[k..] == [];
    } else {
      assert Replace(s[k..], a, b)[0] == b[0];
      assert r[k] == a[0];
    }
  }

  lemma {:induction false} CleanLeavesNone(s: string, a: string, b: string)
    requires Headed(a) && b != [] && b[0] == a[0] && Clean(b, a)
    ensures !Contains(Replace(s, a, b), a)
  {
    if s != [] {
      if a <= s {
        CleanLeavesNone(s[|a|..], a, b);
        if Occurs(a, Replace(s, a, b)) {
          OccursInTwo(a, b, Replace(s[|a|..], a, b));
        }
      } else {
        CleanLeavesNone(s[1..], a, b);
        NoNewStart(s, a, b);
        var r := Replace(s, a, b);
        assert r[1..] == Replace(s[1..], a, b);
        ContainsTail(r, a);
      }
    }
  }

  /** A start of `a` at the end of `b` becomes an occurrence with the rest of `a` behind it. */
  lemma StartBecomesWhole(a: string, b: string, k: nat)
    requires 0 < k < |a| && EndsWith(b, a[..k])
    ensures Contains(Replace(a + a[k..], a, b), a)
  {
    ReplaceAtStart(a, b, a[k..]);
    var head := b[..|b| - k];
    assert b == head + a[..k] && a == a[..k] + a[k..];
    assert b + a[k..] == head + a;
    ContainsEnd(head, a);
  }

  lemma UncleanLeavesOne(a: string, b: string) returns (s: string)
    requires a != [] && !Clean(b, a)
    ensures Contains(Replace(s, a, b), a)
  {
    if Contains(b, a) {
      s := a;
      ReplaceAtStart(a, b, "");
      assert a + "" == a && b + "" == b;
    } else {
      var k :| 0 < k < |a| && EndsWith(b, a[..k]);
      s := a + a[k..];
      StartBecomesWhole(a, b, k);
    }
  }

  ghost predicate LeavesNone(a: string, b: string)
    requires a != []
  {
    forall s: string :: !Contains(Replace(s, a, b), a)
  }

  /** Replacing never leaves an occurrence behind, whatever the text, exactly when `b` is clean of `a`. */
  lemma LeavesNoneIff(a: string, b: string)
    requires Headed(a) && b != [] && b[0] == a[0]
    ensures LeavesNone(a, b) <==> Clean(b, a)
  {
    hide Contains, Replace;
    if Clean(b, a) {
      forall s: string ensures !Contains(Replace(s, a, b), a) {
        CleanLeavesNone(s, a, b);
      }
    } else {
      var s := UncleanLeavesOne(a, b);
    }
  }
}
