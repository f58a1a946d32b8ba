/**
 * The selection toggles shared by `StrategySelection.tsx`, `LiveTrading.tsx`
 * and `AiModelsSelection.tsx`: a list of names used as a set, toggled with
 * `includes`, `filter` and an append, the strategy lists capped at three.
 */
module SelectionRules {

  /** The most strategies that can be selected at once. */
  const MaxStrategies: nat := 3

  predicate NoDuplicates(s: seq<string>) {
    forall i, j :: 0 <= i < j < |s| ==> s[i] != s[j]
  }

  /** `s.filter(m => m !== x)`: every copy of `x` dropped, the rest kept in order. */
  function Without(s: seq<string>, x: string): (r: seq<string>)
    ensures |r| <= |s|
    ensures forall y :: y in r <==> y in s && y != x
  {
    if s == [] then []
    else if s[0] == x then Without(s[1..], x)
    else [s[0]] + Without(s[1..], x)
  }

  /** The unbounded toggle: remove a present name, append an absent one. */
  function Toggle(s: seq<string>, x: string): seq<string> {
    if x in s then Without(s, x) else s + [x]
  }

  /** A strategy that a toggle would ignore: three are selected and it is not one of them. */
  predicate IsDisabled(s: seq<string>, x: string) {
    |s| >= MaxStrategies && x !in s
  }

  /** The capped toggle: `toggle` only when fewer than three are selected or `x` is one of them. */
  function ToggleCapped(s: seq<string>, x: string): seq<string> {
    if |s| < MaxStrategies || x in s then Toggle(s, x) else s
  }

  /** Names without `x` are left exactly as they were. */
  lemma {:induction false} WithoutAbsent(s: seq<string>, x: string)
    requires x !in s
    ensures Without(s, x) == s
  {
    if s != [] {
      assert s == [s[0]] + s[1..];
      WithoutAbsent(s[1..], x);
    }
  }

  /** Removing the one copy of `x` splices its neighbours together, in order. */
  lemma {:induction false} WithoutSplice(a: seq<string>, x: string, b: seq<string>)
    requires x !in a && x !in b
    ensures Without(a + [x] + b, x) == a + b
  {
    if a == [] {
      assert a + [x] + b == [x] + b;
      WithoutAbsent(b, x);
    } else {
      assert (a + [x] + b)[0] == a[0];
      assert (a + [x] + b)[1..] == a[1..] + [x] + b;
      WithoutSplice(a[1..], x, b);
      assert a == [a[0]] + a[1..];
    }
  }

  lemma {:induction false} WithoutNoDuplicates(s: seq<string>, x: string)
    requires NoDuplicates(s)
    ensures NoDuplicates(Without(s, x))
    ensures |Without(s, x)| == if x in s then |s| - 1 else |s|
  {
    if s != [] {
      assert NoDuplicates(s[1..]) by {
        forall i, j | 0 <= i < j < |s| - 1 ensures s[1..][i] != s[1..][j] {
          assert s[1..][i] == s[i + 1] && s[1..][j] == s[j + 1];
        }
      }
      WithoutNoDuplicates(s[1..], x);
      assert s[0] !in s[1..];
      if s[0] == x {
        WithoutAbsent(s[1..], x);
      } else {
        var r := Without(s[1..], x);
        assert x in s <==> x in s[1..];
        forall i, j | 0 <= i < j < |[s[0]] + r| ensures ([s[0]] + r)[i] != ([s[0]] + r)[j] {
          if i == 0 {
            assert ([s[0]] + r)[j] == r[j - 1];
            assert r[j - 1] in r;
          } else {
            assert ([s[0]] + r)[i] == r[i - 1] && ([s[0]] + r)[j] == r[j - 1];
          }
        }
      }
    }
  }

  lemma AppendNoDuplicates(s: seq<string>, x: string)
    requires NoDuplicates(s) && x !in s
    ensures NoDuplicates(s + [x])
  {
    forall i, j | 0 <= i < j < |s| + 1 ensures (s + [x])[i] != (s + [x])[j] {
      if j == |s| {
        assert (s + [x])[i] == s[i];
      }
    }
  }

  /** The toggle keeps the list free of duplicates, and moves its length by one. */
  lemma ToggleNoDuplicates(s: seq<string>, x: string)
    requires NoDuplicates(s)
    ensures NoDuplicates(Toggle(s, x))
    ensures x in s ==> x !in Toggle(s, x) && |Toggle(s, x)| == |s| - 1
    ensures x !in s ==> Toggle(s, x) == s + [x]
  {
    if x in s {
      WithoutNoDuplicates(s, x);
    } else {
      AppendNoDuplicates(s, x);
    }
  }

  /** Toggling an absent name twice gives back the original list. */
  lemma ToggleTwice(s: seq<string>, x: string)
    requires x !in s
    ensures Toggle(Toggle(s, x), x) == s
  {
    assert Toggle(s, x) == s + [x];
    WithoutSplice(s, x, []);
    assert s + [x] + [] == s + [x];
  }

  /** Removing a selected name keeps the order of the others. */
  lemma ToggleRemovesInPlace(a: seq<string>, x: string, b: seq<string>)
    requires NoDuplicates(a + [x] + b)
    ensures Toggle(a + [x] + b, x) == a + b
  {
    var s := a + [x] + b;
    assert s[|a|] == x;
    assert x !in a by {
      forall i | 0 <= i < |a| ensures a[i] != x { assert s[i] == a[i]; }
    }
    assert x !in b by {
      forall i | 0 <= i < |b| ensures b[i] != x { assert s[|a| + 1 + i] == b[i]; }
    }
    WithoutSplice(a, x, b);
  }

  /**
   * The capped toggle changes nothing exactly when the name is disabled;
   * otherwise it removes a selected name or appends an unselected one.
   */
  lemma ToggleCappedCases(s: seq<string>, x: string)
    ensures IsDisabled(s, x) <==> ToggleCapped(s, x) == s
    ensures x in s ==> ToggleCapped(s, x) == Without(s, x)
    ensures x !in s && |s| < MaxStrategies ==> ToggleCapped(s, x) == s + [x]
  {
    if x in s {
      assert x !in Without(s, x);
    } else if |s| < MaxStrategies {
      assert |s + [x]| != |s|;
    }
  }

  /** The strategy invariant: no duplicates and at most three names. */
  predicate CappedSelection(s: seq<string>) {
    NoDuplicates(s) && |s| <= MaxStrategies
  }

  lemma ToggleCappedKeeps(s: seq<string>, x: string)
    requires CappedSelection(s)
    ensures CappedSelection(ToggleCapped(s, x))
  {
    if |s| < MaxStrategies || x in s {
      ToggleNoDuplicates(s, x);
    }
  }

  /** The list after a sequence of capped toggles. */
  function ApplyCapped(s: seq<string>, clicks: seq<string>): seq<string>
    decreases |clicks|
  {
    if clicks == [] then s else ApplyCapped(ToggleCapped(s, clicks[0]), clicks[1..])
  }

  /** Starting from the empty selection, every sequence of toggles keeps the invariant. */
  lemma {:induction false} ApplyCappedKeeps(s: seq<string>, clicks: seq<string>)
    requires CappedSelection(s)
    ensures CappedSelection(ApplyCapped(s, clicks))
    decreases |clicks|
  {
    if clicks != [] {
      ToggleCappedKeeps(s, clicks[0]);
      ApplyCappedKeeps(ToggleCapped(s, clicks[0]), clicks[1..]);
    }
  }

  lemma FromEmptyCapped(clicks: seq<string>)
    ensures CappedSelection(ApplyCapped([], clicks))
  {
    ApplyCappedKeeps([], clicks);
  }

  /** The list after a sequence of unbounded toggles. */
  function ApplyToggles(s: seq<string>, clicks: seq<string>): seq<string>
    decreases |clicks|
  {
    if clicks == [] then s else ApplyToggles(Toggle(s, clicks[0]), clicks[1..])
  }

  lemma {:induction false} ApplyTogglesKeeps(s: seq<string>, clicks: seq<string>)
    requires NoDuplicates(s)
    ensures NoDuplicates(ApplyToggles(s, clicks))
    decreases |clicks|
  {
    if clicks != [] {
      ToggleNoDuplicates(s, clicks[0]);
      ApplyTogglesKeeps(Toggle(s, clicks[0]), clicks[1..]);
    }
  }

  /** Starting from the empty selection, the model list never holds a duplicate. */
  lemma FromEmptyNoDuplicates(clicks: seq<string>)
    ensures NoDuplicates(ApplyToggles([], clicks))
  {
    ApplyTogglesKeeps([], clicks);
  }

  /** Clicking names that are all new, one after another, appends them in click order. */
  lemma {:induction false} ApplyTogglesFresh(s: seq<string>, clicks: seq<string>)
    requires NoDuplicates(s + clicks)
    ensures ApplyToggles(s, clicks) == s + clicks
    decreases |clicks|
  {
    if clicks != [] {
      var all := s + clicks;
      assert clicks[0] !in s by {
        forall i | 0 <= i < |s| ensures s[i] != clicks[0] {
          assert all[i] == s[i] && all[|s|] == clicks[0];
        }
      }
      assert Toggle(s, clicks[0]) == s + [clicks[0]];
      assert s + [clicks[0]] + clicks[1..] == all;
      ApplyTogglesFresh(s + [clicks[0]], clicks[1..]);
    }
  }
}
