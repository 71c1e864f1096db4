/**
 * The dashboard's pattern selection: a list of pattern names used as a set.
 * A checkbox toggles one name: when the list includes it every occurrence
 * is filtered out, otherwise it is appended at the end.
 */
module Selection {

  type PatternName = string

  /** No name occurs twice in `s`. */
  predicate NoDuplicates(s: seq<PatternName>) {
    forall i, j :: 0 <= i < j < |s| ==> s[i] != s[j]
  }

  /** `s.filter(x => x !== p)`: the entries of `s` other than `p`, in order. */
  function Without(s: seq<PatternName>, p: PatternName): (r: seq<PatternName>)
    ensures forall x :: x in r <==> x in s && x != p
    ensures |r| <= |s|
  {
    if s == [] then []
    else (if s[0] == p then [] else [s[0]]) + Without(s[1..], p)
  }

  /**
   * The updater passed to `setSelectedPatterns` by `togglePatternSelection`:
   * remove `p` when the list includes it, append it otherwise.
   */
  function Toggle(s: seq<PatternName>, p: PatternName): (r: seq<PatternName>)
    ensures p in r <==> p !in s
    ensures forall q :: q != p ==> (q in r <==> q in s)
  {
    if p in s then Without(s, p) else s + [p]
  }

  /** Filtering distributes over concatenation, so it keeps the relative order. */
  lemma {:induction false} WithoutConcat(a: seq<PatternName>, b: seq<PatternName>, p: PatternName)
    ensures Without(a + b, p) == Without(a, p) + Without(b, p)
  {
    if a == [] {
      assert a + b == b;
    } else {
      assert (a + b)[1..] == a[1..] + b;
      WithoutConcat(a[1..], b, p);
    }
  }

  /** Filtering out a name that is absent returns the list itself. */
  lemma {:induction false} WithoutAbsent(s: seq<PatternName>, p: PatternName)
    requires p !in s
    ensures Without(s, p) == s
  {
    if s != [] {
      WithoutAbsent(s[1..], p);
      assert s == [s[0]] + s[1..];
    }
  }

  /** Filtering drops every occurrence of `p` and keeps every other entry as often as it occurred. */
  lemma {:induction false} WithoutMultiset(s: seq<PatternName>, p: PatternName)
    ensures multiset(Without(s, p)) == multiset(s)[p := 0]
  {
    if s != [] {
      WithoutMultiset(s[1..], p);
      assert s == [s[0]] + s[1..];
    }
  }

  /**
   * Order of the kept entries: two entries other than `p` at positions
   * `i < j` of `s` appear in the filtered list in that order, with only the
   * filtered stretches of `s` around and between them.
   */
  lemma WithoutKeepsOrder(s: seq<PatternName>, p: PatternName, i: nat, j: nat)
    requires i < j < |s| && s[i] != p && s[j] != p
    ensures Without(s, p)
         == Without(s[..i], p) + [s[i]] + Without(s[i+1..j], p) + [s[j]] + Without(s[j+1..], p)
  {
    assert s == s[..i] + ([s[i]] + (s[i+1..j] + ([s[j]] + s[j+1..])));
    WithoutConcat(s[..i], [s[i]] + (s[i+1..j] + ([s[j]] + s[j+1..])), p);
    WithoutConcat([s[i]], s[i+1..j] + ([s[j]] + s[j+1..]), p);
    WithoutConcat(s[i+1..j], [s[j]] + s[j+1..], p);
    WithoutConcat([s[j]], s[j+1..], p);
    assert Without([s[i]], p) == [s[i]];
    assert Without([s[j]], p) == [s[j]];
  }

  /** Putting a new name in front of a list without duplicates keeps it without duplicates. */
  lemma NoDuplicatesCons(x: PatternName, t: seq<PatternName>)
    requires x !in t && NoDuplicates(t)
    ensures NoDuplicates([x] + t)
  {
  }

  lemma {:induction false} WithoutKeepsNoDuplicates(s: seq<PatternName>, p: PatternName)
    requires NoDuplicates(s)
    ensures NoDuplicates(Without(s, p))
  {
    if s != [] {
      assert NoDuplicates(s[1..]) by {
        forall i, j | 0 <= i < j < |s[1..]| ensures s[1..][i] != s[1..][j] {
          assert s[1..][i] == s[i + 1] && s[1..][j] == s[j + 1];
        }
      }
      WithoutKeepsNoDuplicates(s[1..], p);
      if s[0] != p {
        assert s[0] !in s[1..] by {
          forall k | 0 <= k < |s[1..]| ensures s[1..][k] != s[0] {
            assert s[1..][k] == s[k + 1];
          }
        }
        NoDuplicatesCons(s[0], Without(s[1..], p));
      }
    }
  }

  /** Toggling an included name removes every occurrence and keeps the rest, in order, with their counts. */
  lemma TogglePresent(s: seq<PatternName>, p: PatternName)
    requires p in s
    ensures Toggle(s, p) == Without(s, p)
    ensures multiset(Toggle(s, p)) == multiset(s)[p := 0]
  {
    WithoutMultiset(s, p);
  }

  /** Toggling an absent name appends it and leaves the existing entries where they were. */
  lemma ToggleAbsent(s: seq<PatternName>, p: PatternName)
    requires p !in s
    ensures |Toggle(s, p)| == |s| + 1
    ensures Toggle(s, p)[..|s|] == s && Toggle(s, p)[|s|] == p
  {
  }

  /**
   * Toggling twice restores the membership of `p`; when `p` was absent it
   * restores the list exactly, and when it was present once it moves it to
   * the end.
   */
  lemma ToggleTwice(s: seq<PatternName>, p: PatternName)
    ensures p in Toggle(Toggle(s, p), p) <==> p in s
    ensures p !in s ==> Toggle(Toggle(s, p), p) == s
    ensures p in s ==> Toggle(Toggle(s, p), p) == Without(s, p) + [p]
  {
    if p !in s {
      WithoutConcat(s, [p], p);
      WithoutAbsent(s, p);
      assert Without([p], p) == [];
    }
  }

  /** Toggling `p` changes neither the membership nor the count of any other name. */
  lemma ToggleFrame(s: seq<PatternName>, p: PatternName, q: PatternName)
    requires q != p
    ensures q in Toggle(s, p) <==> q in s
    ensures multiset(Toggle(s, p))[q] == multiset(s)[q]
  {
    WithoutMultiset(s, p);
  }

  /** A selection without duplicates stays without duplicates. */
  lemma ToggleKeepsNoDuplicates(s: seq<PatternName>, p: PatternName)
    requires NoDuplicates(s)
    ensures NoDuplicates(Toggle(s, p))
  {
    if p in s {
      WithoutKeepsNoDuplicates(s, p);
    }
  }
}
