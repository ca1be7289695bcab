/** The test Refresh uses to decide that a folder has not changed: the new listing has as many
    entries as the loaded one and contains every loaded file. */
module ChangeDetection {

  /** The new listing has as many entries as the loaded one and contains every loaded file. */
  predicate NoWorkToDo(before: seq<string>, after: seq<string>)
    ensures NoWorkToDo(before, after) <==> |before| == |after| && Members(before) <= Members(after)
  {
    assert forall i :: 0 <= i < |before| ==> before[i] in Members(before);
    |before| == |after| && forall i :: 0 <= i < |before| ==> before[i] in after
  }

  predicate Distinct(s: seq<string>) {
    forall i, j :: 0 <= i < j < |s| ==> s[i] != s[j]
  }

  function Members(s: seq<string>): set<string> {
    set f | f in s
  }

  lemma {:induction false} MembersAtMostLength(s: seq<string>)
    ensures |Members(s)| <= |s|
  {
    if s != [] {
      var init := s[..|s| - 1];
      MembersAtMostLength(init);
      assert Members(s) == Members(init) + {s[|s| - 1]};
    }
  }

  lemma {:induction false} DistinctMembersCount(s: seq<string>)
    requires Distinct(s)
    ensures |Members(s)| == |s|
  {
    if s != [] {
      var init := s[..|s| - 1];
      var last := s[|s| - 1];
      DistinctMembersCount(init);
      assert Members(s) == Members(init) + {last};
      assert forall k :: 0 <= k < |init| ==> init[k] != last by {
        forall k | 0 <= k < |init| ensures init[k] != last {
          assert init[k] == s[k];
        }
      }
      assert last !in Members(init);
    }
  }

  lemma SubsetOfSameSize(a: set<string>, b: set<string>)
    requires a <= b && |a| >= |b|
    ensures a == b
  {
    assert b == (b - a) + a;
    assert (b - a) * a == {};
    assert |b - a| + |a| == |b|;
    assert b - a == {};
  }

  /** When the loaded list has no duplicate entries (as a folder listing has none), the
      short-circuit holds exactly when the two listings have the same length and the same
      members, whatever their order. */
  lemma NoWorkToDoIsSetEquality(before: seq<string>, after: seq<string>)
    requires Distinct(before)
    ensures NoWorkToDo(before, after) <==> |before| == |after| && Members(before) == Members(after)
  {
    if NoWorkToDo(before, after) {
      assert Members(before) <= Members(after);
      DistinctMembersCount(before);
      MembersAtMostLength(after);
      SubsetOfSameSize(Members(before), Members(after));
    }
    if |before| == |after| && Members(before) == Members(after) {
      forall i | 0 <= i < |before| ensures before[i] in after {
        assert before[i] in Members(after);
      }
    }
  }

  /** With duplicates in the loaded list the short-circuit is weaker than set equality:
      `[a, a]` against `[a, b]` counts as unchanged although `b` is new. */
  lemma NoWorkToDoMissesNewFileWithDuplicates(a: string, b: string)
    requires a != b
    ensures NoWorkToDo([a, a], [a, b])
    ensures b in Members([a, b]) && b !in Members([a, a])
  {
  }
}
