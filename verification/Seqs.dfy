// Small facts about sequences of names that several parts of the model share.
module Seqs {

  // No name occurs twice.
  ghost predicate Distinct(s: seq<string>) {
    forall j, k :: 0 <= j < k < |s| ==> s[j] != s[k]
  }

  // A list of distinct names drawn from a set is no longer than the set is large.
  lemma {:induction false} DistinctFits(s: seq<string>, names: set<string>)
    requires Distinct(s)
    requires forall x :: x in s ==> x in names
    ensures |s| <= |names|
  {
    if s == [] {
    } else {
      var last := |s| - 1;
      forall x | x in s[..last] ensures x in names - {s[last]} {}
      DistinctFits(s[..last], names - {s[last]});
    }
  }

  // A list of distinct names as long as the set it is drawn from lists the whole set.
  lemma {:induction false} DistinctCovers(s: seq<string>, names: set<string>)
    requires Distinct(s)
    requires forall x :: x in s ==> x in names
    requires |s| >= |names|
    ensures forall x :: x in names ==> x in s
  {
    if x :| x in names && x !in s {
      DistinctFits(s, names - {x});
    }
  }

  // A set all of whose members are listed is no larger than the list is long.
  lemma {:induction false} CoverSize(s: seq<string>, names: set<string>)
    requires forall x :: x in names ==> x in s
    ensures |names| <= |s|
    decreases |s|
  {
    if s == [] {
      assert names == {};
    } else {
      var last := s[|s| - 1];
      CoverSize(s[..|s| - 1], names - {last});
      assert names <= (names - {last}) + {last};
      if last in names { assert names == (names - {last}) + {last}; } else { assert names == names - {last}; }
    }
  }

  // A list no longer than the set it covers lists each member exactly once, and nothing else.
  lemma {:induction false} TightCover(s: seq<string>, names: set<string>)
    requires forall x :: x in names ==> x in s
    requires |s| <= |names|
    ensures Distinct(s) && forall x :: x in s ==> x in names
    decreases |s|
  {
    if s != [] {
      var n := |s| - 1;
      if s[n] !in names || s[n] in s[..n] {
        CoverSize(s[..n], names);
      }
      TightCover(s[..n], names - {s[n]});
      forall j, k | 0 <= j < k < |s| ensures s[j] != s[k] {
        if k < n { assert s[..n][j] == s[j] && s[..n][k] == s[k]; } else { assert s[..n][j] == s[j]; }
      }
      assert forall x :: x in s ==> x in s[..n] || x == s[n];
    }
  }
}
