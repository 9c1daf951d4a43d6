/** The list edits the edit and delete commands perform on a loaded profile
    list: a linear search for the first entry whose three fields equal the
    target, then an update or a splice at that index. `ReplaceFirst` and
    `RemoveFirst` are reference definitions written independently of the
    index arithmetic; the lemmas connect the two. */
module ProfileList {
  import opened Profiles

  /** `i` is the first index at which `profiles` holds `target`. */
  ghost predicate IsFirstMatch(profiles: seq<Profile>, target: Profile, i: int) {
    0 <= i < |profiles| && SameProfile(profiles[i], target) &&
    forall j :: 0 <= j < i ==> !SameProfile(profiles[j], target)
  }

  /** The `findIndex` search: the first index whose entry matches `target`
      on all three fields, or -1 when no entry does. */
  method FindIndex(profiles: seq<Profile>, target: Profile) returns (idx: int)
    ensures idx == -1 <==> target !in profiles
    ensures idx != -1 ==> IsFirstMatch(profiles, target, idx)
  {
    idx := 0;
    while idx < |profiles|
      invariant 0 <= idx <= |profiles|
      invariant forall j :: 0 <= j < idx ==> profiles[j] != target
    {
      if SameProfile(profiles[idx], target) {
        return;
      }
      idx := idx + 1;
    }
    idx := -1;
  }

  /** `profiles` with its first entry equal to `target` replaced by
      `replacement`; unchanged when there is none. */
  function ReplaceFirst(profiles: seq<Profile>, target: Profile, replacement: Profile): (r: seq<Profile>)
    ensures |r| == |profiles|
    ensures target !in profiles ==> r == profiles
    ensures target in profiles ==> replacement in r
  {
    if profiles == [] then []
    else if SameProfile(profiles[0], target) then [replacement] + profiles[1..]
    else [profiles[0]] + ReplaceFirst(profiles[1..], target, replacement)
  }

  /** `profiles` without its first entry equal to `target`; unchanged when
      there is none. */
  function RemoveFirst(profiles: seq<Profile>, target: Profile): (r: seq<Profile>)
    ensures target !in profiles ==> r == profiles
    ensures target in profiles ==> |r| == |profiles| - 1
  {
    if profiles == [] then []
    else if SameProfile(profiles[0], target) then profiles[1..]
    else [profiles[0]] + RemoveFirst(profiles[1..], target)
  }

  /** Removal takes away exactly one occurrence of `target`, when there is
      one, and leaves every other entry's count alone. */
  lemma {:induction false} RemoveFirstMultiset(profiles: seq<Profile>, target: Profile)
    ensures multiset(RemoveFirst(profiles, target)) == multiset(profiles) - multiset{target}
  {
    if profiles != [] {
      assert profiles == [profiles[0]] + profiles[1..];
      if !SameProfile(profiles[0], target) {
        RemoveFirstMultiset(profiles[1..], target);
      }
    }
  }

  /** A first match past the head is a first match of the tail. */
  lemma FirstMatchInTail(profiles: seq<Profile>, target: Profile, i: int)
    requires IsFirstMatch(profiles, target, i) && i > 0
    ensures IsFirstMatch(profiles[1..], target, i - 1)
  {
  }

  /** Assigning at the index `findIndex` returns is the reference edit. */
  lemma {:induction false} UpdateAtFirstMatch(profiles: seq<Profile>, target: Profile, replacement: Profile, i: int)
    requires IsFirstMatch(profiles, target, i)
    ensures profiles[i := replacement] == ReplaceFirst(profiles, target, replacement)
  {
    if i == 0 {
      assert profiles[0 := replacement] == [replacement] + profiles[1..];
    } else {
      var tail := profiles[1..];
      FirstMatchInTail(profiles, target, i);
      UpdateAtFirstMatch(tail, target, replacement, i - 1);
      assert profiles[i := replacement] == [profiles[0]] + tail[i - 1 := replacement];
    }
  }

  /** Splicing out the entry at the index `findIndex` returns is the
      reference removal. */
  lemma {:induction false} SpliceAtFirstMatch(profiles: seq<Profile>, target: Profile, i: int)
    requires IsFirstMatch(profiles, target, i)
    ensures profiles[..i] + profiles[i + 1..] == RemoveFirst(profiles, target)
  {
    if i == 0 {
      assert profiles[..0] + profiles[1..] == profiles[1..];
    } else {
      var tail := profiles[1..];
      FirstMatchInTail(profiles, target, i);
      SpliceAtFirstMatch(tail, target, i - 1);
      calc {
        profiles[..i] + profiles[i + 1..];
        { assert profiles[..i] == [profiles[0]] + tail[..i - 1];
          assert profiles[i + 1..] == tail[i..]; }
        [profiles[0]] + (tail[..i - 1] + tail[i..]);
        [profiles[0]] + RemoveFirst(tail, target);
      }
    }
  }

  /** An edit touches the first match and no other slot, even when later
      entries are duplicates of the target. */
  lemma ReplaceFirstChangesOnlyFirstMatch(profiles: seq<Profile>, target: Profile, replacement: Profile, i: int)
    requires IsFirstMatch(profiles, target, i)
    ensures ReplaceFirst(profiles, target, replacement)[i] == replacement
    ensures forall j :: 0 <= j < |profiles| && j != i ==>
              ReplaceFirst(profiles, target, replacement)[j] == profiles[j]
  {
    UpdateAtFirstMatch(profiles, target, replacement, i);
  }

  /** A delete removes the first match and keeps every other entry in its
      original order: those before it in place, those after it shifted down
      by one. */
  lemma RemoveFirstKeepsOthersInOrder(profiles: seq<Profile>, target: Profile, i: int)
    requires IsFirstMatch(profiles, target, i)
    ensures |RemoveFirst(profiles, target)| == |profiles| - 1
    ensures forall j :: 0 <= j < i ==> RemoveFirst(profiles, target)[j] == profiles[j]
    ensures forall j :: i <= j < |profiles| - 1 ==> RemoveFirst(profiles, target)[j] == profiles[j + 1]
  {
    SpliceAtFirstMatch(profiles, target, i);
  }

  /** With a duplicate present, deleting the target still leaves a copy of it. */
  lemma DuplicateSurvivesRemoval(profiles: seq<Profile>, target: Profile, i: int, j: int)
    requires 0 <= i < j < |profiles|
    requires profiles[i] == target && profiles[j] == target
    ensures target in RemoveFirst(profiles, target)
  {
    assert profiles == profiles[..j] + profiles[j..];
    assert profiles[..j][i] == target;
    assert profiles[j..][0] == target;
    assert multiset(profiles)[target] == multiset(profiles[..j])[target] + multiset(profiles[j..])[target];
    RemoveFirstMultiset(profiles, target);
    assert multiset(RemoveFirst(profiles, target))[target] >= 1;
  }
}
