/** Git identity profiles and the field-by-field comparison that the extension
    uses as profile identity (there is no separate key). */
module Profiles {

  /** A value that may be missing (`undefined` in the extension). */
  datatype Option<T> = None | Some(value: T)

  /** A git identity: a display name, an e-mail address, and the value that
      is written to git's `user.name` (the `user` field, not `name`). */
  datatype Profile = Profile(name: string, email: string, user: string)

  /** The comparison the extension spells out field by field: name, e-mail
      and user all equal. Profiles carry nothing else, so this is exactly
      value equality, and two duplicate entries cannot be told apart. */
  function SameProfile(a: Profile, b: Profile): (r: bool)
    ensures r <==> a == b
  {
    a.name == b.name && a.email == b.email && a.user == b.user
  }

  /** Whether the tree item for `p` carries the "active" check mark: only
      when an active profile exists and all three fields agree with it. */
  function ShowsActiveMark(p: Profile, active: Option<Profile>): (r: bool)
    ensures r <==> active == Some(p)
  {
    active.Some? && SameProfile(p, active.value)
  }

  /** The marks of the items listed for `profiles`, one per entry, in order. */
  function ActiveMarks(profiles: seq<Profile>, active: Option<Profile>): (marks: seq<bool>)
    ensures |marks| == |profiles|
    ensures forall i :: 0 <= i < |profiles| ==> (marks[i] <==> active == Some(profiles[i]))
  {
    seq(|profiles|, i requires 0 <= i < |profiles| => ShowsActiveMark(profiles[i], active))
  }
}
