/** The profile store: `profiles.json` in the extension's global storage
    directory, plus the `activeGitProfile` key of the extension's globalState.
    The file is an abstract document value; reading it fails exactly when it
    is `Unreadable`, while every write and removal takes its success as an
    input. */
module Store {
  import opened Profiles

  /** The `profiles` member of the parsed document: an array of profiles, or
      some other value (missing, an object, a string, ...). */
  datatype ProfilesField = ProfileArray(items: seq<Profile>) | NotAnArray

  /** The parsed document `{profiles, activeProfile?}`. */
  datatype Document = Document(profiles: ProfilesField, activeProfile: Option<Profile>)

  /** `profiles.json` as the store finds it: absent, present but failing to
      be read or parsed, or a parsed document. */
  datatype ProfilesFile = Missing | Unreadable | Parsed(doc: Document)

  /** The tree data provider of the extension, reduced to its persisted state. */
  class GitProfileProvider {
    /** The contents of `profiles.json`. */
    var file: ProfilesFile
    /** The globalState slot `activeGitProfile`. */
    var globalActive: Option<Profile>

    constructor (file: ProfilesFile, globalActive: Option<Profile>)
      ensures this.file == file && this.globalActive == globalActive
    {
      this.file := file;
      this.globalActive := globalActive;
    }

    /** The list a load of `profiles.json` yields. */
    function Profiles(): seq<Profile>
      reads this
    {
      if file.Parsed? && file.doc.profiles.ProfileArray? then file.doc.profiles.items else []
    }

    /** The active profile: the file's `activeProfile` when it can be read
        and has one, otherwise the globalState slot. */
    function ActiveProfile(): Option<Profile>
      reads this
    {
      if file.Parsed? && file.doc.activeProfile.Some? then file.doc.activeProfile else globalActive
    }

    /** Loads the list. Empty when the file is missing, cannot be read or
        parsed, or its `profiles` member is no array; otherwise the stored
        list as it is. Only a failed read or parse raises the error message. */
    method GetProfiles() returns (profiles: seq<Profile>, loadError: bool)
      ensures file.Missing? || file.Unreadable? ==> profiles == []
      ensures file.Parsed? && file.doc.profiles.NotAnArray? ==> profiles == []
      ensures file.Parsed? && file.doc.profiles.ProfileArray? ==> profiles == file.doc.profiles.items
      ensures loadError <==> file.Unreadable?
      ensures profiles == Profiles()
    {
      profiles, loadError := [], false;
      match file {
        case Missing =>
        case Unreadable =>
          loadError := true;
        case Parsed(doc) =>
          if doc.profiles.ProfileArray? {
            profiles := doc.profiles.items;
          }
      }
    }

    /** Reads the active profile: the file first, the globalState slot as
        fallback whenever the file is missing, unreadable, or has no
        `activeProfile`. */
    method GetActiveProfile() returns (active: Option<Profile>)
      ensures file.Parsed? && file.doc.activeProfile.Some? ==> active == file.doc.activeProfile
      ensures !(file.Parsed? && file.doc.activeProfile.Some?) ==> active == globalActive
      ensures active == ActiveProfile()
    {
      active := globalActive;
      if file.Parsed? && file.doc.activeProfile.Some? {
        active := file.doc.activeProfile;
      }
    }

    /** Rewrites the file with `profiles` and, as its active profile, whatever
        the active profile was just before the write (possibly the globalState
        fallback, which the file then pins). A failed write leaves the file
        as it was and raises the error message. */
    method SaveProfiles(profiles: seq<Profile>, writeOk: bool) returns (saveError: bool)
      modifies this
      ensures saveError <==> !writeOk
      ensures globalActive == old(globalActive)
      ensures writeOk ==> file == Parsed(Document(ProfileArray(profiles), old(ActiveProfile())))
      ensures !writeOk ==> file == old(file)
      ensures writeOk ==> Profiles() == profiles
      ensures ActiveProfile() == old(ActiveProfile())
    {
      var active := GetActiveProfile();
      if writeOk {
        file := Parsed(Document(ProfileArray(profiles), active));
      }
      saveError := !writeOk;
    }

    /** Selects `p`: the globalState slot is set unconditionally, then the
        file is rewritten with the list it held (empty when it was missing
        or unreadable) and `p` as its active profile. `p` need not be in the
        list. If that write fails, a stale `activeProfile` in the file still
        takes precedence over the new globalState value. */
    method SetActiveProfile(p: Profile, writeOk: bool)
      modifies this
      ensures globalActive == Some(p)
      ensures writeOk ==> file == Parsed(Document(ProfileArray(old(Profiles())), Some(p)))
      ensures !writeOk ==> file == old(file)
      ensures Profiles() == old(Profiles())
      ensures writeOk ==> ActiveProfile() == Some(p)
      ensures !writeOk && old(file).Parsed? && old(file).doc.activeProfile.Some? ==>
                ActiveProfile() == old(file).doc.activeProfile
      ensures !writeOk && !(old(file).Parsed? && old(file).doc.activeProfile.Some?) ==>
                ActiveProfile() == Some(p)
    {
      globalActive := Some(p);
      var profiles, _ := GetProfiles();
      if writeOk {
        file := Parsed(Document(ProfileArray(profiles), Some(p)));
      }
    }

    /** Removes `profiles.json` if it exists. The globalState slot is left
        alone, so afterwards the active profile is whatever was last
        selected. A failed removal keeps the file and raises the error
        message. */
    method DeleteAllProfiles(unlinkOk: bool) returns (deleteError: bool)
      modifies this
      ensures deleteError <==> !old(file).Missing? && !unlinkOk
      ensures globalActive == old(globalActive)
      ensures deleteError ==> file == old(file)
      ensures !deleteError ==> file == Missing
      ensures !deleteError ==> Profiles() == [] && ActiveProfile() == globalActive
    {
      deleteError := false;
      if !file.Missing? {
        if unlinkOk {
          file := Missing;
        } else {
          deleteError := true;
        }
      }
    }
  }
}
