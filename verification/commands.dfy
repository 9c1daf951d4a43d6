/** The extension's commands as operations on a provider. A modal
    confirmation is a boolean input (true when "Löschen" was chosen), an
    input box's answer is an optional string, and each write or removal
    takes its success as an input. */
module Commands {
  import opened Profiles
  import opened ProfileList
  import opened Store
  import opened GitSteps

  /** An input box answer the command accepts: given (not cancelled) and
      not empty. */
  predicate Entered(answer: Option<string>) {
    answer.Some? && answer.value != ""
  }

  /** Deletes the whole profiles file, active profile included: removes the
      file if it exists, then clears the globalState slot. A failed removal
      skips the clearing. */
  method DeleteProfilesFile(provider: GitProfileProvider, confirmed: bool, unlinkOk: bool) returns (failed: bool)
    modifies provider
    ensures failed <==> confirmed && !old(provider.file).Missing? && !unlinkOk
    ensures !confirmed || failed ==> provider.file == old(provider.file) && provider.globalActive == old(provider.globalActive)
    ensures confirmed && !failed ==> provider.file == Missing && provider.globalActive == None
    ensures confirmed && !failed ==> provider.Profiles() == [] && provider.ActiveProfile() == None
  {
    failed := false;
    if !confirmed {
      return;
    }
    if !provider.file.Missing? {
      if unlinkOk {
        provider.file := Missing;
      } else {
        failed := true;
        return;
      }
    }
    provider.globalActive := None;
  }

  /** Deletes all profiles after confirmation, through the provider, which
      leaves the globalState slot alone. A failed removal keeps the file and
      raises the provider's error. */
  method DeleteAllProfiles(provider: GitProfileProvider, confirmed: bool, unlinkOk: bool) returns (deleteError: bool)
    modifies provider
    ensures deleteError <==> confirmed && !old(provider.file).Missing? && !unlinkOk
    ensures provider.globalActive == old(provider.globalActive)
    ensures !confirmed ==> provider.file == old(provider.file)
    ensures confirmed && (unlinkOk || old(provider.file).Missing?) ==> provider.file == Missing
    ensures confirmed && (unlinkOk || old(provider.file).Missing?) ==>
              provider.Profiles() == [] && provider.ActiveProfile() == old(provider.globalActive)
    ensures confirmed && !unlinkOk ==> provider.file == old(provider.file)
  {
    deleteError := false;
    if confirmed {
      deleteError := provider.DeleteAllProfiles(unlinkOk);
    }
  }

  /** Adds a profile: only when all three answers are entered, and then the
      new profile is appended at the end of the loaded list, the active
      profile staying as it was. */
  method AddProfile(provider: GitProfileProvider, name: Option<string>, email: Option<string>, user: Option<string>,
                    writeOk: bool) returns (added: bool)
    modifies provider
    ensures added <==> Entered(name) && Entered(email) && Entered(user)
    ensures provider.globalActive == old(provider.globalActive)
    ensures provider.ActiveProfile() == old(provider.ActiveProfile())
    ensures !added || !writeOk ==> provider.file == old(provider.file)
    ensures added && writeOk ==>
              provider.Profiles() == old(provider.Profiles()) + [Profile(name.value, email.value, user.value)]
    ensures added && writeOk ==>
              provider.file == Parsed(Document(ProfileArray(old(provider.Profiles()) + [Profile(name.value, email.value, user.value)]),
                                               old(provider.ActiveProfile())))
  {
    added := Entered(name) && Entered(email) && Entered(user);
    if added {
      var profiles, _ := provider.GetProfiles();
      profiles := profiles + [Profile(name.value, email.value, user.value)];
      var _ := provider.SaveProfiles(profiles, writeOk);
    }
  }

  /** Edits `item`: when all three answers are entered and some entry equals
      `item`, the first such entry is replaced by the answers and nothing
      else changes; otherwise nothing is saved. The active profile is not
      updated, even when it was the edited one. */
  method EditProfile(provider: GitProfileProvider, item: Profile,
                     name: Option<string>, email: Option<string>, user: Option<string>,
                     writeOk: bool) returns (edited: bool)
    modifies provider
    ensures edited <==> Entered(name) && Entered(email) && Entered(user) && item in old(provider.Profiles())
    ensures provider.globalActive == old(provider.globalActive)
    ensures provider.ActiveProfile() == old(provider.ActiveProfile())
    ensures !edited || !writeOk ==> provider.file == old(provider.file)
    ensures edited && writeOk ==>
              provider.Profiles() == ReplaceFirst(old(provider.Profiles()), item, Profile(name.value, email.value, user.value))
    ensures edited && writeOk ==>
              provider.file == Parsed(Document(ProfileArray(ReplaceFirst(old(provider.Profiles()), item, Profile(name.value, email.value, user.value))),
                                               old(provider.ActiveProfile())))
  {
    edited := false;
    if Entered(name) && Entered(email) && Entered(user) {
      var profiles, _ := provider.GetProfiles();
      var idx := FindIndex(profiles, item);
      if idx != -1 {
        UpdateAtFirstMatch(profiles, item, Profile(name.value, email.value, user.value), idx);
        profiles := profiles[idx := Profile(name.value, email.value, user.value)];
        var _ := provider.SaveProfiles(profiles, writeOk);
        edited := true;
      }
    }
  }

  /** Deletes `item` after confirmation: the first entry equal to it is
      spliced out, the rest keep their order; when no entry matches nothing
      is saved. The active profile is left as it was, even when it is the
      deleted one. */
  method DeleteProfile(provider: GitProfileProvider, item: Profile, confirmed: bool, writeOk: bool) returns (deleted: bool)
    modifies provider
    ensures deleted <==> confirmed && item in old(provider.Profiles())
    ensures provider.globalActive == old(provider.globalActive)
    ensures provider.ActiveProfile() == old(provider.ActiveProfile())
    ensures !deleted || !writeOk ==> provider.file == old(provider.file)
    ensures deleted && writeOk ==> provider.Profiles() == RemoveFirst(old(provider.Profiles()), item)
    ensures deleted && writeOk ==>
              provider.file == Parsed(Document(ProfileArray(RemoveFirst(old(provider.Profiles()), item)), old(provider.ActiveProfile())))
  {
    deleted := false;
    if !confirmed {
      return;
    }
    var profiles, _ := provider.GetProfiles();
    var idx := FindIndex(profiles, item);
    if idx != -1 {
      SpliceAtFirstMatch(profiles, item, idx);
      profiles := profiles[..idx] + profiles[idx + 1..];
      var _ := provider.SaveProfiles(profiles, writeOk);
      deleted := true;
    }
  }

  /** Selects `item` as the active profile, whether or not it is in the
      list. A failed write leaves the file as it was, so an `activeProfile`
      already in the file keeps taking precedence over the new globalState
      value. */
  method SelectProfile(provider: GitProfileProvider, item: Profile, writeOk: bool)
    modifies provider
    ensures provider.globalActive == Some(item)
    ensures provider.Profiles() == old(provider.Profiles())
    ensures writeOk ==> provider.file == Parsed(Document(ProfileArray(old(provider.Profiles())), Some(item)))
    ensures !writeOk ==> provider.file == old(provider.file)
    ensures writeOk ==> provider.ActiveProfile() == Some(item)
    ensures !writeOk && old(provider.file).Parsed? && old(provider.file).doc.activeProfile.Some? ==>
              provider.ActiveProfile() == old(provider.file).doc.activeProfile
    ensures !writeOk && !(old(provider.file).Parsed? && old(provider.file).doc.activeProfile.Some?) ==>
              provider.ActiveProfile() == Some(item)
  {
    provider.SetActiveProfile(item, writeOk);
  }

  /** Initialise with profile, using the active profile the store reports. */
  method InitWithProfile(provider: GitProfileProvider, folders: seq<string>, succeeds: Invocation -> bool) returns (r: Run)
    ensures r == InitPlan(provider.ActiveProfile(), folders, succeeds)
  {
    var active := provider.GetActiveProfile();
    r := InitPlan(active, folders, succeeds);
  }

  /** Apply profile, using the active profile the store reports. */
  method ApplyProfile(provider: GitProfileProvider, folders: seq<string>, succeeds: Invocation -> bool) returns (r: Run)
    ensures r == ApplyPlan(provider.ActiveProfile(), folders, succeeds)
  {
    var active := provider.GetActiveProfile();
    r := ApplyPlan(active, folders, succeeds);
  }

  /** The two wipe commands differ in what they forget: after selecting `p`,
      deleting all profiles still reports `p` as active (from globalState),
      while deleting the profiles file reports no active profile at all. */
  method WipeAfterSelect(p: Profile, file: ProfilesFile, globalActive: Option<Profile>)
    returns (afterDeleteAll: Option<Profile>, afterDeleteFile: Option<Profile>)
    ensures afterDeleteAll == Some(p)
    ensures afterDeleteFile == None
  {
    var first := new GitProfileProvider(file, globalActive);
    SelectProfile(first, p, true);
    var _ := DeleteAllProfiles(first, true, true);
    afterDeleteAll := first.GetActiveProfile();

    var second := new GitProfileProvider(file, globalActive);
    SelectProfile(second, p, true);
    var _ := DeleteProfilesFile(second, true, true);
    afterDeleteFile := second.GetActiveProfile();
  }
}
