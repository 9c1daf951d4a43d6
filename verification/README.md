# git-profile-picker: the profile store and its commands, in Dafny

The VS Code extension *git-profile-picker* keeps a list of git identity
profiles (`name`, `email`, `user`) in `profiles.json` under the extension's
global storage directory. It also keeps an active profile, which is written to
that file and to the extension's globalState key `activeGitProfile`. Its
commands add, edit, delete and select profiles. Three further commands
initialise a repository with the active profile, apply the active profile to
an existing repository, or de-initialise a repository.

This project models that core from `src/extension.ts`:

- `profile.dfy` (module `Profiles`): the `Profile` record, the
  three-field equality that serves as profile identity, and the tree item's
  "active" check mark.
- `profile_list.dfy` (module `ProfileList`): the `findIndex` search as a loop
  (`FindIndex`), and reference definitions of "replace the first match"
  (`ReplaceFirst`) and "remove the first match" (`RemoveFirst`). Lemmas show
  that index assignment and `splice` at the found index equal those
  definitions. Further lemmas state what the edits keep.
- `store.dfy` (module `Store`): class `GitProfileProvider`. Its two fields are
  the persisted state: `file`, the contents of `profiles.json` as an abstract
  document, and `globalActive`, the globalState slot. The file is `Missing`,
  `Unreadable` (reading or parsing fails) or `Parsed`. A parsed document's
  `profiles` member may be something other than an array. The methods are the
  provider's store operations, each with its read-back properties.
- `git_steps.dfy` (module `GitSteps`): the three git commands as pure plans.
  Each plan returns the ordered invocations issued and the outcome. The
  success of each invocation is an input. A chain stops at its first failure.
- `commands.dfy` (module `Commands`): the command handlers as methods on a
  provider.

Inputs that stand in for the host:

- A modal confirmation is a boolean.
- An input box answer is `Option<string>`. `None` is a cancelled box. A
  command accepts an answer only when it is present and non-empty, as the
  JavaScript truthiness test does.
- `workspaceFolders` is a sequence of folder paths. "Undefined" and "empty"
  are both the empty sequence.
- Every file write, file removal and `.git` removal takes its success as a
  boolean. A failed write or removal leaves the file as it was.

Three behaviours of `src/extension.ts` worth noting:

- Deleting all profiles removes the file; it does not write an empty list.
  The globalState slot survives, and the active profile with it.
- Only a failing `git init` reports the process's error output. A failing
  `config` step reports a fixed message. The model records only which step
  failed.
- Edit and delete never touch the active profile. Editing or deleting the
  active entry leaves the old value active.

## Model

| member | source | states |
|---|---|---|
| Profiles.SameProfile | src/extension.ts:21-26 | the field-by-field comparison holds exactly when the two profiles are equal values, so duplicates are indistinguishable |
| Profiles.ShowsActiveMark | src/extension.ts:21-30 | an item gets the check mark iff an active profile exists and equals the item's profile |
| Profiles.ActiveMarks | src/extension.ts:47-51 | one mark per listed profile, in order, set exactly on the entries equal to the active profile (every duplicate included) |
| ProfileList.FindIndex | src/extension.ts:194 | returns -1 iff no entry matches the target; otherwise the index of the first entry matching on all three fields |
| ProfileList.ReplaceFirst | src/extension.ts:193-196 | the edit keeps the length, leaves the list unchanged when the target is absent, and puts the replacement in when it is present |
| ProfileList.RemoveFirst | src/extension.ts:215-222 | the delete leaves the list unchanged when the target is absent and makes it one entry shorter when it is present |
| ProfileList.RemoveFirstMultiset | src/extension.ts:215-222 | the delete removes exactly one occurrence of the target (multiset difference) and leaves every other entry's count alone |
| ProfileList.UpdateAtFirstMatch | src/extension.ts:194-196 | assigning at the index `findIndex` returns equals the reference first-match edit |
| ProfileList.SpliceAtFirstMatch | src/extension.ts:216-222 | `splice(idx, 1)` at the index `findIndex` returns equals the reference first-match removal |
| ProfileList.ReplaceFirstChangesOnlyFirstMatch | src/extension.ts:194-196 | an edit changes the first matching slot and no other, later duplicates included |
| ProfileList.RemoveFirstKeepsOthersInOrder | src/extension.ts:216-222 | a delete shortens the list by one, keeps entries before the match in place and shifts those after it down by one |
| ProfileList.DuplicateSurvivesRemoval | src/extension.ts:216-222 | when the target occurs twice, a copy of it remains after the delete |
| Store.GitProfileProvider.constructor | src/extension.ts:39-41 | a provider starts over the given file contents and globalState slot |
| Store.GitProfileProvider.GetProfiles | src/extension.ts:58-69 | empty when the file is missing, unreadable, or its `profiles` member is no array; otherwise the stored list unchanged; only a failed read or parse raises the error |
| Store.GitProfileProvider.GetActiveProfile | src/extension.ts:101-111 | the file's `activeProfile` when the file parses and has one; the globalState slot, possibly absent, in every other case |
| Store.GitProfileProvider.SaveProfiles | src/extension.ts:71-80 | after a successful write the list reads back as exactly the saved one; the file pins the active profile read just before the write, so the active profile is the same before and after; globalState untouched; a failed write changes nothing and raises the error |
| Store.GitProfileProvider.SetActiveProfile | src/extension.ts:82-99 | globalState becomes `p`; the list is kept (reset to empty if the file was missing or unreadable); after a successful write the active profile is `p`; after a failed write a stale file `activeProfile` still wins |
| Store.GitProfileProvider.DeleteAllProfiles | src/extension.ts:113-122 | removes the file, so the list reads empty and the active profile falls back to the untouched globalState slot; a failed removal keeps the file and raises the error |
| GitSteps.Chain | src/extension.ts:253-273 | issues a prefix of the steps in order; completes iff every step succeeds; otherwise stops at the first failing step, the last one issued, after only successful ones; when step k is the first to fail, exactly steps 0..k are issued and the run fails at step k |
| GitSteps.InitPlan | src/extension.ts:238-273 | aborts with no step issued without an active profile, then without a workspace; otherwise issues a non-empty prefix of `init`, `user.name` (profile's `user`), `user.email` in the first folder, completes iff all three succeed, and otherwise fails at the last step issued, all earlier ones having succeeded; the exact run is given for each first failing step |
| GitSteps.ApplyPlan | src/extension.ts:301-327 | the same aborts; otherwise issues a non-empty prefix of `user.name`, `user.email` in the first folder, completes iff both succeed, and otherwise fails at the last step issued, all earlier ones having succeeded; the exact run is given for each first failing step |
| GitSteps.InitThenApply | src/extension.ts:253-273 | after a successful `git init`, and with every step's result the same in both runs, initialising issues `init` plus the steps applying would issue and ends the same way |
| GitSteps.DeinitPlan | src/extension.ts:279-296 | removal is attempted iff a workspace is open and `.git` exists; without an attempt `.git` is unchanged; "nothing found" exactly when the folder has no `.git`; success removes it |
| Commands.DeleteProfilesFile | src/extension.ts:130-152 | after confirmation and a successful (or unneeded) removal the file is gone and globalState cleared, so the list is empty and no profile is active; a failed removal keeps the file, skips clearing globalState and is reported; without confirmation nothing changes |
| Commands.DeleteAllProfiles | src/extension.ts:155-168 | globalState is never touched; after confirmation and a successful (or unneeded) removal the file is gone, so the list reads empty and the active profile is the globalState value; a failed removal keeps the file and is reported as an error |
| Commands.AddProfile | src/extension.ts:171-183 | the profile is taken iff all three answers are non-empty; after a successful write the file holds the old list with exactly one `{name, email, user}` appended and the previous active profile; with an answer missing or a failed write the file is unchanged; the active profile never changes |
| Commands.EditProfile | src/extension.ts:186-202 | edits iff all answers are non-empty and the target is in the list; after a successful write the file holds the first-match replacement and the previous active profile; otherwise the file is unchanged; the active profile is left as it was |
| Commands.DeleteProfile | src/extension.ts:205-227 | deletes iff confirmed and the target is in the list; after a successful write the file holds the first-match removal and the previous active profile; otherwise the file is unchanged; the active profile survives even if it was deleted |
| Commands.SelectProfile | src/extension.ts:230-235 | globalState becomes the item and the list is kept, with no membership check; a successful write stores the old list with the item as active profile, so the item is active; a failed write leaves the file as it was, and an `activeProfile` already in it still wins |
| Commands.InitWithProfile | src/extension.ts:238-250 | runs the init plan on the active profile the store reports (file first, globalState fallback) |
| Commands.ApplyProfile | src/extension.ts:300-312 | runs the apply plan on the active profile the store reports |
| Commands.WipeAfterSelect | src/extension.ts:129-168 | after selecting `p`, deleting all profiles still reports `p` active, while deleting the profiles file reports none |

## Left out

- The user interface: tree rendering (`getTreeItem`, labels, descriptions,
  icons, tooltips), the change event and `refresh`, input boxes, modal
  dialogs, the two quick-pick menus `showActions` and `itemActions`, and the
  text of every message. Error messages appear only as result flags
  (`loadError`, `saveError`, `deleteError`, `failed`).
- JSON text and the file system: `profiles.json` is an abstract document
  value. Entries of the `profiles` array that are not well-formed profiles,
  and truthy `activeProfile` values that are not profiles, are not modelled.
  A write that fails half-way and leaves a truncated file is not modelled: a
  failed write leaves the file as it was. A failing `mkdirSync` counts as a
  failed write.
- `child_process.exec`: command-line construction, shell quoting of the
  interpolated values, and captured output. Each invocation is a value whose
  success is an input.
- `fs.rmSync` on `.git` is reduced to "`.git` exists" and "removal
  succeeded". A failed removal is taken to leave `.git` in place.
- Asynchrony: callbacks, the un-awaited `globalState.update` (taken to take
  effect at once), and commands re-triggered while a chain is running.
- `activate` and `deactivate` registration glue.
- Commands.EditProfile, Commands.DeleteProfile, Commands.SelectProfile: these
  commands read `item.profile` and throw when invoked without a tree item;
  the model's `item: Profile` is always present, so that failure is not
  modelled.
