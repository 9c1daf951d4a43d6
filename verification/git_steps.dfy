/** The git commands as plans: which `git` invocations a command issues, in
    which order, and how it ends. Each invocation's success is an input (the
    process itself is outside the model); a chain stops at its first failing
    step. */
module GitSteps {
  import opened Profiles

  /** The three git command lines the extension runs. */
  datatype GitCommand = Init | ConfigUserName(value: string) | ConfigUserEmail(value: string)

  /** One process invocation: a git command run in a working directory. */
  datatype Invocation = Invocation(cwd: string, command: GitCommand)

  /** How a git command ends: aborted before any step, all steps done, or
      stopped at the step that failed. */
  datatype Outcome = NoActiveProfile | NoWorkspace | Completed | FailedAt(step: Invocation)

  /** The invocations issued, in order, and the outcome. */
  datatype Run = Run(attempted: seq<Invocation>, outcome: Outcome)

  /** Runs `steps` one after the other, each only once the one before has
      succeeded. */
  function Chain(steps: seq<Invocation>, succeeds: Invocation -> bool): (r: Run)
    ensures r.outcome.Completed? || r.outcome.FailedAt?
    ensures r.attempted <= steps
    ensures r.outcome.Completed? <==> forall i :: 0 <= i < |steps| ==> succeeds(steps[i])
    ensures r.outcome.Completed? ==> r.attempted == steps
    ensures r.outcome.FailedAt? ==>
              |r.attempted| > 0 && r.outcome.step == r.attempted[|r.attempted| - 1] &&
              !succeeds(r.outcome.step) &&
              forall i :: 0 <= i < |r.attempted| - 1 ==> succeeds(r.attempted[i])
    ensures forall k :: 0 <= k < |steps| && !succeeds(steps[k]) && (forall j :: 0 <= j < k ==> succeeds(steps[j])) ==>
              r == Run(steps[..k + 1], FailedAt(steps[k]))
  {
    if steps == [] then Run([], Completed)
    else if !succeeds(steps[0]) then Run([steps[0]], FailedAt(steps[0]))
    else
      var rest := Chain(steps[1..], succeeds);
      Run([steps[0]] + rest.attempted, rest.outcome)
  }

  /** The two configuration steps for `p` in `cwd`: `user.name` takes the
      profile's `user` field, `user.email` its `email` field. */
  function ConfigSteps(cwd: string, p: Profile): seq<Invocation> {
    [Invocation(cwd, ConfigUserName(p.user)), Invocation(cwd, ConfigUserEmail(p.email))]
  }

  /** Initialise with profile: without an active profile, or without an open
      workspace folder (checked in that order), nothing is issued; otherwise
      `git init`, then `user.name`, then `user.email`, all in the first
      workspace folder, stopping at the first failure. */
  function InitPlan(active: Option<Profile>, folders: seq<string>, succeeds: Invocation -> bool): (r: Run)
    ensures active.None? ==> r == Run([], NoActiveProfile)
    ensures active.Some? && folders == [] ==> r == Run([], NoWorkspace)
    ensures active.Some? && folders != [] ==>
              var steps := [Invocation(folders[0], Init)] + ConfigSteps(folders[0], active.value);
              r.attempted != [] && r.attempted <= steps &&
              (r.outcome.Completed? <==> forall i :: 0 <= i < 3 ==> succeeds(steps[i]))
    ensures active.Some? && folders != [] ==> r.outcome.Completed? || r.outcome.FailedAt?
    ensures active.Some? && folders != [] && r.outcome.FailedAt? ==>
              r.outcome.step == r.attempted[|r.attempted| - 1] && !succeeds(r.outcome.step) &&
              forall i :: 0 <= i < |r.attempted| - 1 ==> succeeds(r.attempted[i])
    ensures active.Some? && folders != [] ==>
              var init := Invocation(folders[0], Init);
              var name := Invocation(folders[0], ConfigUserName(active.value.user));
              var email := Invocation(folders[0], ConfigUserEmail(active.value.email));
              r == if !succeeds(init) then Run([init], FailedAt(init))
                   else if !succeeds(name) then Run([init, name], FailedAt(name))
                   else if !succeeds(email) then Run([init, name, email], FailedAt(email))
                   else Run([init, name, email], Completed)
  {
    if active.None? then Run([], NoActiveProfile)
    else if folders == [] then Run([], NoWorkspace)
    else
      var steps := [Invocation(folders[0], Init)] + ConfigSteps(folders[0], active.value);
      assert steps[1..] == ConfigSteps(folders[0], active.value);
      assert Chain(steps, succeeds) ==
               if !succeeds(steps[0]) then Run([steps[0]], FailedAt(steps[0]))
               else Run([steps[0]] + Chain(steps[1..], succeeds).attempted, Chain(steps[1..], succeeds).outcome);
      Chain(steps, succeeds)
  }

  /** Apply profile: the same preconditions, then `user.name` and
      `user.email` only; whether the folder is a repository is not checked. */
  function ApplyPlan(active: Option<Profile>, folders: seq<string>, succeeds: Invocation -> bool): (r: Run)
    ensures active.None? ==> r == Run([], NoActiveProfile)
    ensures active.Some? && folders == [] ==> r == Run([], NoWorkspace)
    ensures active.Some? && folders != [] ==>
              var steps := ConfigSteps(folders[0], active.value);
              r.attempted != [] && r.attempted <= steps &&
              (r.outcome.Completed? <==> succeeds(steps[0]) && succeeds(steps[1]))
    ensures active.Some? && folders != [] ==> r.outcome.Completed? || r.outcome.FailedAt?
    ensures active.Some? && folders != [] && r.outcome.FailedAt? ==>
              r.outcome.step == r.attempted[|r.attempted| - 1] && !succeeds(r.outcome.step) &&
              forall i :: 0 <= i < |r.attempted| - 1 ==> succeeds(r.attempted[i])
    ensures active.Some? && folders != [] ==>
              var name := Invocation(folders[0], ConfigUserName(active.value.user));
              var email := Invocation(folders[0], ConfigUserEmail(active.value.email));
              r == if !succeeds(name) then Run([name], FailedAt(name))
                   else if !succeeds(email) then Run([name, email], FailedAt(email))
                   else Run([name, email], Completed)
  {
    if active.None? then Run([], NoActiveProfile)
    else if folders == [] then Run([], NoWorkspace)
    else Chain(ConfigSteps(folders[0], active.value), succeeds)
  }

  /** Once `git init` has succeeded, initialising continues exactly as
      applying the profile would: the same invocations after `init`, and
      the same outcome. Both runs consult the same per-invocation results;
      in the program a `config` step may fail in a folder that is not yet a
      repository and succeed right after `git init`, so the two agree only
      when each step's result is the same in both. */
  lemma InitThenApply(active: Profile, folders: seq<string>, succeeds: Invocation -> bool)
    requires folders != [] && succeeds(Invocation(folders[0], Init))
    ensures InitPlan(Some(active), folders, succeeds).attempted ==
              [Invocation(folders[0], Init)] + ApplyPlan(Some(active), folders, succeeds).attempted
    ensures InitPlan(Some(active), folders, succeeds).outcome == ApplyPlan(Some(active), folders, succeeds).outcome
  {
  }

  /** How de-initialising ends. */
  datatype DeinitOutcome = DeinitNoWorkspace | NothingToDo | Removed | RemoveFailed

  /** The outcome, whether removal of `.git` was attempted, and whether
      `.git` exists afterwards. */
  datatype DeinitRun = DeinitRun(outcome: DeinitOutcome, removalAttempted: bool, gitDirAfter: bool)

  /** De-initialise: without a workspace folder, or when the first folder
      has no `.git` entry, nothing is touched; otherwise `.git` is removed
      recursively, and a failed removal is reported. No active profile is
      needed. */
  function DeinitPlan(folders: seq<string>, gitDirExists: bool, removeOk: bool): (r: DeinitRun)
    ensures r.removalAttempted <==> folders != [] && gitDirExists
    ensures !r.removalAttempted ==> r.gitDirAfter == gitDirExists
    ensures folders == [] <==> r.outcome.DeinitNoWorkspace?
    ensures r.outcome.NothingToDo? <==> folders != [] && !gitDirExists
    ensures r.outcome.Removed? <==> r.removalAttempted && removeOk
    ensures r.outcome.Removed? ==> !r.gitDirAfter
  {
    if folders == [] then DeinitRun(DeinitNoWorkspace, false, gitDirExists)
    else if !gitDirExists then DeinitRun(NothingToDo, false, false)
    else if removeOk then DeinitRun(Removed, true, false)
    else DeinitRun(RemoveFailed, true, true)
  }
}
