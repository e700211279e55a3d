/**
 * `Upgrade` of the podman deployment (`mgradm/shared/podman`): compute the
 * server image, inspect it, check that the upgrade makes sense, stop the
 * service, upgrade PostgreSQL when the image brings a newer version, run the
 * finalization and post-upgrade containers, point the systemd configuration
 * at the new image and reload systemd. Once the service is stopped, a
 * deferred call starts it again on every way out; what that start returns
 * is assigned to a local variable and never reaches the caller.
 */
module PodmanUpgrade {
  import opened Wrappers
  import opened GoStrings
  import opened Traces
  import opened PodmanRules
  import opened PodmanSteps
  import Images

  /** The directories that `os.MkdirTemp` creates for each step. */
  datatype ScriptDirs = ScriptDirs(inspect: string, versionUpgrade: string, finalize: string, postUpgrade: string)

  /** What the host answers: the host inspection values, the directory the
      inspection container writes to (`utils.InspectOutputFile.Directory`),
      the values the image inspection reads back, and the script
      directories. */
  datatype Env = Env(hostValues: map<string, string>, inspectOutputDir: string,
                     inspected: map<string, string>, dirs: ScriptDirs)

  datatype UpgradeError =
    | ServerImageFailed
    | InspectFailed(cause: StepError)
    | SanityCheckFailed
    | StopFailed
    | VersionUpgradeFailed(cause: StepError)
    | DowngradeRejected(from: string, to: string)
    | FinalizeFailed(cause: StepError)
    | PostUpgradeFailed(cause: StepError)
    | ConfFailed
    | ReloadFailed

  /** The steps of `Upgrade`, each with its own error. */
  datatype Step =
    | ServerImageStep | InspectStep | SanityCheckStep | StopStep | VersionStep
    | FinalizeStep | PostUpgradeStep | ConfStep | ReloadStep

  /** The step whose failure an error reports. */
  function StepOf(e: UpgradeError): Step
  {
    match e
    case ServerImageFailed => ServerImageStep
    case InspectFailed(_) => InspectStep
    case SanityCheckFailed => SanityCheckStep
    case StopFailed => StopStep
    case VersionUpgradeFailed(_) => VersionStep
    case DowngradeRejected(_, _) => VersionStep
    case FinalizeFailed(_) => FinalizeStep
    case PostUpgradeFailed(_) => PostUpgradeStep
    case ConfFailed => ConfStep
    case ReloadFailed => ReloadStep
  }

  /** The step at position `n` of the plan after the version branch: the
      three operations of the finalization, the three of the post-upgrade,
      the configuration write and the reload. */
  function FinishStepAt(n: nat): Step
  {
    if n < 3 then FinalizeStep
    else if n < 6 then PostUpgradeStep
    else if n == 6 then ConfStep
    else ReloadStep
  }

  /** The step at position `n` of the plan after the stop, whose version
      branch is `vp`; a version branch that gives up stops the run there. */
  function StoppedStepAt(n: nat, vp: Plan<Op>): Step
  {
    if n < |vp.ops| || !vp.succeeds then VersionStep else FinishStepAt(n - |vp.ops|)
  }

  /** The step at position `n` of `UpgradePlan(server, migration,
      pullPolicy, env)`: the inspection, the sanity check, the stop, then
      the plan after the stop. */
  function UpgradeStepAt(server: Computed, migration: Computed, pullPolicy: string, env: Env, n: nat): Step
  {
    match server
    case Failure(_) => ServerImageStep
    case Success(serverImage) =>
      var inspect := |InspectPlan(serverImage, pullPolicy, env.hostValues, env.dirs.inspect, env.inspectOutputDir).ops|;
      if n < inspect then InspectStep
      else if n == inspect then SanityCheckStep
      else if n == inspect + 1 then StopStep
      else StoppedStepAt(n - inspect - 2, VersionPlan(migration, pullPolicy, env.inspected, env))
  }

  function CurrentPg(inspected: map<string, string>): string
  {
    Lookup(inspected, "current_pg_version")
  }

  function ImagePg(inspected: map<string, string>): string
  {
    Lookup(inspected, "image_pg_version")
  }

  /** The line of the systemd drop-in that selects the image. */
  function ConfLine(serverImage: string): string
  {
    "Environment=UYUNI_IMAGE=" + serverImage
  }

  // ---------------------------------------------------------------------
  // The plan
  // ---------------------------------------------------------------------

  /** The migration image, as `RunPgsqlVersionUpgrade` computes it for the
      two versions the inspection found. */
  function MigrationImage(image: ImageFlags, migrationImage: ImageFlags, inspected: map<string, string>): Computed
  {
    MigrationImageUrl(image.name, image.tag, migrationImage.name, CurrentPg(inspected), ImagePg(inspected))
  }

  /** The PostgreSQL branch: upgrade when the image's version is greater (as
      Go compares strings), nothing when they are equal, give up otherwise.
      `migration` is the computed migration image. */
  function VersionPlan(migration: Computed, pullPolicy: string,
                       inspected: map<string, string>, env: Env): Plan<Op>
  {
    var cur, img := CurrentPg(inspected), ImagePg(inspected);
    if Less(cur, img) then VersionUpgradePlan(migration, pullPolicy, cur, img, env.hostValues, env.dirs.versionUpgrade)
    else Plan([], img == cur)
  }

  /** The configuration write and the reload of systemd. */
  function ReloadPlan(serverImage: string): Plan<Op>
  {
    Plan([WriteConf(ConfLine(serverImage)), ReloadDaemon], true)
  }

  /** After the version branch: finalization, post-upgrade, configuration. */
  function FinishPlan(serverImage: string, schemaUpdateRequired: bool, env: Env): Plan<Op>
  {
    Then(FinalizePlan(serverImage, schemaUpdateRequired, env.dirs.finalize),
         Then(PostUpgradePlan(serverImage, env.dirs.postUpgrade), ReloadPlan(serverImage)))
  }

  /** Everything after the service is stopped, except its deferred start. */
  function StoppedPlan(serverImage: string, migration: Computed, pullPolicy: string,
                       inspected: map<string, string>, env: Env): Plan<Op>
  {
    Then(VersionPlan(migration, pullPolicy, inspected, env),
         FinishPlan(serverImage, CurrentPg(inspected) != ImagePg(inspected), env))
  }

  /** The plan of `Upgrade`, without the deferred removals and start, for
      the computed server image `server` and migration image `migration`. */
  function UpgradePlan(server: Computed, migration: Computed,
                       pullPolicy: string, env: Env): Plan<Op>
  {
    match server
    case Failure(_) => Plan([], false)
    case Success(serverImage) =>
      Then(InspectPlan(serverImage, pullPolicy, env.hostValues, env.dirs.inspect, env.inspectOutputDir),
           Then(Plan([SanityCheck(serverImage), StopService], true),
                StoppedPlan(serverImage, migration, pullPolicy, env.inspected, env)))
  }

  // ---------------------------------------------------------------------
  // The run
  // ---------------------------------------------------------------------

  /** The configuration write, then the reload of systemd. */
  method Reload(serverImage: string) returns (err: Option<UpgradeError>, body: seq<PodmanSteps.Event>)
    ensures Outcome(body, ReloadPlan(serverImage), err.None?)
    ensures Plain(body)
    ensures |body| > 0 && (err == Some(ConfFailed) <==> !body[0].ok)
    ensures err.Some? ==> StepOf(err.value) == FinishStepAt(6 + StopAt(body))
    ensures err.Some? ==> !err.value.DowngradeRejected?
  {
    ghost var plan := ReloadPlan(serverImage).ops;
    body := [];
    var ok := Perform(body, plan, WriteConf(ConfLine(serverImage)));
    body := body + [Event(WriteConf(ConfLine(serverImage)), ok)];
    if ok {
      ok := Perform(body, plan, ReloadDaemon);
      body := body + [Event(ReloadDaemon, ok)];
      if ok {
        assert plan[..|body|] == plan;
        Finished(plan);
        err := None;
      } else {
        err := Some(ReloadFailed);
      }
    } else {
      err := Some(ConfFailed);
    }
    FollowsPlain(body, plan);
  }

  /** Finalization, post-upgrade, configuration and reload; a failure skips
      everything after it. */
  method Finish(serverImage: string, schemaUpdateRequired: bool, env: Env)
    returns (err: Option<UpgradeError>, trace: seq<PodmanSteps.Event>)
    ensures Outcome(Strip(trace), FinishPlan(serverImage, schemaUpdateRequired, env), err.None?)
    ensures ServiceOps(trace) == []
    ensures err.Some? ==> StepOf(err.value) == FinishStepAt(StopAt(Strip(trace)))
    ensures err.Some? ==> !err.value.DowngradeRejected?
  {
    ghost var fp := FinalizePlan(serverImage, schemaUpdateRequired, env.dirs.finalize);
    ghost var rest := Then(PostUpgradePlan(serverImage, env.dirs.postUpgrade), ReloadPlan(serverImage));
    var e, t1 := RunPgsqlFinalizeScript(serverImage, schemaUpdateRequired, env.dirs.finalize);
    if e.Some? {
      FinalizeStopped(Strip(t1), fp, rest, e.value);
      return Some(FinalizeFailed(e.value)), t1;
    }
    var t2;
    err, t2 := PostUpgrade(serverImage, env);
    ThenSteps(t1, fp, t2, rest, err.None?);
    FinishedAfter(t1, fp, t2, err);
    trace := t1 + t2;
  }

  /** A finalization script that failed stops the run inside its own plan. */
  lemma FinalizeStopped(t: seq<PodmanSteps.Event>, fp: Plan<Op>, rest: Plan<Op>, cause: StepError)
    requires fp.succeeds && |fp.ops| == 3 && Outcome(t, fp, false)
    ensures Outcome(t, Then(fp, rest), false)
    ensures StepOf(FinalizeFailed(cause)) == FinishStepAt(StopAt(t))
  {
    ThenStopped(t, fp, rest);
  }

  /** After a finalization that succeeded, the error of what follows names
      the step where the joined run stopped. */
  lemma FinishedAfter(t1: seq<PodmanSteps.Event>, fp: Plan<Op>, t2: seq<PodmanSteps.Event>,
                      err: Option<UpgradeError>)
    requires |fp.ops| == 3 && Outcome(Strip(t1), fp, true)
    requires err.Some? ==> StepOf(err.value) == FinishStepAt(3 + StopAt(Strip(t2)))
    ensures err.Some? ==> StepOf(err.value) == FinishStepAt(StopAt(Strip(t1 + t2)))
  {
    StopAfterStep(t1, fp, t2);
    FinishStepMoved(err, 3 + StopAt(Strip(t2)), StopAt(Strip(t1 + t2)));
  }

  /** A post-upgrade script that failed stops the run inside its own plan. */
  lemma PostUpgradeStopped(t: seq<PodmanSteps.Event>, pp: Plan<Op>, rp: Plan<Op>, cause: StepError)
    requires pp.succeeds && |pp.ops| == 3 && Outcome(t, pp, false)
    ensures Outcome(t, Then(pp, rp), false)
    ensures StepOf(PostUpgradeFailed(cause)) == FinishStepAt(3 + StopAt(t))
  {
    ThenStopped(t, pp, rp);
  }

  /** After a post-upgrade script that succeeded, the reload's error names
      the step where the joined run stopped. */
  lemma ReloadedAfter(t1: seq<PodmanSteps.Event>, pp: Plan<Op>, t2: seq<PodmanSteps.Event>,
                      err: Option<UpgradeError>)
    requires |pp.ops| == 3 && Outcome(Strip(t1), pp, true) && Plain(t2)
    requires err.Some? ==> StepOf(err.value) == FinishStepAt(6 + StopAt(t2))
    ensures err.Some? ==> StepOf(err.value) == FinishStepAt(3 + StopAt(Strip(t1 + t2)))
  {
    StopAfterStep(t1, pp, t2);
    StripPlain(t2);
    FinishStepMoved(err, 6 + StopAt(t2), 3 + StopAt(Strip(t1 + t2)));
  }

  lemma FinishStepMoved(err: Option<UpgradeError>, a: nat, b: nat)
    requires a == b
    requires err.Some? ==> StepOf(err.value) == FinishStepAt(a)
    ensures err.Some? ==> StepOf(err.value) == FinishStepAt(b)
  {
  }

  /** The post-upgrade step, then the configuration and the reload. */
  method PostUpgrade(serverImage: string, env: Env)
    returns (err: Option<UpgradeError>, trace: seq<PodmanSteps.Event>)
    ensures Outcome(Strip(trace), Then(PostUpgradePlan(serverImage, env.dirs.postUpgrade), ReloadPlan(serverImage)),
                    err.None?)
    ensures ServiceOps(trace) == []
    ensures err.Some? ==> StepOf(err.value) == FinishStepAt(3 + StopAt(Strip(trace)))
    ensures err.Some? ==> !err.value.DowngradeRejected?
  {
    ghost var pp := PostUpgradePlan(serverImage, env.dirs.postUpgrade);
    ghost var rp := ReloadPlan(serverImage);
    var e, t1 := RunPostUpgradeScript(serverImage, env.dirs.postUpgrade);
    if e.Some? {
      PostUpgradeStopped(Strip(t1), pp, rp, e.value);
      return Some(PostUpgradeFailed(e.value)), t1;
    }
    var t2;
    err, t2 := Reload(serverImage);
    StepThenPlain(t1, pp, t2, rp, err.None?);
    ReloadedAfter(t1, pp, t2, err);
    trace := t1 + t2;
  }

  /** Everything `Upgrade` does once the service is stopped, before the
      deferred start: the downgrade is rejected exactly when the image's
      PostgreSQL version is smaller than the current one. */
  method UpgradeStopped(serverImage: string, image: ImageFlags, migrationImage: ImageFlags,
                        inspected: map<string, string>, env: Env)
    returns (err: Option<UpgradeError>, trace: seq<PodmanSteps.Event>)
    ensures Outcome(Strip(trace), StoppedPlan(serverImage, MigrationImage(image, migrationImage, inspected),
                                              image.pullPolicy, inspected, env), err.None?)
    ensures ServiceOps(trace) == []
    ensures err == Some(DowngradeRejected(CurrentPg(inspected), ImagePg(inspected)))
            <==> Less(ImagePg(inspected), CurrentPg(inspected))
    ensures err.Some? ==> StepOf(err.value) == StoppedStepAt(StopAt(Strip(trace)),
      VersionPlan(MigrationImage(image, migrationImage, inspected), image.pullPolicy, inspected, env))
  {
    var cur, img := CurrentPg(inspected), ImagePg(inspected);
    LessTrichotomy(cur, img);
    ghost var vp := VersionPlan(MigrationImage(image, migrationImage, inspected), image.pullPolicy, inspected, env);
    ghost var fin := FinishPlan(serverImage, cur != img, env);
    trace := [];
    if Less(cur, img) {
      var e;
      e, trace := RunPgsqlVersionUpgrade(image, migrationImage, cur, img, env.hostValues, env.dirs.versionUpgrade);
      if e.Some? {
        VersionStopped(Strip(trace), vp, fin, e.value);
        return Some(VersionUpgradeFailed(e.value)), trace;
      }
    } else if img == cur {
      Finished<Op>([]);
    } else {
      GaveUp<Op>([]);
      ThenFailed([], vp, fin);
      return Some(DowngradeRejected(cur, img)), [];
    }
    var rest;
    err, rest := Finish(serverImage, cur != img, env);
    ThenSteps(trace, vp, rest, fin, err.None?);
    StoppedAfter(trace, vp, rest, err);
    trace := trace + rest;
  }

  /** A version upgrade that failed stops the run inside the version branch. */
  lemma VersionStopped(t: seq<PodmanSteps.Event>, vp: Plan<Op>, fin: Plan<Op>, cause: StepError)
    requires Outcome(t, vp, false)
    ensures Outcome(t, Then(vp, fin), false)
    ensures StepOf(VersionUpgradeFailed(cause)) == StoppedStepAt(StopAt(t), vp)
  {
    ThenStopped(t, vp, fin);
  }

  /** After a version branch that went through, the error of what follows
      names the step where the joined run stopped. */
  lemma StoppedAfter(t1: seq<PodmanSteps.Event>, vp: Plan<Op>, t2: seq<PodmanSteps.Event>,
                     err: Option<UpgradeError>)
    requires Outcome(Strip(t1), vp, true)
    requires err.Some? ==> StepOf(err.value) == FinishStepAt(StopAt(Strip(t2)))
    ensures err.Some? ==> StepOf(err.value) == StoppedStepAt(StopAt(Strip(t1 + t2)), vp)
  {
    StopAfterStep(t1, vp, t2);
    StoppedStepMoved(err, vp, StopAt(Strip(t2)), StopAt(Strip(t1 + t2)));
  }

  lemma StoppedStepMoved(err: Option<UpgradeError>, vp: Plan<Op>, m: nat, n: nat)
    requires vp.succeeds && n == |vp.ops| + m
    requires err.Some? ==> StepOf(err.value) == FinishStepAt(m)
    ensures err.Some? ==> StepOf(err.value) == StoppedStepAt(n, vp)
  {
  }

  /** The trace without the deferred start of the service, when there is one. */
  function BeforeStart(t: seq<PodmanSteps.Event>): seq<PodmanSteps.Event>
  {
    if |t| > 0 && t[|t| - 1].op == StartService then t[..|t| - 1] else t
  }

  /** `Upgrade(image, migrationImage, args)`. The service is started again,
      once and as the last operation, exactly when it was stopped; before
      that the run follows the plan and stops at the first failure, and the
      error returned is decided by that part alone: the start's own result
      is dropped. */
  method Upgrade(image: ImageFlags, migrationImage: ImageFlags, env: Env)
    returns (err: Option<UpgradeError>, trace: seq<PodmanSteps.Event>)
    ensures Outcome(Strip(BeforeStart(trace)),
                    UpgradePlan(Images.ComputeImage(image.name, image.tag, ""),
                                MigrationImage(image, migrationImage, env.inspected), image.pullPolicy, env),
                    err.None?)
    ensures ServiceOps(trace) in {[], [StopService], [StopService, StartService]}
    ensures ServiceOps(trace) == [StopService, StartService] <==> Event(StopService, true) in trace
    ensures Event(StopService, true) in trace ==> trace[|trace| - 1].op == StartService
    ensures err.Some? ==> StepOf(err.value) == UpgradeStepAt(Images.ComputeImage(image.name, image.tag, ""),
      MigrationImage(image, migrationImage, env.inspected), image.pullPolicy, env, StopAt(Strip(BeforeStart(trace))))
    ensures err == Some(DowngradeRejected(CurrentPg(env.inspected), ImagePg(env.inspected)))
            <==> Event(StopService, true) in trace && Less(ImagePg(env.inspected), CurrentPg(env.inspected))
  {
    var computed := Images.ComputeImage(image.name, image.tag, "");
    if computed.Failure? {
      GaveUp<Op>([]);
      return Some(ServerImageFailed), [];
    }
    err, trace := UpgradeImage(computed.value, image, migrationImage, env);
  }

  /** `Upgrade` once the server image is computed: the inspection, then the
      rest. */
  method UpgradeImage(serverImage: string, image: ImageFlags, migrationImage: ImageFlags, env: Env)
    returns (err: Option<UpgradeError>, trace: seq<PodmanSteps.Event>)
    ensures Outcome(Strip(BeforeStart(trace)),
                    UpgradePlan(Success(serverImage), MigrationImage(image, migrationImage, env.inspected),
                                image.pullPolicy, env),
                    err.None?)
    ensures ServiceOps(trace) in {[], [StopService], [StopService, StartService]}
    ensures ServiceOps(trace) == [StopService, StartService] <==> Event(StopService, true) in trace
    ensures Event(StopService, true) in trace ==> trace[|trace| - 1].op == StartService
    ensures err.Some? ==> StepOf(err.value) == UpgradeStepAt(Success(serverImage),
      MigrationImage(image, migrationImage, env.inspected), image.pullPolicy, env, StopAt(Strip(BeforeStart(trace))))
    ensures err == Some(DowngradeRejected(CurrentPg(env.inspected), ImagePg(env.inspected)))
            <==> Event(StopService, true) in trace && Less(ImagePg(env.inspected), CurrentPg(env.inspected))
  {
    ghost var ip := InspectPlan(serverImage, image.pullPolicy, env.hostValues, env.dirs.inspect, env.inspectOutputDir);
    ghost var cp := Plan([SanityCheck(serverImage), StopService], true);
    ghost var sp := StoppedPlan(serverImage, MigrationImage(image, migrationImage, env.inspected), image.pullPolicy,
                                env.inspected, env);

    var values, e, t1 := Inspect(serverImage, image.pullPolicy, env.hostValues, env.dirs.inspect,
                                 env.inspectOutputDir, env.inspected);
    StepTrace(t1, if t1[0].ok then env.dirs.inspect else "");
    if e.Some? {
      InspectionFailed(ip, Then(cp, sp), t1);
      InspectStopped(serverImage, MigrationImage(image, migrationImage, env.inspected), image.pullPolicy, env,
                     Strip(t1), e.value);
      return Some(InspectFailed(e.value)), t1;
    }
    err, trace := Stopping(serverImage, image, migrationImage, values, env, t1);
  }

  /** A failed inspection is a failed upgrade that leaves the service alone. */
  lemma InspectionFailed(ip: Plan<Op>, rest: Plan<Op>, t1: seq<PodmanSteps.Event>)
    requires Outcome(Strip(t1), ip, false) && ServiceOps(t1) == []
    requires |t1| > 0 && t1[|t1| - 1].op.RemoveAll?
    ensures BeforeStart(t1) == t1 && Outcome(Strip(t1), Then(ip, rest), false)
    ensures Event(StopService, true) !in t1
  {
    ThenFailed(Strip(t1), ip, rest);
    NotStarted(t1);
    NeverStopped(t1);
  }

  /** A failed inspection reports the step where the run stopped. */
  lemma InspectStopped(serverImage: string, migration: Computed, pullPolicy: string, env: Env,
                       t: seq<PodmanSteps.Event>, cause: StepError)
    requires Outcome(t, InspectPlan(serverImage, pullPolicy, env.hostValues, env.dirs.inspect,
                                    env.inspectOutputDir), false)
    ensures StepOf(InspectFailed(cause)) == UpgradeStepAt(Success(serverImage), migration, pullPolicy, env, StopAt(t))
  {
    FailedStop(t, InspectPlan(serverImage, pullPolicy, env.hostValues, env.dirs.inspect, env.inspectOutputDir));
  }

  /** A trace without service operations has no successful stop. */
  lemma NeverStopped(t: seq<PodmanSteps.Event>)
    requires ServiceOps(t) == []
    ensures Event(StopService, true) !in t
  {
    NoServiceOps(t);
  }

  /** A trace whose last event is a removal has no deferred start to drop. */
  lemma NotStarted(t: seq<PodmanSteps.Event>)
    requires |t| > 0 && t[|t| - 1].op.RemoveAll?
    ensures BeforeStart(t) == t
  {
  }

  /** The sanity check, the stop, what follows it and the deferred start,
      after a successful inspection whose trace is `t1`. */
  method Stopping(serverImage: string, image: ImageFlags, migrationImage: ImageFlags,
                  values: map<string, string>, env: Env, t1: seq<PodmanSteps.Event>)
    returns (err: Option<UpgradeError>, trace: seq<PodmanSteps.Event>)
    requires values == env.inspected
    requires ServiceOps(t1) == [] && |t1| > 0 && t1[|t1| - 1].op.RemoveAll?
    requires Outcome(Strip(t1), InspectPlan(serverImage, image.pullPolicy, env.hostValues, env.dirs.inspect,
                                            env.inspectOutputDir), true)
    ensures Outcome(Strip(BeforeStart(trace)),
                    UpgradePlan(Success(serverImage), MigrationImage(image, migrationImage, env.inspected),
                                image.pullPolicy, env),
                    err.None?)
    ensures ServiceOps(trace) in {[], [StopService], [StopService, StartService]}
    ensures ServiceOps(trace) == [StopService, StartService] <==> Event(StopService, true) in trace
    ensures Event(StopService, true) in trace ==> trace[|trace| - 1].op == StartService
    ensures err.Some? ==> StepOf(err.value) == UpgradeStepAt(Success(serverImage),
      MigrationImage(image, migrationImage, env.inspected), image.pullPolicy, env, StopAt(Strip(BeforeStart(trace))))
    ensures err == Some(DowngradeRejected(CurrentPg(env.inspected), ImagePg(env.inspected)))
            <==> Event(StopService, true) in trace && Less(ImagePg(env.inspected), CurrentPg(env.inspected))
  {
    ghost var ip := InspectPlan(serverImage, image.pullPolicy, env.hostValues, env.dirs.inspect, env.inspectOutputDir);
    ghost var cp := Plan([SanityCheck(serverImage), StopService], true);
    ghost var sp := StoppedPlan(serverImage, MigrationImage(image, migrationImage, env.inspected), image.pullPolicy,
                                env.inspected, env);
    ghost var mi := MigrationImage(image, migrationImage, env.inspected);
    NoServiceOps(t1);
    StripAppend(t1, []);

    var ok := Perform([], cp.ops, SanityCheck(serverImage));
    if !ok {
      var checks := [Event(SanityCheck(serverImage), false)];
      Checked(ip, serverImage, sp, t1, checks);
      CheckStep(serverImage, mi, image.pullPolicy, env, t1, checks, SanityCheckFailed);
      return Some(SanityCheckFailed), t1 + checks;
    }
    ok := Perform([Event(SanityCheck(serverImage), true)], cp.ops, StopService);
    if !ok {
      var checks := [Event(SanityCheck(serverImage), true), Event(StopService, false)];
      Checked(ip, serverImage, sp, t1, checks);
      CheckStep(serverImage, mi, image.pullPolicy, env, t1, checks, StopFailed);
      return Some(StopFailed), t1 + checks;
    }
    var checks := [Event(SanityCheck(serverImage), true), Event(StopService, true)];

    var t2;
    err, t2 := UpgradeStopped(serverImage, image, migrationImage, values, env);
    // The deferred start: its result is assigned to a local and dropped.
    var started := Attempt();
    trace := t1 + checks + t2 + [Event(StartService, started)];
    StartedRun(ip, serverImage, sp, t1, t2, err.None?);
    StartedServices(serverImage, t1, t2, started);
    StartedStep(serverImage, mi, image.pullPolicy, env, t1, t2, err);
  }

  /** A failed sanity check, or a failed stop, reports the step where the
      run stopped. */
  lemma CheckStep(serverImage: string, migration: Computed, pullPolicy: string, env: Env,
                  t1: seq<PodmanSteps.Event>, checks: seq<PodmanSteps.Event>, err: UpgradeError)
    requires Outcome(Strip(t1), InspectPlan(serverImage, pullPolicy, env.hostValues, env.dirs.inspect,
                                            env.inspectOutputDir), true)
    requires (checks == [Event(SanityCheck(serverImage), false)] && err == SanityCheckFailed)
             || (checks == [Event(SanityCheck(serverImage), true), Event(StopService, false)] && err == StopFailed)
    ensures StepOf(err) == UpgradeStepAt(Success(serverImage), migration, pullPolicy, env, StopAt(Strip(t1 + checks)))
  {
    var ip := InspectPlan(serverImage, pullPolicy, env.hostValues, env.dirs.inspect, env.inspectOutputDir);
    assert Strip(t1 + checks) == Strip(t1) + checks by {
      FailedChecks(serverImage, checks);
      StripAppend(t1, checks);
    }
    assert |Strip(t1)| == |ip.ops| by {
      assert Strip(t1) == AllOk(ip.ops);
    }
    ChecksStop(Strip(t1), checks);
    CheckStepAt(serverImage, migration, pullPolicy, env, err, StopAt(Strip(t1 + checks)));
  }

  lemma CheckStepAt(serverImage: string, migration: Computed, pullPolicy: string, env: Env, err: UpgradeError, n: nat)
    requires var inspect := |InspectPlan(serverImage, pullPolicy, env.hostValues, env.dirs.inspect,
                                         env.inspectOutputDir).ops|;
             (err == SanityCheckFailed && n == inspect) || (err == StopFailed && n == inspect + 1)
    ensures StepOf(err) == UpgradeStepAt(Success(serverImage), migration, pullPolicy, env, n)
  {
  }

  /** A run that ends with its only failure stops at that failure. */
  lemma ChecksStop(a: seq<PodmanSteps.Event>, checks: seq<PodmanSteps.Event>)
    requires |checks| > 0 && !checks[|checks| - 1].ok
    ensures StopAt(a + checks) == |a| + |checks| - 1
  {
    assert (a + checks)[|a + checks| - 1] == checks[|checks| - 1];
  }

  /** Past the sanity check and the stop, the error of what follows names
      the step where the run stopped. */
  lemma StartedStep(serverImage: string, migration: Computed, pullPolicy: string, env: Env,
                    t1: seq<PodmanSteps.Event>, t2: seq<PodmanSteps.Event>, err: Option<UpgradeError>)
    requires Outcome(Strip(t1), InspectPlan(serverImage, pullPolicy, env.hostValues, env.dirs.inspect,
                                            env.inspectOutputDir), true)
    requires err.Some? ==> StepOf(err.value) == StoppedStepAt(StopAt(Strip(t2)),
                                                              VersionPlan(migration, pullPolicy, env.inspected, env))
    ensures var checks := [Event(SanityCheck(serverImage), true), Event(StopService, true)];
            err.Some? ==> StepOf(err.value) == UpgradeStepAt(Success(serverImage), migration, pullPolicy, env,
                                                             StopAt(Strip(t1 + checks + t2)))
  {
    var ip := InspectPlan(serverImage, pullPolicy, env.hostValues, env.dirs.inspect, env.inspectOutputDir);
    var cp := Plan([SanityCheck(serverImage), StopService], true);
    var checks := [Event(SanityCheck(serverImage), true), Event(StopService, true)];
    StripAround(t1, checks, t2);
    StopAfter(Strip(t1), ip, checks + Strip(t2));
    assert checks == AllOk(cp.ops);
    Finished(cp.ops);
    StopAfter(checks, cp, Strip(t2));
    UpgradeStepMoved(err, serverImage, migration, pullPolicy, env, StopAt(Strip(t2)), StopAt(Strip(t1 + checks + t2)));
  }

  lemma UpgradeStepMoved(err: Option<UpgradeError>, serverImage: string, migration: Computed, pullPolicy: string,
                         env: Env, m: nat, n: nat)
    requires n == |InspectPlan(serverImage, pullPolicy, env.hostValues, env.dirs.inspect, env.inspectOutputDir).ops| + 2 + m
    requires err.Some? ==> StepOf(err.value) == StoppedStepAt(m, VersionPlan(migration, pullPolicy, env.inspected, env))
    ensures err.Some? ==> StepOf(err.value) == UpgradeStepAt(Success(serverImage), migration, pullPolicy, env, n)
  {
  }

  /** The sanity check and the stop, when one of them failed. */
  lemma Checked(ip: Plan<Op>, serverImage: string, sp: Plan<Op>, t1: seq<PodmanSteps.Event>, checks: seq<PodmanSteps.Event>)
    requires ServiceOps(t1) == [] && Outcome(Strip(t1), ip, true)
    requires checks == [Event(SanityCheck(serverImage), false)]
             || checks == [Event(SanityCheck(serverImage), true), Event(StopService, false)]
    ensures var trace := t1 + checks;
            && BeforeStart(trace) == trace
            && Outcome(Strip(trace), Then(ip, Then(Plan([SanityCheck(serverImage), StopService], true), sp)), false)
            && ServiceOps(trace) in {[], [StopService]}
            && Event(StopService, true) !in trace
  {
    var cp := Plan([SanityCheck(serverImage), StopService], true);
    var trace := t1 + checks;
    FailedChecks(serverImage, checks);
    assert trace[|trace| - 1] == checks[|checks| - 1];
    ThenFailed(checks, cp, sp);
    ThenRan(Strip(t1), ip, checks, Then(cp, sp), false);
    StripAppend(t1, checks);
    ServiceOpsAppend(t1, checks);
    NotStopped(t1, checks);
  }

  /** A failed sanity check, or a passed one and a failed stop: a failed run
      of the two that touches the service at most by the attempted stop. */
  lemma FailedChecks(serverImage: string, checks: seq<PodmanSteps.Event>)
    requires checks == [Event(SanityCheck(serverImage), false)]
             || checks == [Event(SanityCheck(serverImage), true), Event(StopService, false)]
    ensures Outcome(checks, Plan([SanityCheck(serverImage), StopService], true), false)
    ensures Strip(checks) == checks && checks[|checks| - 1].op != StartService
    ensures ServiceOps(checks) in {[], [StopService]} && Event(StopService, true) !in checks
  {
    if |checks| == 1 {
      SanityCheckFails(serverImage);
    } else {
      StopFails(serverImage);
    }
  }

  lemma SanityCheckFails(serverImage: string)
    ensures var checks := [Event(SanityCheck(serverImage), false)];
            && Outcome(checks, Plan([SanityCheck(serverImage), StopService], true), false)
            && Strip(checks) == checks && ServiceOps(checks) == []
  {
    var ops := [SanityCheck(serverImage), StopService];
    assert [Event(SanityCheck(serverImage), false)] == AllOk(ops[..0]) + [Event(ops[0], false)];
    FailureFollows(ops, 0);
    Single(Event(SanityCheck(serverImage), false));
  }

  lemma StopFails(serverImage: string)
    ensures var checks := [Event(SanityCheck(serverImage), true), Event(StopService, false)];
            && Outcome(checks, Plan([SanityCheck(serverImage), StopService], true), false)
            && Strip(checks) == checks && ServiceOps(checks) == [StopService]
  {
    var ops := [SanityCheck(serverImage), StopService];
    var a, b := Event(SanityCheck(serverImage), true), Event(StopService, false);
    assert Outcome([a, b], Plan(ops, true), false) by {
      assert [a, b] == AllOk(ops[..1]) + [Event(ops[1], false)];
      FailureFollows(ops, 1);
    }
    assert [a, b] == [a] + [b];
    assert Strip([a, b]) == [a, b] by {
      Single(a);
      Single(b);
      StripAppend([a], [b]);
    }
    assert ServiceOps([a, b]) == [StopService] by {
      Single(a);
      Single(b);
      ServiceOpsAppend([a], [b]);
    }
  }

  lemma NotStopped(t1: seq<PodmanSteps.Event>, checks: seq<PodmanSteps.Event>)
    requires ServiceOps(t1) == [] && Event(StopService, true) !in checks
    ensures Event(StopService, true) !in t1 + checks
  {
    NoServiceOps(t1);
  }

  /** The run that stopped the service, seen before its deferred start. */
  lemma StartedRun(ip: Plan<Op>, serverImage: string, sp: Plan<Op>,
                   t1: seq<PodmanSteps.Event>, t2: seq<PodmanSteps.Event>, ok: bool)
    requires ServiceOps(t1) == [] && Outcome(Strip(t1), ip, true)
    requires Outcome(Strip(t2), sp, ok) && ServiceOps(t2) == []
    ensures var checks := [Event(SanityCheck(serverImage), true), Event(StopService, true)];
            Outcome(Strip(t1 + checks + t2), Then(ip, Then(Plan([SanityCheck(serverImage), StopService], true), sp)), ok)
  {
    var checks := [Event(SanityCheck(serverImage), true), Event(StopService, true)];
    ChecksPassed(ip, serverImage, sp, Strip(t1), Strip(t2), ok);
    StripAround(t1, checks, t2);
  }

  /** Removals are dropped around a run that has none. */
  lemma StripAround(t1: seq<PodmanSteps.Event>, checks: seq<PodmanSteps.Event>, t2: seq<PodmanSteps.Event>)
    requires |checks| == 2 && !checks[0].op.RemoveAll? && !checks[1].op.RemoveAll?
    ensures Strip(t1 + checks + t2) == Strip(t1) + (checks + Strip(t2))
  {
    assert Strip(checks) == checks by {
      Single(checks[0]);
      Single(checks[1]);
      StripAppend([checks[0]], [checks[1]]);
      assert checks == [checks[0]] + [checks[1]];
    }
    StripAppend(t1, checks);
    StripAppend(t1 + checks, t2);
  }

  /** A successful inspection, the passed sanity check and stop, then a run
      of the rest. */
  lemma ChecksPassed(ip: Plan<Op>, serverImage: string, sp: Plan<Op>, a: seq<PodmanSteps.Event>, b: seq<PodmanSteps.Event>,
                     ok: bool)
    requires Outcome(a, ip, true) && Outcome(b, sp, ok)
    ensures var checks := [Event(SanityCheck(serverImage), true), Event(StopService, true)];
            Outcome(a + (checks + b), Then(ip, Then(Plan([SanityCheck(serverImage), StopService], true), sp)), ok)
  {
    var cp := Plan([SanityCheck(serverImage), StopService], true);
    var checks := [Event(SanityCheck(serverImage), true), Event(StopService, true)];
    assert checks == AllOk(cp.ops);
    Finished(cp.ops);
    ThenRan(checks, cp, b, sp, ok);
    ThenRan(a, ip, checks + b, Then(cp, sp), ok);
  }

  /** The run that stopped the service starts it again as its last
      operation, and stops and starts it nowhere else. */
  lemma StartedServices(serverImage: string, t1: seq<PodmanSteps.Event>, t2: seq<PodmanSteps.Event>, started: bool)
    requires ServiceOps(t1) == [] && ServiceOps(t2) == []
    ensures var checks := [Event(SanityCheck(serverImage), true), Event(StopService, true)];
            var trace := t1 + checks + t2 + [Event(StartService, started)];
            && BeforeStart(trace) == t1 + checks + t2
            && ServiceOps(trace) == [StopService, StartService]
            && Event(StopService, true) in trace
            && trace[|trace| - 1].op == StartService
  {
    var checks := [Event(SanityCheck(serverImage), true), Event(StopService, true)];
    var last := [Event(StartService, started)];
    var trace := t1 + checks + t2 + last;
    assert trace[..|trace| - 1] == t1 + checks + t2;
    assert trace[|t1| + 1] == Event(StopService, true);
    assert ServiceOps(checks) == [StopService] by {
      Single(checks[0]);
      Single(checks[1]);
      assert checks == [checks[0]] + [checks[1]];
      ServiceOpsAppend([checks[0]], [checks[1]]);
    }
    assert ServiceOps(last) == [StartService] by {
      Single(last[0]);
    }
    ServiceOpsOfFour(t1, checks, t2, last);
  }

  /** The service operations of four consecutive pieces of a trace. */
  lemma ServiceOpsOfFour(a: seq<PodmanSteps.Event>, b: seq<PodmanSteps.Event>, c: seq<PodmanSteps.Event>,
                         d: seq<PodmanSteps.Event>)
    ensures ServiceOps(a + b + c + d) == ServiceOps(a) + ServiceOps(b) + ServiceOps(c) + ServiceOps(d)
  {
    ServiceOpsAppend(a, b);
    ServiceOpsAppend(a + b, c);
    ServiceOpsAppend(a + b + c, d);
  }
}
