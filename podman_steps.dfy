/**
 * The steps of the podman upgrade and migration of the server
 * (`mgradm/shared/podman`): each one creates a temporary script directory,
 * runs a container and removes the directory in a deferred call.
 *
 * podman, systemd, the host inspection and the script generators are not
 * modelled: each call is an operation whose success the model does not
 * decide. What the calls return when they succeed (the inspected host
 * values, the data read back from a container, the directory that
 * `os.MkdirTemp` creates) is an input.
 */
module PodmanSteps {
  import opened Wrappers
  import opened GoStrings
  import opened Traces
  import opened PodmanRules
  import Images

  /** `types.ImageFlags`: an image name, its tag and the pull policy. */
  datatype ImageFlags = ImageFlags(name: string, tag: string, pullPolicy: string)

  /** The image a container runs: one given by name, or the one that the
      preceding `PrepareImage` returned. */
  datatype ImageSource = Given(image: string) | Prepared

  /** A computed image name, or why it could not be computed. */
  type Computed = Result<string, Images.ImageError>

  datatype Op =
    | MakeTempDir
    | RemoveAll(path: string)
    | InspectHost
    | PrepareImage(image: string, pullPolicy: string, pullArgs: seq<string>)
    | GenerateInspectScript(dir: string)
    | GenerateMigrationScript(sourceFqdn: string, user: string)
    | GenerateVersionUpgradeScript(dir: string, oldPg: string, newPg: string)
    | GenerateFinalizeScript(dir: string, schemaUpdateRequired: bool)
    | GeneratePostUpgradeScript(dir: string)
    | RunContainer(name: string, source: ImageSource, args: seq<string>)
    | ReadInspectData(dir: string)
    | ReadContainerData(dir: string)
    | SanityCheck(image: string)
    | StopService
    | StartService
    | WriteConf(content: string)
    | ReloadDaemon

  type Event = Traces.Event<Op>

  datatype StepError =
    | TempDirFailed
    | HostInspectionFailed
    | PrepareImageFailed
    | ScriptGenerationFailed
    | ContainerFailed(name: string)
    | ReadDataFailed
    | ImageUrlFailed

  // ---------------------------------------------------------------------
  // Deferred calls
  // ---------------------------------------------------------------------

  /** An operation that is neither a deferred removal nor a change of the
      service state. */
  predicate PlainOp(op: Op)
  {
    !op.RemoveAll? && !op.StopService? && !op.StartService?
  }

  ghost predicate Plain(t: seq<Event>)
  {
    forall k :: 0 <= k < |t| ==> PlainOp(t[k].op)
  }

  /** A run that follows a plan of plain operations is plain. */
  lemma FollowsPlain(t: seq<Event>, ops: seq<Op>)
    requires Follows(t, ops) && forall k :: 0 <= k < |ops| ==> PlainOp(ops[k])
    ensures Plain(t)
  {
  }

  /** A step's trace: its own plain operations, then the deferred removal of
      `path` as the very last operation. */
  ghost predicate RemovedLast(t: seq<Event>, path: string)
  {
    |t| > 0 && t[|t| - 1].op == RemoveAll(path) && Plain(t[..|t| - 1])
  }

  /** The trace without the deferred removals of temporary directories. */
  function Strip(t: seq<Event>): (r: seq<Event>)
    ensures |r| <= |t|
  {
    if t == [] then []
    else Strip(t[..|t| - 1]) + (if t[|t| - 1].op.RemoveAll? then [] else [t[|t| - 1]])
  }

  lemma {:induction false} StripAppend(a: seq<Event>, b: seq<Event>)
    ensures Strip(a + b) == Strip(a) + Strip(b)
    decreases |b|
  {
    if b == [] {
      assert a + b == a;
    } else {
      StripAppend(a, b[..|b| - 1]);
      assert (a + b)[..|a + b| - 1] == a + b[..|b| - 1];
    }
  }

  /** Only removals are dropped. */
  lemma {:induction false} StripKeeps(t: seq<Event>, e: Event)
    requires e in t && !e.op.RemoveAll?
    ensures e in Strip(t)
    decreases |t|
  {
    if t[|t| - 1] != e {
      assert t == t[..|t| - 1] + [t[|t| - 1]];
      StripKeeps(t[..|t| - 1], e);
    }
  }

  lemma {:induction false} StripPlain(t: seq<Event>)
    requires Plain(t)
    ensures Strip(t) == t
    decreases |t|
  {
    if t != [] {
      StripPlain(t[..|t| - 1]);
    }
  }

  /** The stops and starts of the service in a trace, in order. */
  function ServiceOps(t: seq<Event>): seq<Op>
  {
    if t == [] then []
    else
      var op := t[|t| - 1].op;
      ServiceOps(t[..|t| - 1]) + (if op == StopService || op == StartService then [op] else [])
  }

  lemma {:induction false} ServiceOpsAppend(a: seq<Event>, b: seq<Event>)
    ensures ServiceOps(a + b) == ServiceOps(a) + ServiceOps(b)
    decreases |b|
  {
    if b == [] {
      assert a + b == a;
    } else {
      ServiceOpsAppend(a, b[..|b| - 1]);
      assert (a + b)[..|a + b| - 1] == a + b[..|b| - 1];
    }
  }

  /** A trace has no stop or start exactly when none of its events is one. */
  lemma {:induction false} NoServiceOps(t: seq<Event>)
    ensures ServiceOps(t) == [] <==> forall k :: 0 <= k < |t| ==> t[k].op != StopService && t[k].op != StartService
    decreases |t|
  {
    if t != [] {
      NoServiceOps(t[..|t| - 1]);
    }
  }

  /** A trace of one event. */
  lemma Single(e: Event)
    ensures Strip([e]) == (if e.op.RemoveAll? then [] else [e])
    ensures ServiceOps([e]) == (if e.op == StopService || e.op == StartService then [e.op] else [])
  {
    assert [e][..0] == [];
  }

  /** A step's trace, once its deferred removal is dropped, is its own
      operations, and it neither stops nor starts the service. */
  lemma StepTrace(t: seq<Event>, path: string)
    requires RemovedLast(t, path)
    ensures Strip(t) == t[..|t| - 1]
    ensures ServiceOps(t) == []
  {
    var body := t[..|t| - 1];
    assert t == body + [t[|t| - 1]];
    StripPlain(body);
    StripAppend(body, [t[|t| - 1]]);
    assert Strip([t[|t| - 1]]) == [] by {
      assert [t[|t| - 1]][..0] == [];
    }
    NoServiceOps(t);
  }

  /** A step's run, seen without its deferred removal, keeps the outcome of
      its own operations. */
  lemma StepRan(t: seq<Event>, path: string, p: Plan<Op>, ok: bool)
    requires RemovedLast(t, path) && Outcome(t[..|t| - 1], p, ok)
    ensures Outcome(Strip(t), p, ok) && ServiceOps(t) == []
  {
    StepTrace(t, path);
  }

  /** A run of plain operations is its own run without removals. */
  lemma PlainRan(t: seq<Event>, p: Plan<Op>, ok: bool)
    requires Plain(t) && Outcome(t, p, ok)
    ensures Outcome(Strip(t), p, ok) && ServiceOps(t) == []
  {
    StripPlain(t);
    NoServiceOps(t);
  }

  /** Two runs, the first one successful, make a run of the two plans in
      sequence, whatever deferred removals they hold. */
  lemma ThenSteps(a: seq<Event>, p: Plan<Op>, b: seq<Event>, q: Plan<Op>, ok: bool)
    requires Outcome(Strip(a), p, true) && ServiceOps(a) == []
    requires Outcome(Strip(b), q, ok) && ServiceOps(b) == []
    ensures Outcome(Strip(a + b), Then(p, q), ok) && ServiceOps(a + b) == []
  {
    ThenRan(Strip(a), p, Strip(b), q, ok);
    StripAppend(a, b);
    ServiceOpsAppend(a, b);
  }

  /** After a successful step, a run stops where the next steps stop,
      shifted by the length of the step's plan. */
  /** A step followed by a plain run: the joined run follows the joined
      plans, and it stops where the plain run stops, past the whole step. */
  lemma StepThenPlain(a: seq<Event>, p: Plan<Op>, b: seq<Event>, q: Plan<Op>, ok: bool)
    requires Outcome(Strip(a), p, true) && ServiceOps(a) == []
    requires Plain(b) && Outcome(b, q, ok)
    ensures Outcome(Strip(a + b), Then(p, q), ok) && ServiceOps(a + b) == []
    ensures StopAt(Strip(a + b)) == |p.ops| + StopAt(b)
  {
    PlainRan(b, q, ok);
    ThenSteps(a, p, b, q, ok);
    StopAfterStep(a, p, b);
    StripPlain(b);
  }

  lemma StopAfterStep(a: seq<Event>, p: Plan<Op>, b: seq<Event>)
    requires Outcome(Strip(a), p, true)
    ensures StopAt(Strip(a + b)) == |p.ops| + StopAt(Strip(b))
  {
    StripAppend(a, b);
    StopAfter(Strip(a), p, Strip(b));
  }

  /** The deferred `os.RemoveAll(dir)`: it is attempted whatever happened
      before, and its outcome is ignored. */
  method RemoveLast(body: seq<Event>, path: string) returns (trace: seq<Event>)
    ensures |trace| == |body| + 1 && trace[..|body|] == body && trace[|body|].op == RemoveAll(path)
  {
    var ok := Attempt();
    trace := body + [Event(RemoveAll(path), ok)];
  }

  // ---------------------------------------------------------------------
  // Inspect
  // ---------------------------------------------------------------------

  /** `Inspect(serverImage, pullPolicy)`: create the script directory,
      inspect the host, pull the image with the SCC credentials, generate the
      inspection script, run it in the `uyuni-inspect` container and read
      its output. */
  function InspectPlan(serverImage: string, pullPolicy: string, hostValues: map<string, string>,
                       dir: string, outputDir: string): Plan<Op>
  {
    Plan([MakeTempDir, InspectHost, PrepareImage(serverImage, pullPolicy, PullArgs(hostValues)),
          GenerateInspectScript(dir), RunContainer("uyuni-inspect", Prepared, InspectArgs(dir, outputDir)),
          ReadInspectData(dir)], true)
  }

  method InspectSteps(serverImage: string, pullPolicy: string, hostValues: map<string, string>,
                      dir: string, outputDir: string, data: map<string, string>)
    returns (values: map<string, string>, err: Option<StepError>, body: seq<Event>)
    ensures |body| > 0 && body[0].op == MakeTempDir
    ensures Outcome(body, InspectPlan(serverImage, pullPolicy, hostValues, dir, outputDir), err.None?)
    ensures err.Some? ==> values == map[]
    ensures err.None? ==> values == data
  {
    ghost var plan := InspectPlan(serverImage, pullPolicy, hostValues, dir, outputDir).ops;
    values, body := map[], [];
    var ok := Perform(body, plan, MakeTempDir);
    body := body + [Event(MakeTempDir, ok)];
    if !ok { return values, Some(TempDirFailed), body; }

    ok := Perform(body, plan, InspectHost);
    body := body + [Event(InspectHost, ok)];
    if !ok { return values, Some(HostInspectionFailed), body; }

    var pullArgs := PullArgs(hostValues);
    ok := Perform(body, plan, PrepareImage(serverImage, pullPolicy, pullArgs));
    body := body + [Event(PrepareImage(serverImage, pullPolicy, pullArgs), ok)];
    if !ok { return values, Some(PrepareImageFailed), body; }

    ok := Perform(body, plan, GenerateInspectScript(dir));
    body := body + [Event(GenerateInspectScript(dir), ok)];
    if !ok { return values, Some(ScriptGenerationFailed), body; }

    var args := InspectArgs(dir, outputDir);
    ok := Perform(body, plan, RunContainer("uyuni-inspect", Prepared, args));
    body := body + [Event(RunContainer("uyuni-inspect", Prepared, args), ok)];
    if !ok { return values, Some(ContainerFailed("uyuni-inspect")), body; }

    ok := Perform(body, plan, ReadInspectData(dir));
    body := body + [Event(ReadInspectData(dir), ok)];
    if !ok { return values, Some(ReadDataFailed), body; }
    assert plan[..|body|] == plan;
    Finished(plan);
    values, err := data, None;
  }

  /** `Inspect`: the inspected values, or the empty map on any failure; the
      directory is removed last, and `os.RemoveAll("")` is what runs when it
      could not be created. */
  method Inspect(serverImage: string, pullPolicy: string, hostValues: map<string, string>,
                 dir: string, outputDir: string, data: map<string, string>)
    returns (values: map<string, string>, err: Option<StepError>, trace: seq<Event>)
    ensures |trace| >= 2 && trace[0].op == MakeTempDir
    ensures RemovedLast(trace, if trace[0].ok then dir else "")
    ensures Outcome(trace[..|trace| - 1], InspectPlan(serverImage, pullPolicy, hostValues, dir, outputDir), err.None?)
    ensures err.Some? ==> values == map[]
    ensures err.None? ==> values == data
  {
    var body;
    values, err, body := InspectSteps(serverImage, pullPolicy, hostValues, dir, outputDir, data);
    FollowsPlain(body, InspectPlan(serverImage, pullPolicy, hostValues, dir, outputDir).ops);
    trace := RemoveLast(body, if body[0].ok then dir else "");
  }

  // ---------------------------------------------------------------------
  // RunMigration
  // ---------------------------------------------------------------------

  /** What the migration container leaves behind: the time zone and the old
      and new PostgreSQL versions. */
  datatype MigrationData = MigrationData(tz: string, oldPg: string, newPg: string)

  /** `RunMigration`: generate the migration script (which creates its
      directory), inspect the host, pull the image, run the `uyuni-migration`
      container and read the data it extracted. */
  function MigrationPlan(serverImage: string, pullPolicy: string, sshAuthSocket: string, sshConfigPath: string,
                         sshKnownhostsPath: string, sourceFqdn: string, user: string,
                         scriptDir: string, hostValues: map<string, string>): Plan<Op>
  {
    Plan([GenerateMigrationScript(sourceFqdn, user), InspectHost,
          PrepareImage(serverImage, pullPolicy, PullArgs(hostValues)),
          RunContainer("uyuni-migration", Prepared, MigrationArgs(sshAuthSocket, scriptDir, sshConfigPath, sshKnownhostsPath)),
          ReadContainerData(scriptDir)], true)
  }

  method MigrationSteps(serverImage: string, pullPolicy: string, sshAuthSocket: string, sshConfigPath: string,
                        sshKnownhostsPath: string, sourceFqdn: string, user: string,
                        scriptDir: string, hostValues: map<string, string>, data: MigrationData)
    returns (result: MigrationData, err: Option<StepError>, body: seq<Event>)
    ensures |body| > 0 && body[0].op == GenerateMigrationScript(sourceFqdn, user)
    ensures !body[0].ok ==> |body| == 1
    ensures Outcome(body, MigrationPlan(serverImage, pullPolicy, sshAuthSocket, sshConfigPath, sshKnownhostsPath,
                                        sourceFqdn, user, scriptDir, hostValues), err.None?)
    ensures err.Some? ==> result == MigrationData("", "", "")
    ensures err.None? ==> result == data
  {
    ghost var plan := MigrationPlan(serverImage, pullPolicy, sshAuthSocket, sshConfigPath, sshKnownhostsPath,
                                    sourceFqdn, user, scriptDir, hostValues).ops;
    result, body := MigrationData("", "", ""), [];
    var ok := Perform(body, plan, GenerateMigrationScript(sourceFqdn, user));
    body := body + [Event(GenerateMigrationScript(sourceFqdn, user), ok)];
    if !ok { return result, Some(ScriptGenerationFailed), body; }

    var extraArgs := MigrationArgs(sshAuthSocket, scriptDir, sshConfigPath, sshKnownhostsPath);
    ok := Perform(body, plan, InspectHost);
    body := body + [Event(InspectHost, ok)];
    if !ok { return result, Some(HostInspectionFailed), body; }

    var pullArgs := PullArgs(hostValues);
    ok := Perform(body, plan, PrepareImage(serverImage, pullPolicy, pullArgs));
    body := body + [Event(PrepareImage(serverImage, pullPolicy, pullArgs), ok)];
    if !ok { return result, Some(PrepareImageFailed), body; }

    ok := Perform(body, plan, RunContainer("uyuni-migration", Prepared, extraArgs));
    body := body + [Event(RunContainer("uyuni-migration", Prepared, extraArgs), ok)];
    if !ok { return result, Some(ContainerFailed("uyuni-migration")), body; }

    ok := Perform(body, plan, ReadContainerData(scriptDir));
    body := body + [Event(ReadContainerData(scriptDir), ok)];
    if !ok { return result, Some(ReadDataFailed), body; }
    assert plan[..|body|] == plan;
    Finished(plan);
    result, err := data, None;
  }

  /** `RunMigration`: the time zone and the two versions, or three empty
      strings on any failure. The script directory is removed last, but only
      once the script generation has succeeded. */
  method RunMigration(serverImage: string, pullPolicy: string, sshAuthSocket: string, sshConfigPath: string,
                      sshKnownhostsPath: string, sourceFqdn: string, user: string,
                      scriptDir: string, hostValues: map<string, string>, data: MigrationData)
    returns (tz: string, oldPg: string, newPg: string, err: Option<StepError>, trace: seq<Event>)
    ensures |trace| > 0 && trace[0].op == GenerateMigrationScript(sourceFqdn, user)
    ensures !trace[0].ok ==> |trace| == 1 && err.Some?
    ensures trace[0].ok ==> RemovedLast(trace, scriptDir)
    ensures Outcome(if trace[0].ok then trace[..|trace| - 1] else trace,
                    MigrationPlan(serverImage, pullPolicy, sshAuthSocket, sshConfigPath, sshKnownhostsPath,
                                  sourceFqdn, user, scriptDir, hostValues), err.None?)
    ensures err.Some? ==> tz == "" && oldPg == "" && newPg == ""
    ensures err.None? ==> MigrationData(tz, oldPg, newPg) == data
  {
    var result, body;
    result, err, body := MigrationSteps(serverImage, pullPolicy, sshAuthSocket, sshConfigPath, sshKnownhostsPath,
                                        sourceFqdn, user, scriptDir, hostValues, data);
    tz, oldPg, newPg := result.tz, result.oldPg, result.newPg;
    if !body[0].ok {
      return tz, oldPg, newPg, err, body;
    }
    FollowsPlain(body, MigrationPlan(serverImage, pullPolicy, sshAuthSocket, sshConfigPath, sshKnownhostsPath,
                                     sourceFqdn, user, scriptDir, hostValues).ops);
    trace := RemoveLast(body, scriptDir);
  }

  // ---------------------------------------------------------------------
  // RunPgsqlVersionUpgrade
  // ---------------------------------------------------------------------

  /** `RunPgsqlVersionUpgrade`: create the script directory; when the new
      version is greater (as Go compares strings), compute the migration
      image, inspect the host, pull the image, generate the upgrade script
      and run it in the `uyuni-upgrade-pgsql` container. `migration` is what
      the computation of the migration image gives (`MigrationImageUrl`);
      it is used only when the new version is greater. */
  function VersionUpgradePlan(migration: Computed, pullPolicy: string,
                              oldPg: string, newPg: string, hostValues: map<string, string>, dir: string): Plan<Op>
  {
    Then(Plan([MakeTempDir], true), UpgradeContainerPlan(migration, pullPolicy, oldPg, newPg, hostValues, dir))
  }

  /** What `RunPgsqlVersionUpgrade` does once the directory exists. */
  function UpgradeContainerPlan(migration: Computed, pullPolicy: string,
                                oldPg: string, newPg: string, hostValues: map<string, string>, dir: string): Plan<Op>
  {
    if !Less(oldPg, newPg) then Plan([], true)
    else match migration
         case Failure(_) => Plan([], false)
         case Success(url) =>
           Plan([InspectHost, PrepareImage(url, pullPolicy, PullArgs(hostValues)),
                 GenerateVersionUpgradeScript(dir, oldPg, newPg),
                 RunContainer("uyuni-upgrade-pgsql", Prepared, ScriptArgs(dir))], true)
  }

  method UpgradeContainerSteps(image: ImageFlags, migrationImage: ImageFlags, oldPg: string, newPg: string,
                               hostValues: map<string, string>, dir: string)
    returns (err: Option<StepError>, body: seq<Event>)
    ensures Outcome(body, UpgradeContainerPlan(MigrationImageUrl(image.name, image.tag, migrationImage.name, oldPg, newPg),
                                               image.pullPolicy, oldPg, newPg, hostValues, dir), err.None?)
  {
    body := [];
    if !Less(oldPg, newPg) {
      Finished<Op>([]);
      return None, body;
    }
    var url := MigrationImageUrl(image.name, image.tag, migrationImage.name, oldPg, newPg);
    if url.Failure? {
      GaveUp<Op>([]);
      return Some(ImageUrlFailed), body;
    }
    err, body := UpgradeContainerRun(url.value, image.pullPolicy, oldPg, newPg, hostValues, dir);
  }

  /** The upgrade proper, once the migration image is known: inspect the
      host, pull the image, generate the script, run the container. */
  method UpgradeContainerRun(url: string, pullPolicy: string, oldPg: string, newPg: string,
                             hostValues: map<string, string>, dir: string)
    returns (err: Option<StepError>, body: seq<Event>)
    requires Less(oldPg, newPg)
    ensures Outcome(body, UpgradeContainerPlan(Success(url), pullPolicy, oldPg, newPg, hostValues, dir), err.None?)
  {
    ghost var plan := [InspectHost, PrepareImage(url, pullPolicy, PullArgs(hostValues)),
                       GenerateVersionUpgradeScript(dir, oldPg, newPg),
                       RunContainer("uyuni-upgrade-pgsql", Prepared, ScriptArgs(dir))];
    assert UpgradeContainerPlan(Success(url), pullPolicy, oldPg, newPg, hostValues, dir) == Plan(plan, true);
    body := [];

    var ok := Perform(body, plan, InspectHost);
    body := body + [Event(InspectHost, ok)];
    if !ok { return Some(HostInspectionFailed), body; }

    var pullArgs := PullArgs(hostValues);
    ok := Perform(body, plan, PrepareImage(url, pullPolicy, pullArgs));
    body := body + [Event(PrepareImage(url, pullPolicy, pullArgs), ok)];
    if !ok { return Some(PrepareImageFailed), body; }

    ok := Perform(body, plan, GenerateVersionUpgradeScript(dir, oldPg, newPg));
    body := body + [Event(GenerateVersionUpgradeScript(dir, oldPg, newPg), ok)];
    if !ok { return Some(ScriptGenerationFailed), body; }

    ok := Perform(body, plan, RunContainer("uyuni-upgrade-pgsql", Prepared, ScriptArgs(dir)));
    body := body + [Event(RunContainer("uyuni-upgrade-pgsql", Prepared, ScriptArgs(dir)), ok)];
    if !ok { return Some(ContainerFailed("uyuni-upgrade-pgsql")), body; }
    assert plan[..|body|] == plan;
    Finished(plan);
    err := None;
  }

  method VersionUpgradeSteps(image: ImageFlags, migrationImage: ImageFlags, oldPg: string, newPg: string,
                             hostValues: map<string, string>, dir: string)
    returns (err: Option<StepError>, body: seq<Event>)
    ensures |body| > 0 && body[0].op == MakeTempDir
    ensures Outcome(body, VersionUpgradePlan(MigrationImageUrl(image.name, image.tag, migrationImage.name, oldPg, newPg),
                                             image.pullPolicy, oldPg, newPg, hostValues, dir), err.None?)
  {
    ghost var first := Plan([MakeTempDir], true);
    ghost var rest := UpgradeContainerPlan(MigrationImageUrl(image.name, image.tag, migrationImage.name, oldPg, newPg),
                                           image.pullPolicy, oldPg, newPg, hostValues, dir);
    var ok := Perform([], first.ops, MakeTempDir);
    if !ok {
      body := [Event(MakeTempDir, false)];
      ThenFailed(body, first, rest);
      return Some(TempDirFailed), body;
    }
    var head := [Event(MakeTempDir, true)];
    assert first.ops[..1] == first.ops;
    Finished(first.ops);
    var tail;
    err, tail := UpgradeContainerSteps(image, migrationImage, oldPg, newPg, hostValues, dir);
    ThenRan(head, first, tail, rest, err.None?);
    body := head + tail;
  }

  /** `RunPgsqlVersionUpgrade`, with its deferred removal of the directory. */
  method RunPgsqlVersionUpgrade(image: ImageFlags, migrationImage: ImageFlags, oldPg: string, newPg: string,
                                hostValues: map<string, string>, dir: string)
    returns (err: Option<StepError>, trace: seq<Event>)
    ensures |trace| >= 2 && trace[0].op == MakeTempDir
    ensures RemovedLast(trace, if trace[0].ok then dir else "")
    ensures Outcome(trace[..|trace| - 1],
                    VersionUpgradePlan(MigrationImageUrl(image.name, image.tag, migrationImage.name, oldPg, newPg),
                                       image.pullPolicy, oldPg, newPg, hostValues, dir), err.None?)
    ensures Outcome(Strip(trace),
                    VersionUpgradePlan(MigrationImageUrl(image.name, image.tag, migrationImage.name, oldPg, newPg),
                                       image.pullPolicy, oldPg, newPg, hostValues, dir), err.None?)
    ensures ServiceOps(trace) == []
  {
    var body;
    err, body := VersionUpgradeSteps(image, migrationImage, oldPg, newPg, hostValues, dir);
    FollowsPlain(body, VersionUpgradePlan(MigrationImageUrl(image.name, image.tag, migrationImage.name, oldPg, newPg),
                                          image.pullPolicy, oldPg, newPg, hostValues, dir).ops);
    trace := RemoveLast(body, if body[0].ok then dir else "");
    StepTrace(trace, if trace[0].ok then dir else "");
  }

  // ---------------------------------------------------------------------
  // RunPgsqlFinalizeScript and RunPostUpgradeScript
  // ---------------------------------------------------------------------

  /** `RunPgsqlFinalizeScript`: create the script directory, generate the
      finalization script and run it in the `uyuni-finalize-pgsql` container
      on the server image. */
  function FinalizePlan(serverImage: string, schemaUpdateRequired: bool, dir: string): Plan<Op>
  {
    Plan([MakeTempDir, GenerateFinalizeScript(dir, schemaUpdateRequired),
          RunContainer("uyuni-finalize-pgsql", Given(serverImage), ScriptArgs(dir))], true)
  }

  method FinalizeSteps(serverImage: string, schemaUpdateRequired: bool, dir: string)
    returns (err: Option<StepError>, body: seq<Event>)
    ensures |body| > 0 && body[0].op == MakeTempDir
    ensures Outcome(body, FinalizePlan(serverImage, schemaUpdateRequired, dir), err.None?)
  {
    ghost var plan := FinalizePlan(serverImage, schemaUpdateRequired, dir).ops;
    body := [];
    var ok := Perform(body, plan, MakeTempDir);
    body := body + [Event(MakeTempDir, ok)];
    if !ok { return Some(TempDirFailed), body; }

    ok := Perform(body, plan, GenerateFinalizeScript(dir, schemaUpdateRequired));
    body := body + [Event(GenerateFinalizeScript(dir, schemaUpdateRequired), ok)];
    if !ok { return Some(ScriptGenerationFailed), body; }

    ok := Perform(body, plan, RunContainer("uyuni-finalize-pgsql", Given(serverImage), ScriptArgs(dir)));
    body := body + [Event(RunContainer("uyuni-finalize-pgsql", Given(serverImage), ScriptArgs(dir)), ok)];
    if !ok { return Some(ContainerFailed("uyuni-finalize-pgsql")), body; }
    assert plan[..|body|] == plan;
    Finished(plan);
    err := None;
  }

  /** `RunPgsqlFinalizeScript`, with its deferred removal of the directory. */
  method RunPgsqlFinalizeScript(serverImage: string, schemaUpdateRequired: bool, dir: string)
    returns (err: Option<StepError>, trace: seq<Event>)
    ensures |trace| >= 2 && trace[0].op == MakeTempDir
    ensures RemovedLast(trace, if trace[0].ok then dir else "")
    ensures Outcome(trace[..|trace| - 1], FinalizePlan(serverImage, schemaUpdateRequired, dir), err.None?)
    ensures Outcome(Strip(trace), FinalizePlan(serverImage, schemaUpdateRequired, dir), err.None?) && ServiceOps(trace) == []
  {
    var body;
    err, body := FinalizeSteps(serverImage, schemaUpdateRequired, dir);
    FollowsPlain(body, FinalizePlan(serverImage, schemaUpdateRequired, dir).ops);
    trace := RemoveLast(body, if body[0].ok then dir else "");
    StepRan(trace, if trace[0].ok then dir else "", FinalizePlan(serverImage, schemaUpdateRequired, dir), err.None?);
  }

  /** `RunPostUpgradeScript`: create the script directory, generate the
      post-upgrade script and run it in the `uyuni-post-upgrade` container on
      the server image. */
  function PostUpgradePlan(serverImage: string, dir: string): Plan<Op>
  {
    Plan([MakeTempDir, GeneratePostUpgradeScript(dir),
          RunContainer("uyuni-post-upgrade", Given(serverImage), ScriptArgs(dir))], true)
  }

  method PostUpgradeSteps(serverImage: string, dir: string)
    returns (err: Option<StepError>, body: seq<Event>)
    ensures |body| > 0 && body[0].op == MakeTempDir
    ensures Outcome(body, PostUpgradePlan(serverImage, dir), err.None?)
  {
    ghost var plan := PostUpgradePlan(serverImage, dir).ops;
    body := [];
    var ok := Perform(body, plan, MakeTempDir);
    body := body + [Event(MakeTempDir, ok)];
    if !ok { return Some(TempDirFailed), body; }

    ok := Perform(body, plan, GeneratePostUpgradeScript(dir));
    body := body + [Event(GeneratePostUpgradeScript(dir), ok)];
    if !ok { return Some(ScriptGenerationFailed), body; }

    ok := Perform(body, plan, RunContainer("uyuni-post-upgrade", Given(serverImage), ScriptArgs(dir)));
    body := body + [Event(RunContainer("uyuni-post-upgrade", Given(serverImage), ScriptArgs(dir)), ok)];
    if !ok { return Some(ContainerFailed("uyuni-post-upgrade")), body; }
    assert plan[..|body|] == plan;
    Finished(plan);
    err := None;
  }

  /** `RunPostUpgradeScript`, with its deferred removal of the directory. */
  method RunPostUpgradeScript(serverImage: string, dir: string)
    returns (err: Option<StepError>, trace: seq<Event>)
    ensures |trace| >= 2 && trace[0].op == MakeTempDir
    ensures RemovedLast(trace, if trace[0].ok then dir else "")
    ensures Outcome(trace[..|trace| - 1], PostUpgradePlan(serverImage, dir), err.None?)
    ensures Outcome(Strip(trace), PostUpgradePlan(serverImage, dir), err.None?) && ServiceOps(trace) == []
  {
    var body;
    err, body := PostUpgradeSteps(serverImage, dir);
    FollowsPlain(body, PostUpgradePlan(serverImage, dir).ops);
    trace := RemoveLast(body, if body[0].ok then dir else "");
    StepRan(trace, if trace[0].ok then dir else "", PostUpgradePlan(serverImage, dir), err.None?);
  }
}
