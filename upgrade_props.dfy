/**
 * What the plan of `Upgrade` promises about the service, the PostgreSQL
 * version branch and the order of the steps after it. `Upgrade` runs its
 * plan (`PodmanUpgrade.Upgrade` ensures that its run, without the deferred
 * removals and the deferred start, is a run of `UpgradePlan` for the server
 * image and the migration image it computes), so each property below holds
 * of every run, whatever those two computations give.
 */
module UpgradeProperties {
  import opened Wrappers
  import opened GoStrings
  import opened Traces
  import opened PodmanRules
  import opened PodmanSteps
  import opened PodmanUpgrade

  /** Operations that neither remove a directory nor stop or start the service. */
  ghost predicate PlainOps(ops: seq<Op>)
  {
    forall k :: 0 <= k < |ops| ==> PlainOp(ops[k])
  }

  lemma ThenPlain(p: Plan<Op>, q: Plan<Op>)
    requires PlainOps(p.ops) && PlainOps(q.ops)
    ensures PlainOps(Then(p, q).ops)
  {
  }

  /** The version upgrade, whichever migration image it computes. */
  lemma VersionUpgradePlain(migration: Computed, pullPolicy: string, oldPg: string, newPg: string,
                            hostValues: map<string, string>, dir: string)
    ensures PlainOps(VersionUpgradePlan(migration, pullPolicy, oldPg, newPg, hostValues, dir).ops)
  {
    var up := UpgradeContainerPlan(migration, pullPolicy, oldPg, newPg, hostValues, dir);
    if Less(oldPg, newPg) && migration.Success? {
      assert up.ops == [InspectHost, PrepareImage(migration.value, pullPolicy, PullArgs(hostValues)),
                        GenerateVersionUpgradeScript(dir, oldPg, newPg),
                        RunContainer("uyuni-upgrade-pgsql", Prepared, ScriptArgs(dir))];
    }
    ThenPlain(Plan([MakeTempDir], true), up);
  }

  /** The finalization, the post-upgrade and the reload. */
  lemma FinishPlain(serverImage: string, schemaUpdateRequired: bool, env: Env)
    ensures PlainOps(FinishPlan(serverImage, schemaUpdateRequired, env).ops)
  {
    var pp := PostUpgradePlan(serverImage, env.dirs.postUpgrade);
    var rp := ReloadPlan(serverImage);
    ThenPlain(pp, rp);
    ThenPlain(FinalizePlan(serverImage, schemaUpdateRequired, env.dirs.finalize), Then(pp, rp));
  }

  /** Nothing after the stop stops or starts the service again, or removes a
      directory in the plan itself. */
  lemma StoppedPlanPlain(serverImage: string, migration: Computed, pullPolicy: string,
                         inspected: map<string, string>, env: Env)
    ensures PlainOps(StoppedPlan(serverImage, migration, pullPolicy, inspected, env).ops)
  {
    var cur, img := CurrentPg(inspected), ImagePg(inspected);
    FinishPlain(serverImage, cur != img, env);
    VersionUpgradePlain(migration, pullPolicy, cur, img, env.hostValues, env.dirs.versionUpgrade);
    ThenPlain(VersionPlan(migration, pullPolicy, inspected, env), FinishPlan(serverImage, cur != img, env));
  }

  /** The plan of `Upgrade` once the server image is computed: the
      inspection, the sanity check, the stop, then the rest. */
  lemma UpgradePlanStart(serverImage: string, migration: Computed, pullPolicy: string, env: Env)
    ensures var ip := InspectPlan(serverImage, pullPolicy, env.hostValues, env.dirs.inspect, env.inspectOutputDir);
            var sp := StoppedPlan(serverImage, migration, pullPolicy, env.inspected, env);
            UpgradePlan(Success(serverImage), migration, pullPolicy, env)
            == Plan(ip.ops + [SanityCheck(serverImage), StopService] + sp.ops, sp.succeeds)
  {
    var ip := InspectPlan(serverImage, pullPolicy, env.hostValues, env.dirs.inspect, env.inspectOutputDir);
    var sp := StoppedPlan(serverImage, migration, pullPolicy, env.inspected, env);
    var checks := Plan([SanityCheck(serverImage), StopService], true);
    assert UpgradePlan(Success(serverImage), migration, pullPolicy, env) == Then(ip, Then(checks, sp));
    assert Then(checks, sp) == Plan(checks.ops + sp.ops, sp.succeeds);
    assert ip.succeeds;
    assert ip.ops + (checks.ops + sp.ops) == ip.ops + checks.ops + sp.ops;
  }

  /** The service is stopped only once the server image is computed and the
      inspection and the sanity check have all succeeded, and it is stopped
      by the eighth operation and by no other. */
  lemma StopAfterChecks(server: Computed, migration: Computed, pullPolicy: string, env: Env,
                        t: seq<PodmanSteps.Event>, ok: bool, k: nat)
    requires Outcome(t, UpgradePlan(server, migration, pullPolicy, env), ok)
    requires k < |t| && t[k].op == StopService
    ensures server.Success?
    ensures && k == 7
            && t[..k] == AllOk(InspectPlan(server.value, pullPolicy, env.hostValues, env.dirs.inspect,
                                           env.inspectOutputDir).ops + [SanityCheck(server.value)])
  {
    var s := server.value;
    var ip := InspectPlan(s, pullPolicy, env.hostValues, env.dirs.inspect, env.inspectOutputDir);
    var sp := StoppedPlan(s, migration, pullPolicy, env.inspected, env);
    var before := ip.ops + [SanityCheck(s)];
    assert UpgradePlan(server, migration, pullPolicy, env) == Plan(before + [StopService] + sp.ops, sp.succeeds) by {
      UpgradePlanStart(s, migration, pullPolicy, env);
      assert ip.ops + [SanityCheck(s), StopService] == before + [StopService];
    }
    StoppedPlanPlain(s, migration, pullPolicy, env.inspected, env);
    StopAt(t, before, sp.ops, sp.succeeds, ok, k);
  }

  /** In a run of a plan with a single stop, an attempted stop is the
      planned one, and every operation before it succeeded. */
  lemma StopAt(t: seq<PodmanSteps.Event>, before: seq<Op>, after: seq<Op>, succeeds: bool, ok: bool, k: nat)
    requires Outcome(t, Plan(before + [StopService] + after, succeeds), ok)
    requires StopService !in before && PlainOps(after)
    requires k < |t| && t[k].op == StopService
    ensures k == |before| && t[..k] == AllOk(before)
  {
    var ops := before + [StopService] + after;
    assert t[k].op == ops[k];
    assert forall j :: 0 <= j < |before| ==> ops[j] == before[j];
    assert forall j :: |before| < j < |ops| ==> ops[j] == after[j - |before| - 1];
    FollowsPrefixOk(t, ops, k);
    assert ops[..k] == before;
  }

  /** In a run of `Upgrade`, an attempt to stop the service comes right
      after a computed server image, a complete inspection and a passed
      sanity check: a failure of any of these leaves the service alone. */
  lemma UpgradeStopsAfterChecks(server: Computed, migration: Computed, pullPolicy: string, env: Env,
                                trace: seq<PodmanSteps.Event>, ok: bool, stopped: bool)
    requires Outcome(Strip(BeforeStart(trace)), UpgradePlan(server, migration, pullPolicy, env), ok)
    requires Event(StopService, stopped) in trace
    ensures server.Success?
    ensures AllOk(InspectPlan(server.value, pullPolicy, env.hostValues, env.dirs.inspect, env.inspectOutputDir).ops
                  + [SanityCheck(server.value)]) + [Event(StopService, stopped)]
            <= Strip(BeforeStart(trace))
  {
    var t := Strip(BeforeStart(trace));
    var e := Event(StopService, stopped);
    InBeforeStart(trace, e);
    StripKeeps(BeforeStart(trace), e);
    var k :| 0 <= k < |t| && t[k] == e;
    StopAfterChecks(server, migration, pullPolicy, env, t, ok, k);
    PrefixThrough(t, k);
  }

  /** The events up to a position, then the one at it, begin the trace. */
  lemma PrefixThrough(t: seq<PodmanSteps.Event>, k: nat)
    requires k < |t|
    ensures t[..k] + [t[k]] <= t
  {
    assert t[..k] + [t[k]] == t[..k + 1];
  }

  /** Dropping the deferred start keeps every other event. */
  lemma InBeforeStart(trace: seq<PodmanSteps.Event>, e: PodmanSteps.Event)
    requires e in trace && e.op != StartService
    ensures e in BeforeStart(trace)
  {
    if |trace| > 0 && trace[|trace| - 1].op == StartService {
      assert trace == trace[..|trace| - 1] + [trace[|trace| - 1]];
    }
  }

  /** A downgrade of PostgreSQL (the image's version smaller, as Go compares
      strings) is rejected after the stop: nothing after the stop is
      planned, so no version upgrade, finalization, post-upgrade,
      configuration write or reload runs, and the upgrade fails. */
  lemma DowngradeRejected(serverImage: string, migration: Computed, pullPolicy: string, env: Env)
    requires Less(ImagePg(env.inspected), CurrentPg(env.inspected))
    ensures UpgradePlan(Success(serverImage), migration, pullPolicy, env)
            == Plan(InspectPlan(serverImage, pullPolicy, env.hostValues, env.dirs.inspect, env.inspectOutputDir).ops
                    + [SanityCheck(serverImage), StopService], false)
  {
    LessTrichotomy(CurrentPg(env.inspected), ImagePg(env.inspected));
    UpgradePlanStart(serverImage, migration, pullPolicy, env);
    var ip := InspectPlan(serverImage, pullPolicy, env.hostValues, env.dirs.inspect, env.inspectOutputDir);
    assert ip.ops + [SanityCheck(serverImage), StopService] + [] == ip.ops + [SanityCheck(serverImage), StopService];
  }

  /** The version branch, as Go compares strings: a newer version in the
      image runs the version upgrade container on the migration image, equal
      versions run nothing, an older one gives up. */
  lemma VersionBranch(migration: Computed, pullPolicy: string, inspected: map<string, string>, env: Env)
    ensures var cur, img := CurrentPg(inspected), ImagePg(inspected);
            var vp := VersionPlan(migration, pullPolicy, inspected, env);
            && (Less(img, cur) ==> vp == Plan([], false))
            && (img == cur ==> vp == Plan([], true))
            && (Less(cur, img) ==>
                  var dir := env.dirs.versionUpgrade;
                  vp == if migration.Failure? then Plan([MakeTempDir], false)
                        else Plan([MakeTempDir, InspectHost, PrepareImage(migration.value, pullPolicy, PullArgs(env.hostValues)),
                                   GenerateVersionUpgradeScript(dir, cur, img),
                                   RunContainer("uyuni-upgrade-pgsql", Prepared, ScriptArgs(dir))], true))
  {
    var cur, img := CurrentPg(inspected), ImagePg(inspected);
    LessTrichotomy(cur, img);
    if Less(cur, img) {
      var dir := env.dirs.versionUpgrade;
      var up := UpgradeContainerPlan(migration, pullPolicy, cur, img, env.hostValues, dir);
      assert VersionPlan(migration, pullPolicy, inspected, env) == Then(Plan([MakeTempDir], true), up);
      if migration.Success? {
        var a, b := PrepareImage(migration.value, pullPolicy, PullArgs(env.hostValues)), GenerateVersionUpgradeScript(dir, cur, img);
        var c := RunContainer("uyuni-upgrade-pgsql", Prepared, ScriptArgs(dir));
        assert up == Plan([InspectHost, a, b, c], true);
        assert [MakeTempDir] + [InspectHost, a, b, c] == [MakeTempDir, InspectHost, a, b, c];
      } else {
        assert up == Plan([], false);
      }
    }
  }

  /** The version branch succeeds exactly when the image's version is not
      older and, when it is newer, the migration image is computed. */
  lemma VersionSucceeds(migration: Computed, pullPolicy: string, inspected: map<string, string>, env: Env)
    ensures var cur, img := CurrentPg(inspected), ImagePg(inspected);
            VersionPlan(migration, pullPolicy, inspected, env).succeeds
            <==> !Less(img, cur) && (Less(cur, img) ==> migration.Success?)
  {
    VersionBranch(migration, pullPolicy, inspected, env);
    LessTrichotomy(CurrentPg(inspected), ImagePg(inspected));
  }

  /** After the stop: the version branch, then, if it succeeded, the
      finalization, the post-upgrade, the configuration write and the reload. */
  lemma StoppedPlanShape(serverImage: string, migration: Computed, pullPolicy: string,
                         inspected: map<string, string>, env: Env)
    ensures var vp := VersionPlan(migration, pullPolicy, inspected, env);
            StoppedPlan(serverImage, migration, pullPolicy, inspected, env)
            == if !vp.succeeds then vp
               else Plan(vp.ops + FinalizePlan(serverImage, CurrentPg(inspected) != ImagePg(inspected), env.dirs.finalize).ops
                         + PostUpgradePlan(serverImage, env.dirs.postUpgrade).ops
                         + [WriteConf(ConfLine(serverImage)), ReloadDaemon], true)
  {
    var vp := VersionPlan(migration, pullPolicy, inspected, env);
    var fp := FinalizePlan(serverImage, CurrentPg(inspected) != ImagePg(inspected), env.dirs.finalize);
    var pp := PostUpgradePlan(serverImage, env.dirs.postUpgrade);
    var rp := ReloadPlan(serverImage);
    assert vp.ops + (fp.ops + (pp.ops + rp.ops)) == vp.ops + fp.ops + pp.ops + rp.ops;
  }

  /** An upgrade succeeds, when every operation does, exactly when the server
      image is computed, the image's PostgreSQL version is not older, and
      the migration image is computed when the version is newer. */
  lemma UpgradeSucceeds(server: Computed, migration: Computed, pullPolicy: string, env: Env)
    ensures var cur, img := CurrentPg(env.inspected), ImagePg(env.inspected);
            UpgradePlan(server, migration, pullPolicy, env).succeeds
            <==> && server.Success?
                 && !Less(img, cur)
                 && (Less(cur, img) ==> migration.Success?)
  {
    if server.Success? {
      var s := server.value;
      var vp := VersionPlan(migration, pullPolicy, env.inspected, env);
      assert UpgradePlan(server, migration, pullPolicy, env).succeeds == vp.succeeds by {
        UpgradePlanStart(s, migration, pullPolicy, env);
        StoppedPlanShape(s, migration, pullPolicy, env.inspected, env);
      }
      VersionSucceeds(migration, pullPolicy, env.inspected, env);
    }
  }

  /** The operations of a successful upgrade: the inspection, the sanity
      check, the stop, the version upgrade when the version is newer, the
      finalization (told that the schema needs an update exactly when the
      versions differ), the post-upgrade, the configuration write and the
      reload, in this order. */
  lemma UpgradeOps(server: Computed, migration: Computed, pullPolicy: string, env: Env)
    requires UpgradePlan(server, migration, pullPolicy, env).succeeds
    ensures server.Success?
    ensures var cur, img := CurrentPg(env.inspected), ImagePg(env.inspected);
            var s := server.value;
            UpgradePlan(server, migration, pullPolicy, env).ops
            == InspectPlan(s, pullPolicy, env.hostValues, env.dirs.inspect, env.inspectOutputDir).ops
               + [SanityCheck(s), StopService]
               + VersionPlan(migration, pullPolicy, env.inspected, env).ops
               + FinalizePlan(s, cur != img, env.dirs.finalize).ops
               + PostUpgradePlan(s, env.dirs.postUpgrade).ops
               + [WriteConf(ConfLine(s)), ReloadDaemon]
  {
    var s := server.value;
    var ip := InspectPlan(s, pullPolicy, env.hostValues, env.dirs.inspect, env.inspectOutputDir);
    var vp := VersionPlan(migration, pullPolicy, env.inspected, env);
    var sp := StoppedPlan(s, migration, pullPolicy, env.inspected, env);
    var rest := FinalizePlan(s, CurrentPg(env.inspected) != ImagePg(env.inspected), env.dirs.finalize).ops
                + PostUpgradePlan(s, env.dirs.postUpgrade).ops + [WriteConf(ConfLine(s)), ReloadDaemon];
    assert UpgradePlan(server, migration, pullPolicy, env).ops == ip.ops + [SanityCheck(s), StopService] + sp.ops by {
      UpgradePlanStart(s, migration, pullPolicy, env);
    }
    assert sp.ops == vp.ops + rest by {
      UpgradePlanStart(s, migration, pullPolicy, env);
      StoppedPlanShape(s, migration, pullPolicy, env.inspected, env);
    }
    assert ip.ops + [SanityCheck(s), StopService] + (vp.ops + rest)
           == ip.ops + [SanityCheck(s), StopService] + vp.ops + rest;
  }

  /** Every finalization planned is told that the schema needs an update
      exactly when the two PostgreSQL versions differ, and every version
      upgrade container planned runs only when the image's version is
      greater, in the version upgrade's own directory. */
  lemma BranchOps(server: Computed, migration: Computed, pullPolicy: string, env: Env, op: Op)
    requires op in UpgradePlan(server, migration, pullPolicy, env).ops
    ensures op.GenerateFinalizeScript? ==>
              op == GenerateFinalizeScript(env.dirs.finalize, CurrentPg(env.inspected) != ImagePg(env.inspected))
    ensures op.RunContainer? && op.name == "uyuni-upgrade-pgsql" ==>
              Less(CurrentPg(env.inspected), ImagePg(env.inspected))
              && op == RunContainer("uyuni-upgrade-pgsql", Prepared, ScriptArgs(env.dirs.versionUpgrade))
  {
    var cur, img := CurrentPg(env.inspected), ImagePg(env.inspected);
    UpgradeOpIn(server, migration, pullPolicy, env, op);
    if op in VersionPlan(migration, pullPolicy, env.inspected, env).ops {
      VersionOps(migration, pullPolicy, env.inspected, env, op);
    } else {
      OtherOps(server.value, pullPolicy, env, cur != img, op);
    }
  }

  /** Where an operation of the plan of `Upgrade` comes from. */
  lemma UpgradeOpIn(server: Computed, migration: Computed, pullPolicy: string, env: Env, op: Op)
    requires op in UpgradePlan(server, migration, pullPolicy, env).ops
    ensures server.Success?
    ensures var s := server.value;
            var cur, img := CurrentPg(env.inspected), ImagePg(env.inspected);
            || op in VersionPlan(migration, pullPolicy, env.inspected, env).ops
            || op in InspectPlan(s, pullPolicy, env.hostValues, env.dirs.inspect, env.inspectOutputDir).ops
            || op in [SanityCheck(s), StopService]
            || op in FinalizePlan(s, cur != img, env.dirs.finalize).ops
            || op in PostUpgradePlan(s, env.dirs.postUpgrade).ops
            || op in [WriteConf(ConfLine(s)), ReloadDaemon]
  {
    var s := server.value;
    UpgradePlanStart(s, migration, pullPolicy, env);
    StoppedPlanShape(s, migration, pullPolicy, env.inspected, env);
  }

  /** The operations around the version branch: a single finalization
      script, and no version upgrade container. */
  lemma OtherOps(s: string, pullPolicy: string, env: Env, schemaUpdateRequired: bool, op: Op)
    requires || op in InspectPlan(s, pullPolicy, env.hostValues, env.dirs.inspect, env.inspectOutputDir).ops
             || op in [SanityCheck(s), StopService]
             || op in FinalizePlan(s, schemaUpdateRequired, env.dirs.finalize).ops
             || op in PostUpgradePlan(s, env.dirs.postUpgrade).ops
             || op in [WriteConf(ConfLine(s)), ReloadDaemon]
    ensures op.GenerateFinalizeScript? ==> op == GenerateFinalizeScript(env.dirs.finalize, schemaUpdateRequired)
    ensures op.RunContainer? ==> op.name != "uyuni-upgrade-pgsql"
  {
    assert "uyuni-inspect" != "uyuni-upgrade-pgsql";
    assert "uyuni-finalize-pgsql" != "uyuni-upgrade-pgsql";
    assert "uyuni-post-upgrade" != "uyuni-upgrade-pgsql";
  }

  /** The operations of the version branch: the version upgrade container
      only when the image's version is greater. */
  lemma VersionOps(migration: Computed, pullPolicy: string, inspected: map<string, string>, env: Env, op: Op)
    requires op in VersionPlan(migration, pullPolicy, inspected, env).ops
    ensures !op.GenerateFinalizeScript?
    ensures op.RunContainer? ==>
              Less(CurrentPg(inspected), ImagePg(inspected))
              && op == RunContainer("uyuni-upgrade-pgsql", Prepared, ScriptArgs(env.dirs.versionUpgrade))
  {
    VersionBranch(migration, pullPolicy, inspected, env);
    LessTrichotomy(CurrentPg(inspected), ImagePg(inspected));
  }
}
