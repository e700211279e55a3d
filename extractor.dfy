/**
 * `mgradm support config`: run supportconfig in the server container (and on
 * the host when it is installed), collect the generated tarballs and pack
 * them into one archive.
 *
 * The container runtime, the host commands and the file system are not
 * modelled; each effect is an operation whose success is chosen
 * nondeterministically, and the method returns the trace of operations it
 * attempted. The outputs of the two supportconfig runs, whether supportconfig
 * is installed on the host, whether the host tarball exists, the temporary
 * directory that `os.MkdirTemp` creates and the output path are inputs.
 */
module SupportConfig {
  import opened Wrappers
  import opened GoStrings
  import opened Traces

  // ---------------------------------------------------------------------
  // Finding the tarball path in the supportconfig output
  // ---------------------------------------------------------------------

  const SccPrefix: string := "/var/log/scc_"
  const SccSuffix: string := ".txz"

  /** A match of `/var/log/scc_[^.]+\.txz`: the prefix, a non-empty middle
      without a dot, and the suffix. */
  ghost predicate IsSccPath(m: string)
  {
    && |m| > |SccPrefix| + |SccSuffix|
    && m[..|SccPrefix|] == SccPrefix
    && m[|m| - |SccSuffix|..] == SccSuffix
    && Lacks(m[|SccPrefix|..|m| - |SccSuffix|], '.')
  }

  /** The end of the match that starts at `i`, if one does. The middle cannot
      contain a dot, so it ends at the first dot after the prefix, and the
      suffix has to start there. */
  function MatchEnd(s: string, i: nat): (r: Option<nat>)
    requires i <= |s|
    ensures r.Some? ==> i < r.value <= |s|
  {
    if !HasPrefix(s[i..], SccPrefix) then None
    else
      var m := i + |SccPrefix|;
      var j := m + IndexOf(s[m..], '.');
      if j > m && HasPrefix(s[j..], SccSuffix) then Some(j + |SccSuffix|) else None
  }

  /** `MatchEnd` finds exactly the matches that start at `i`, so there is at
      most one of them. */
  lemma MatchEndSpec(s: string, i: nat, e: nat)
    requires i <= e <= |s|
    ensures MatchEnd(s, i) == Some(e) <==> IsSccPath(s[i..e])
  {
    if MatchEnd(s, i) == Some(e) {
      MatchEndSound(s, i, e);
    }
    if IsSccPath(s[i..e]) {
      MatchEndComplete(s, i, e);
    }
  }

  lemma MatchEndSound(s: string, i: nat, e: nat)
    requires i <= e <= |s| && MatchEnd(s, i) == Some(e)
    ensures IsSccPath(s[i..e])
  {
    var p := |SccPrefix|;
    var m := i + p;
    assert |SccSuffix| == 4;
    var j := m + IndexOf(s[m..], '.');
    assert e == j + 4;
    var w := s[i..e];
    assert w[..p] == s[i..][..p];
    assert w[|w| - 4..] == s[j..][..4];
    var mid := w[p..|w| - 4];
    assert forall k :: 0 <= k < |mid| ==> mid[k] == s[m..][k];
  }

  lemma MatchEndComplete(s: string, i: nat, e: nat)
    requires i <= e <= |s| && IsSccPath(s[i..e])
    ensures MatchEnd(s, i) == Some(e)
  {
    var p := |SccPrefix|;
    var m := i + p;
    assert |SccSuffix| == 4;
    var w := s[i..e];
    var mid := w[p..|w| - 4];
    assert forall k :: 0 <= k < p ==> s[i..][k] == w[k];
    assert s[i..][..p] == w[..p];
    assert forall k :: 0 <= k < |mid| ==> s[m..][k] == mid[k];
    assert s[m..][e - 4 - m] == w[|w| - 4..][0];
    assert IndexOf(s[m..], '.') == e - 4 - m;
    assert s[e - 4..][..4] == w[|w| - 4..];
  }

  /** Leftmost search: the first position at or after `i` where a match starts,
      with the end of that match. */
  function FindFrom(s: string, i: nat): Option<(nat, nat)>
    requires i <= |s|
    decreases |s| - i
  {
    match MatchEnd(s, i)
    case Some(e) => Some((i, e))
    case None => if i == |s| then None else FindFrom(s, i + 1)
  }

  lemma FindFromSpec(s: string, i: nat)
    requires i <= |s|
    ensures FindFrom(s, i).None? ==>
              forall a, e :: i <= a <= e <= |s| ==> !IsSccPath(s[a..e])
    ensures FindFrom(s, i).Some? ==>
              var (a, e) := FindFrom(s, i).value;
              && i <= a <= e <= |s| && IsSccPath(s[a..e])
              && forall a', e' :: i <= a' < a && a' <= e' <= |s| ==> !IsSccPath(s[a'..e'])
  {
    if FindFrom(s, i).None? {
      FindFromNone(s, i);
    } else {
      FindFromSome(s, i);
    }
  }

  /** When the search finds nothing, no match starts at or after `i`. */
  lemma {:induction false} FindFromNone(s: string, i: nat)
    requires i <= |s| && FindFrom(s, i).None?
    ensures forall a, e :: i <= a <= e <= |s| ==> !IsSccPath(s[a..e])
    decreases |s| - i
  {
    NoMatchAt(s, i);
    if i < |s| {
      FindFromNone(s, i + 1);
    }
  }

  /** What the search finds is a match, and no match starts between `i` and
      it. */
  lemma {:induction false} FindFromSome(s: string, i: nat)
    requires i <= |s| && FindFrom(s, i).Some?
    ensures var (a, e) := FindFrom(s, i).value;
            && i <= a <= e <= |s| && IsSccPath(s[a..e])
            && forall a', e' :: i <= a' < a && a' <= e' <= |s| ==> !IsSccPath(s[a'..e'])
    decreases |s| - i
  {
    match MatchEnd(s, i)
    case Some(e) =>
      MatchEndSpec(s, i, e);
    case None =>
      NoMatchAt(s, i);
      FindFromSome(s, i + 1);
  }

  /** No match starts where `MatchEnd` finds none. */
  lemma NoMatchAt(s: string, i: nat)
    requires i <= |s| && MatchEnd(s, i).None?
    ensures forall e :: i <= e <= |s| ==> !IsSccPath(s[i..e])
  {
    forall e | i <= e <= |s|
      ensures !IsSccPath(s[i..e])
    {
      MatchEndSpec(s, i, e);
    }
  }

  /** `getSupportConfigPath(out)`: the leftmost match in the output, or "". */
  function GetSupportConfigPath(out: string): string
  {
    match FindFrom(out, 0)
    case None => ""
    case Some((a, e)) => if a <= e <= |out| then out[a..e] else ""
  }

  /** The path is "" exactly when the output holds no match. Otherwise it is a
      match, it occurs in the output at a position before which no match
      starts, and no other match starts at that position. */
  lemma GetSupportConfigPathSpec(out: string)
    ensures GetSupportConfigPath(out) == "" <==>
              forall a, e :: 0 <= a <= e <= |out| ==> !IsSccPath(out[a..e])
    ensures GetSupportConfigPath(out) != "" ==>
              var r := GetSupportConfigPath(out);
              IsSccPath(r) && exists a :: LeftmostMatchAt(out, a, r)
  {
    FindFromSpec(out, 0);
    if FindFrom(out, 0).Some? {
      var (a, e) := FindFrom(out, 0).value;
      forall e' | a <= e' <= |out| && IsSccPath(out[a..e'])
        ensures e' == e
      {
        MatchEndSpec(out, a, e);
        MatchEndSpec(out, a, e');
      }
      assert LeftmostMatchAt(out, a, out[a..e]);
    }
  }

  /** `r` is the match that starts at `a`, and no match starts before `a`. */
  ghost predicate LeftmostMatchAt(out: string, a: int, r: string)
  {
    && 0 <= a && a + |r| <= |out| && out[a..a + |r|] == r
    && (forall a', e' :: 0 <= a' < a && a' <= e' <= |out| ==> !IsSccPath(out[a'..e']))
    && (forall e' :: a <= e' <= |out| && IsSccPath(out[a..e']) ==> e' == a + |r|)
  }

  // ---------------------------------------------------------------------
  // extract
  // ---------------------------------------------------------------------

  datatype Op =
    | MakeTempDir
    | ContainerSupportconfig
    | Copy(src: string, dst: string)
    | ContainerRemove(path: string)
    | HostSupportconfig
    | CreateTarball(output: string)
    | AddFile(file: string, name: string)
    | RemoveTempDir(dir: string)

  type Event = Traces.Event<Op>

  datatype ExtractError =
    | TempDirFailed
    | SupportconfigFailed
    | ContainerTarballNotFound
    | CopyFailed(src: string)
    | RemoveFailed(path: string)
    | HostSupportconfigFailed
    | HostTarballNotFound
    | TarballFailed
    | AddFailed(name: string)

  const Extensions: seq<string> := ["", ".md5"]
  const ContainerTarballName: string := "container-supportconfig.txz"

  /** The local copies of the container tarball and its checksum. */
  function ContainerFiles(tmpDir: string): seq<string>
  {
    seq(|Extensions|, k requires 0 <= k < |Extensions| => PathJoin(tmpDir, ContainerTarballName + Extensions[k]))
  }

  /** The host tarball and its checksum. */
  function HostFiles(path: string): seq<string>
  {
    seq(|Extensions|, k requires 0 <= k < |Extensions| => path + Extensions[k])
  }

  /** The files that go into the archive: the container files, then the host
      files when supportconfig runs on the host. */
  function ArchivedFiles(tmpDir: string, hostInstalled: bool, hostPath: string): seq<string>
  {
    ContainerFiles(tmpDir) + (if hostInstalled then HostFiles(hostPath) else [])
  }

  /** Per extension: copy the container file out, then remove it in the container. */
  function CopyOps(path: string, tmpDir: string): seq<Op>
  {
    seq(2 * |Extensions|, k requires 0 <= k < 2 * |Extensions| =>
      var ext := Extensions[k / 2];
      if k % 2 == 0 then Copy("server:" + path + ext, PathJoin(tmpDir, ContainerTarballName + ext))
      else ContainerRemove(path + ext))
  }

  /** Every archive entry is named by the base name of its file. */
  function ArchiveOps(files: seq<string>): seq<Op>
  {
    seq(|files|, k requires 0 <= k < |files| => AddFile(files[k], PathBase(files[k])))
  }

  /** Running supportconfig in the container, then copying its tarball out;
      the command gives up when the output names no tarball. */
  function ContainerPlan(path: string, tmpDir: string): Plan<Op>
  {
    Then(Plan([ContainerSupportconfig], path != ""), Plan(CopyOps(path, tmpDir), true))
  }

  /** Running supportconfig on the host when it is installed; the command
      gives up when the output names no tarball or the tarball is missing. */
  function HostPlan(hostInstalled: bool, hostPath: string, hostExists: bool): Plan<Op>
  {
    if hostInstalled then Plan([HostSupportconfig], hostPath != "" && hostExists) else Plan([], true)
  }

  /** Create the archive, then add the files one by one. */
  function ArchivePlan(files: seq<string>, output: string): Plan<Op>
  {
    Plan([CreateTarball(output)] + ArchiveOps(files), true)
  }

  /** Everything between creating the temporary directory and removing it. */
  function BodyPlan(containerOut: string, hostInstalled: bool, hostOut: string, hostExists: bool,
                    tmpDir: string, output: string): Plan<Op>
  {
    var hostPath := GetSupportConfigPath(hostOut);
    Then(ContainerPlan(GetSupportConfigPath(containerOut), tmpDir),
         Then(HostPlan(hostInstalled, hostPath, hostExists),
              ArchivePlan(ArchivedFiles(tmpDir, hostInstalled, hostPath), output)))
  }

  /** The plan of `extract`, except for the deferred removal of the
      temporary directory. */
  function ExtractPlan(containerOut: string, hostInstalled: bool, hostOut: string, hostExists: bool,
                       tmpDir: string, output: string): Plan<Op>
  {
    Then(Plan([MakeTempDir], true), BodyPlan(containerOut, hostInstalled, hostOut, hostExists, tmpDir, output))
  }

  /** The loop over the extensions: copy the container file into the
      temporary directory, record it, remove it in the container. */
  method CopyOut(path: string, tmpDir: string)
    returns (err: Option<ExtractError>, files: seq<string>, body: seq<Event>)
    ensures Follows(body, CopyOps(path, tmpDir))
    ensures err.None? <==> body == AllOk(CopyOps(path, tmpDir))
    ensures err.None? ==> files == ContainerFiles(tmpDir)
  {
    ghost var plan := CopyOps(path, tmpDir);
    body, files := [], [];
    var i := 0;
    while i < |Extensions|
      invariant 0 <= i <= |Extensions|
      invariant body == AllOk(plan[..2 * i])
      invariant files == ContainerFiles(tmpDir)[..i]
    {
      var ext := Extensions[i];
      var dst := PathJoin(tmpDir, ContainerTarballName + ext);
      var ok := Attempt();
      assert plan[2 * i] == Copy("server:" + path + ext, dst);
      body := body + [Event(Copy("server:" + path + ext, dst), ok)];
      if !ok {
        FailureFollows(plan, 2 * i);
        return Some(CopyFailed("server:" + path + ext)), files, body;
      }
      AllOkStep(plan, 2 * i);
      files := files + [dst];

      ok := Attempt();
      assert plan[2 * i + 1] == ContainerRemove(path + ext);
      body := body + [Event(ContainerRemove(path + ext), ok)];
      if !ok {
        FailureFollows(plan, 2 * i + 1);
        return Some(RemoveFailed(path + ext)), files, body;
      }
      AllOkStep(plan, 2 * i + 1);
      i := i + 1;
    }
    assert plan[..2 * i] == plan;
    err := None;
  }

  /** Supportconfig in the container, the tarball path from its output, and
      the copies. */
  method ContainerPhase(containerOut: string, tmpDir: string)
    returns (err: Option<ExtractError>, files: seq<string>, body: seq<Event>)
    ensures Outcome(body, ContainerPlan(GetSupportConfigPath(containerOut), tmpDir), err.None?)
    ensures err.None? ==> files == ContainerFiles(tmpDir)
  {
    var path := GetSupportConfigPath(containerOut);
    ghost var first := Plan([ContainerSupportconfig], path != "");
    files := [];
    var ok := Attempt();
    if !ok {
      body := [Event(ContainerSupportconfig, false)];
      FailureFollows(first.ops, 0);
      ThenFailed(body, first, Plan(CopyOps(path, tmpDir), true));
      return Some(SupportconfigFailed), files, body;
    }
    var head := [Event(ContainerSupportconfig, true)];
    assert head == AllOk(first.ops);
    if path == "" {
      GaveUp(first.ops);
      return Some(ContainerTarballNotFound), files, head;
    }
    PrefixFollows(first.ops, 1);
    assert first.ops[..1] == first.ops;
    var copied;
    err, files, copied := CopyOut(path, tmpDir);
    EffectsOnly(CopyOps(path, tmpDir), copied, err.None?);
    ThenRan(head, first, copied, Plan(CopyOps(path, tmpDir), true), err.None?);
    body := head + copied;
  }

  /** Supportconfig on the host, when it is installed, and its tarball. */
  method HostPhase(hostInstalled: bool, hostOut: string, hostExists: bool)
    returns (err: Option<ExtractError>, files: seq<string>, body: seq<Event>)
    ensures Outcome(body, HostPlan(hostInstalled, GetSupportConfigPath(hostOut), hostExists), err.None?)
    ensures err.None? ==> files == (if hostInstalled then HostFiles(GetSupportConfigPath(hostOut)) else [])
  {
    if !hostInstalled {
      assert AllOk<Op>([]) == [];
      return None, [], [];
    }
    var path := GetSupportConfigPath(hostOut);
    ghost var plan := HostPlan(hostInstalled, path, hostExists);
    var ok := Attempt();
    if !ok {
      FailureFollows(plan.ops, 0);
      return Some(HostSupportconfigFailed), [], [Event(HostSupportconfig, false)];
    }
    body := [Event(HostSupportconfig, true)];
    assert body == AllOk(plan.ops);
    if path != "" && hostExists {
      PrefixFollows(plan.ops, 1);
      assert plan.ops[..1] == plan.ops;
      return None, HostFiles(path), body;
    }
    GaveUp(plan.ops);
    return Some(HostTarballNotFound), [], body;
  }

  /** Create the archive and add every file under its base name. */
  method Archive(files: seq<string>, output: string)
    returns (err: Option<ExtractError>, body: seq<Event>)
    ensures Outcome(body, ArchivePlan(files, output), err.None?)
  {
    ghost var plan := ArchivePlan(files, output).ops;
    var ok := Attempt();
    body := [Event(CreateTarball(output), ok)];
    if !ok {
      FailureFollows(plan, 0);
      return Some(TarballFailed), body;
    }
    AllOkStep(plan, 0);
    var j := 0;
    while j < |files|
      invariant 0 <= j <= |files|
      invariant body == AllOk(plan[..j + 1])
    {
      var file := files[j];
      ok := Attempt();
      assert plan[j + 1] == AddFile(file, PathBase(file));
      body := body + [Event(AddFile(file, PathBase(file)), ok)];
      if !ok {
        FailureFollows(plan, j + 1);
        return Some(AddFailed(PathBase(file))), body;
      }
      AllOkStep(plan, j + 1);
      j := j + 1;
    }
    assert plan[..j + 1] == plan;
    PrefixFollows(plan, |plan|);
    err := None;
  }

  /** Everything `extract` does between creating the temporary directory and
      its deferred removal: the container phase, the host phase, then the
      archive of the collected files. */
  method Collect(containerOut: string, hostInstalled: bool, hostOut: string, hostExists: bool,
                 tmpDir: string, output: string)
    returns (err: Option<ExtractError>, files: seq<string>, body: seq<Event>)
    ensures Outcome(body, BodyPlan(containerOut, hostInstalled, hostOut, hostExists, tmpDir, output), err.None?)
    ensures err.None? ==> files == ArchivedFiles(tmpDir, hostInstalled, GetSupportConfigPath(hostOut))
  {
    var hostPath := GetSupportConfigPath(hostOut);
    ghost var cp := ContainerPlan(GetSupportConfigPath(containerOut), tmpDir);
    ghost var hp := HostPlan(hostInstalled, hostPath, hostExists);
    ghost var ap := ArchivePlan(ArchivedFiles(tmpDir, hostInstalled, hostPath), output);

    var a, b, c, hostFiles;
    err, files, a := ContainerPhase(containerOut, tmpDir);
    if err.Some? {
      ThenFailed(a, cp, Then(hp, ap));
      return err, files, a;
    }
    err, hostFiles, b := HostPhase(hostInstalled, hostOut, hostExists);
    if err.Some? {
      ThenFailed(b, hp, ap);
      ThenRan(a, cp, b, Then(hp, ap), false);
      return err, files, a + b;
    }
    files := files + hostFiles;
    err, c := Archive(files, output);
    ThenRan(b, hp, c, ap, err.None?);
    ThenRan(a, cp, b + c, Then(hp, ap), err.None?);
    body := a + (b + c);
  }

  /** `extract`: once the temporary directory is created, its removal is the
      last operation, whatever happens in between; before it the run follows
      the plan and stops at the first failure. */
  method Extract(containerOut: string, hostInstalled: bool, hostOut: string, hostExists: bool,
                 tmpDir: string, output: string)
    returns (err: Option<ExtractError>, files: seq<string>, trace: seq<Event>)
    ensures |trace| > 0 && trace[0].op == MakeTempDir
    ensures !trace[0].ok ==> trace == [Event(MakeTempDir, false)] && err == Some(TempDirFailed)
    ensures trace[0].ok ==>
              && |trace| >= 2 && trace[|trace| - 1].op == RemoveTempDir(tmpDir)
              && forall k :: 0 <= k < |trace| - 1 ==> !trace[k].op.RemoveTempDir?
    ensures Outcome(if trace[0].ok then trace[..|trace| - 1] else trace,
                    ExtractPlan(containerOut, hostInstalled, hostOut, hostExists, tmpDir, output), err.None?)
    ensures err.None? ==> files == ArchivedFiles(tmpDir, hostInstalled, GetSupportConfigPath(hostOut))
  {
    ghost var first := Plan([MakeTempDir], true);
    ghost var bp := BodyPlan(containerOut, hostInstalled, hostOut, hostExists, tmpDir, output);
    var ok := Attempt();
    if !ok {
      FailureFollows(first.ops, 0);
      ThenFailed([Event(MakeTempDir, false)], first, bp);
      return Some(TempDirFailed), [], [Event(MakeTempDir, false)];
    }
    var body;
    err, files, body := Collect(containerOut, hostInstalled, hostOut, hostExists, tmpDir, output);
    var pre := [Event(MakeTempDir, true)] + body;
    PrefixFollows(first.ops, 1);
    assert first.ops[..1] == first.ops;
    ThenRan([Event(MakeTempDir, true)], first, body, bp, err.None?);
    ExtractPlanOps(containerOut, hostInstalled, hostOut, hostExists, tmpDir, output);
    ok := Attempt();
    trace := pre + [Event(RemoveTempDir(tmpDir), ok)];
    assert trace[..|trace| - 1] == pre;
  }

  /** The plan starts with the creation of the temporary directory and never
      removes it: that is left to the deferred call. */
  lemma ExtractPlanOps(containerOut: string, hostInstalled: bool, hostOut: string, hostExists: bool,
                       tmpDir: string, output: string)
    ensures var ops := ExtractPlan(containerOut, hostInstalled, hostOut, hostExists, tmpDir, output).ops;
            && ops[0] == MakeTempDir
            && forall k :: 0 <= k < |ops| ==> !ops[k].RemoveTempDir? && (k > 0 ==> !ops[k].MakeTempDir?)
  {
    var hostPath := GetSupportConfigPath(hostOut);
    var cp := ContainerPlan(GetSupportConfigPath(containerOut), tmpDir);
    var hp := HostPlan(hostInstalled, hostPath, hostExists);
    var ap := ArchivePlan(ArchivedFiles(tmpDir, hostInstalled, hostPath), output);
    assert Inner(cp.ops) by {
      InnerThen(Plan([ContainerSupportconfig], GetSupportConfigPath(containerOut) != ""),
                Plan(CopyOps(GetSupportConfigPath(containerOut), tmpDir), true));
    }
    InnerThen(hp, ap);
    InnerThen(cp, Then(hp, ap));
    assert ExtractPlan(containerOut, hostInstalled, hostOut, hostExists, tmpDir, output).ops
           == [MakeTempDir] + BodyPlan(containerOut, hostInstalled, hostOut, hostExists, tmpDir, output).ops;
  }

  /** Operations that neither create nor remove the temporary directory. */
  ghost predicate Inner(ops: seq<Op>)
  {
    forall k :: 0 <= k < |ops| ==> !ops[k].RemoveTempDir? && !ops[k].MakeTempDir?
  }

  lemma InnerThen(p: Plan<Op>, q: Plan<Op>)
    requires Inner(p.ops) && Inner(q.ops)
    ensures Inner(Then(p, q).ops)
  {
  }

  // ---------------------------------------------------------------------
  // Properties of the plan
  // ---------------------------------------------------------------------

  /** When the container output names no tarball, a run creates the
      temporary directory, runs supportconfig and gives up: nothing is
      copied, removed or archived, and the command fails. */
  lemma ContainerTarballMissing(containerOut: string, hostInstalled: bool, hostOut: string, hostExists: bool,
                                tmpDir: string, output: string, t: seq<Event>, ok: bool)
    requires GetSupportConfigPath(containerOut) == ""
    requires Outcome(t, ExtractPlan(containerOut, hostInstalled, hostOut, hostExists, tmpDir, output), ok)
    ensures !ok && |t| <= 2
    ensures forall k :: 0 <= k < |t| ==> t[k].op in {MakeTempDir, ContainerSupportconfig}
  {
  }

  /** When supportconfig is installed on the host but its output names no
      tarball, or the tarball does not exist, no archive is written and the
      command fails. */
  lemma HostTarballMissing(containerOut: string, hostInstalled: bool, hostOut: string, hostExists: bool,
                           tmpDir: string, output: string, t: seq<Event>, ok: bool)
    requires hostInstalled && (GetSupportConfigPath(hostOut) == "" || !hostExists)
    requires Outcome(t, ExtractPlan(containerOut, hostInstalled, hostOut, hostExists, tmpDir, output), ok)
    ensures !ok
    ensures forall k :: 0 <= k < |t| ==> !t[k].op.CreateTarball? && !t[k].op.AddFile?
  {
    var p := ExtractPlan(containerOut, hostInstalled, hostOut, hostExists, tmpDir, output);
    var cp := ContainerPlan(GetSupportConfigPath(containerOut), tmpDir);
    if cp.succeeds {
      assert p.ops == [MakeTempDir] + (cp.ops + [HostSupportconfig]);
      assert forall k :: 0 <= k < |p.ops| ==> !p.ops[k].CreateTarball? && !p.ops[k].AddFile?;
    }
  }

  /** The command can only succeed when both tarballs are found (the host
      one only when supportconfig is installed there); then a complete run
      makes the directory, copies the container files out, runs the host
      supportconfig, creates the archive and adds every collected file. */
  lemma ExtractSucceeds(containerOut: string, hostInstalled: bool, hostOut: string, hostExists: bool,
                        tmpDir: string, output: string)
    ensures var p := ExtractPlan(containerOut, hostInstalled, hostOut, hostExists, tmpDir, output);
            var path, hostPath := GetSupportConfigPath(containerOut), GetSupportConfigPath(hostOut);
            && (p.succeeds <==> path != "" && (hostInstalled ==> hostPath != "" && hostExists))
            && (p.succeeds ==>
                  p.ops == [MakeTempDir, ContainerSupportconfig] + CopyOps(path, tmpDir)
                           + (if hostInstalled then [HostSupportconfig] else [])
                           + [CreateTarball(output)] + ArchiveOps(ArchivedFiles(tmpDir, hostInstalled, hostPath)))
  {
  }

  /** The container files keep the name of the container tarball (and of its
      checksum) as their archive entry name, whatever the temporary directory. */
  lemma ContainerEntryNames(tmpDir: string)
    ensures forall k :: 0 <= k < |Extensions| ==>
              PathBase(ContainerFiles(tmpDir)[k]) == ContainerTarballName + Extensions[k]
  {
    assert Lacks(ContainerTarballName, '/');
    assert Lacks(ContainerTarballName + ".md5", '/');
    BaseOfJoin(tmpDir, ContainerTarballName + Extensions[0]);
    BaseOfJoin(tmpDir, ContainerTarballName + Extensions[1]);
  }

  /** Two files when supportconfig is missing on the host, four otherwise; the
      container files come first. */
  lemma ArchivedFilesOrder(tmpDir: string, hostInstalled: bool, hostPath: string)
    ensures var files := ArchivedFiles(tmpDir, hostInstalled, hostPath);
            && |files| == (if hostInstalled then 4 else 2)
            && files[..2] == [PathJoin(tmpDir, ContainerTarballName), PathJoin(tmpDir, ContainerTarballName + ".md5")]
            && (hostInstalled ==> files[2..] == [hostPath, hostPath + ".md5"])
  {
    assert ContainerTarballName + "" == ContainerTarballName;
    assert hostPath + "" == hostPath;
  }

  /** In the plan each container file is copied out before it is removed in
      the container, and the tarball comes before its checksum. */
  lemma CopyBeforeRemove(path: string, tmpDir: string)
    ensures CopyOps(path, tmpDir) == [
              Copy("server:" + path, PathJoin(tmpDir, ContainerTarballName)),
              ContainerRemove(path),
              Copy("server:" + path + ".md5", PathJoin(tmpDir, ContainerTarballName + ".md5")),
              ContainerRemove(path + ".md5")]
  {
    var ops := CopyOps(path, tmpDir);
    assert path + "" == path;
    assert ContainerTarballName + "" == ContainerTarballName;
    assert ops[0] == Copy("server:" + path, PathJoin(tmpDir, ContainerTarballName));
    assert ops[1] == ContainerRemove(path);
    assert ops[2] == Copy("server:" + path + ".md5", PathJoin(tmpDir, ContainerTarballName + ".md5"));
  }
}
