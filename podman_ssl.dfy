/**
 * `UpdateSslCertificate` of the podman deployment (`mgradm/shared/podman`):
 * copy the root CA, the server certificate, its key and the intermediate CAs
 * into a directory of the server container, install them with
 * `mgr-ssl-cert-setup`, clean up and restart the services.
 *
 * Every `podman` command and every copy is an operation whose success the
 * model does not decide; whether `/root/ssl-build` exists in the container
 * is an input. The container's name is a parameter.
 */
module PodmanSsl {
  import opened Wrappers
  import opened GoStrings
  import opened Traces

  datatype Op =
    | Podman(args: seq<string>)         // `podman <args>`
    | Copy(src: string, dst: string)    // a copy into the container, owned by root

  type Event = Traces.Event<Op>

  datatype SslError =
    | TempDirFailed
    | CopyFailed(path: string)
    | SetupFailed
    | CleanupFailed
    | SslBuildCleanupFailed
    | RestartFailed

  const CertDir: string := "/tmp/uyuni-tools"
  const SslBuildPath: string := "/root/ssl-build"

  function CertPath(name: string): string
  {
    PathJoin(CertDir, name)
  }

  /** The file of the `i`-th intermediate CA, counting from 0. */
  function CaFileName(i: nat): string
  {
    "ca-" + NatToString(i) + ".crt"
  }

  /** A command run inside the container. */
  function InPod(container: string, cmd: seq<string>): seq<string>
  {
    ["exec", container] + cmd
  }

  /** Where a copy to the server container puts `path`. */
  function OnServer(path: string): string
  {
    "server:" + path
  }

  /** The flags naming the first `n` intermediate CAs, in order. */
  function IntermediateArgs(n: nat): (r: seq<string>)
    ensures |r| == 2 * n
    ensures forall i :: 0 <= i < n ==> r[2 * i] == "--intermediate-ca-file" && r[2 * i + 1] == CertPath(CaFileName(i))
  {
    if n == 0 then [] else IntermediateArgs(n - 1) + ["--intermediate-ca-file", CertPath(CaFileName(n - 1))]
  }

  /** The `mgr-ssl-cert-setup` command for `n` intermediate CAs. */
  function SetupArgs(container: string, n: nat): seq<string>
  {
    InPod(container, ["mgr-ssl-cert-setup", "-vvv",
                      "--root-ca-file", CertPath("root-ca.crt"),
                      "--server-cert-file", CertPath("server.crt"),
                      "--server-key-file", CertPath("server.key")])
    + IntermediateArgs(n)
  }

  /** The copies of the intermediate CAs, each to its numbered file. */
  function CaCopies(cas: seq<string>): (r: seq<Op>)
    ensures |r| == |cas|
    ensures forall i :: 0 <= i < |cas| ==> r[i] == Copy(cas[i], OnServer(CertPath(CaFileName(i))))
  {
    seq(|cas|, i requires 0 <= i < |cas| => Copy(cas[i], OnServer(CertPath(CaFileName(i)))))
  }

  /** The operations before the intermediate CAs: the directory and the
      three fixed copies. */
  function CopyPlan(container: string, rootCa: string, serverCert: string, serverKey: string): seq<Op>
  {
    [Podman(InPod(container, ["mkdir", "-p", CertDir])),
     Copy(rootCa, OnServer(CertPath("root-ca.crt"))),
     Copy(serverCert, OnServer(CertPath("server.crt"))),
     Copy(serverKey, OnServer(CertPath("server.key")))]
  }

  /** The operations after the intermediate CAs: the setup, the removal of
      the copies, the removal of `/root/ssl-build` when it exists, and the
      restart of the services. */
  function SetupPlan(container: string, n: nat, sslBuildExists: bool): seq<Op>
  {
    [Podman(SetupArgs(container, n)), Podman(InPod(container, ["rm", "-rf", CertDir]))]
    + (if sslBuildExists then [Podman(InPod(container, ["rm", "-rf", SslBuildPath]))] else [])
    + [Podman(InPod(container, ["spacewalk-service", "restart"]))]
  }

  /** The plan of `UpdateSslCertificate`: the copies, then the setup and
      what follows it. */
  function SslPlan(container: string, rootCa: string, serverCert: string, serverKey: string,
                   cas: seq<string>, sslBuildExists: bool): Plan<Op>
  {
    Then(Plan(CopyPlan(container, rootCa, serverCert, serverKey) + CaCopies(cas), true),
         Plan(SetupPlan(container, |cas|, sslBuildExists), true))
  }

  /** The directory, the three fixed copies and the intermediate CAs; the
      setup arguments gain one flag per intermediate CA. */
  method CopyCertificates(container: string, rootCa: string, serverCert: string, serverKey: string, cas: seq<string>)
    returns (args: seq<string>, err: Option<SslError>, trace: seq<Event>)
    ensures Outcome(trace, Plan(CopyPlan(container, rootCa, serverCert, serverKey) + CaCopies(cas), true), err.None?)
    ensures err.None? ==> args == SetupArgs(container, |cas|)
  {
    ghost var head := CopyPlan(container, rootCa, serverCert, serverKey);
    ghost var plan := head + CaCopies(cas);
    assert plan[..|head|] == head;
    err, trace := CopyFixed(container, rootCa, serverCert, serverKey, plan);
    args := SetupArgs(container, 0);
    if err.Some? { return; }

    var i := 0;
    while i < |cas|
      invariant 0 <= i <= |cas|
      invariant |trace| == |head| + i && trace == AllOk(plan[..|trace|])
      invariant args == SetupArgs(container, i)
    {
      var caPath := CertPath(CaFileName(i));
      SetupArgsStep(container, i);
      args := args + ["--intermediate-ca-file", caPath];
      assert plan[|head| + i] == Copy(cas[i], OnServer(caPath));
      var ok := Perform(trace, plan, Copy(cas[i], OnServer(caPath)));
      trace := trace + [Event(Copy(cas[i], OnServer(caPath)), ok)];
      if !ok { return args, Some(CopyFailed(caPath)), trace; }
      i := i + 1;
    }
    assert plan[..|trace|] == plan;
    Finished(plan);
    err := None;
  }

  /** One more intermediate CA adds its flag at the end of the setup
      arguments. */
  lemma SetupArgsStep(container: string, n: nat)
    ensures SetupArgs(container, n + 1) == SetupArgs(container, n) + ["--intermediate-ca-file", CertPath(CaFileName(n))]
  {
  }

  /** The directory and the three fixed copies, at the head of `plan`. */
  method CopyFixed(container: string, rootCa: string, serverCert: string, serverKey: string, ghost plan: seq<Op>)
    returns (err: Option<SslError>, trace: seq<Event>)
    requires |plan| >= 4 && plan[..4] == CopyPlan(container, rootCa, serverCert, serverKey)
    ensures err.None? ==> trace == AllOk(plan[..4])
    ensures err.Some? ==> Follows(trace, plan) && trace != AllOk(plan)
  {
    trace := [];
    var ok := Perform(trace, plan, Podman(InPod(container, ["mkdir", "-p", CertDir])));
    trace := trace + [Event(Podman(InPod(container, ["mkdir", "-p", CertDir])), ok)];
    if !ok { return Some(TempDirFailed), trace; }

    var rootCaPath, serverCrtPath, serverKeyPath := CertPath("root-ca.crt"), CertPath("server.crt"), CertPath("server.key");
    ok := Perform(trace, plan, Copy(rootCa, OnServer(rootCaPath)));
    trace := trace + [Event(Copy(rootCa, OnServer(rootCaPath)), ok)];
    if !ok { return Some(CopyFailed(rootCaPath)), trace; }
    ok := Perform(trace, plan, Copy(serverCert, OnServer(serverCrtPath)));
    trace := trace + [Event(Copy(serverCert, OnServer(serverCrtPath)), ok)];
    if !ok { return Some(CopyFailed(serverCrtPath)), trace; }
    ok := Perform(trace, plan, Copy(serverKey, OnServer(serverKeyPath)));
    trace := trace + [Event(Copy(serverKey, OnServer(serverKeyPath)), ok)];
    if !ok { return Some(CopyFailed(serverKeyPath)), trace; }
    err := None;
  }

  /** The setup, the removal of the copies and of `/root/ssl-build` when it
      exists, and the restart. */
  method Install(container: string, args: seq<string>, n: nat, sslBuildExists: bool)
    returns (err: Option<SslError>, trace: seq<Event>)
    requires args == SetupArgs(container, n)
    ensures Outcome(trace, Plan(SetupPlan(container, n, sslBuildExists), true), err.None?)
  {
    ghost var plan := SetupPlan(container, n, sslBuildExists);
    trace := [];
    var ok := Perform(trace, plan, Podman(args));
    trace := trace + [Event(Podman(args), ok)];
    if !ok { return Some(SetupFailed), trace; }

    ok := Perform(trace, plan, Podman(InPod(container, ["rm", "-rf", CertDir])));
    trace := trace + [Event(Podman(InPod(container, ["rm", "-rf", CertDir])), ok)];
    if !ok { return Some(CleanupFailed), trace; }

    if sslBuildExists {
      ok := Perform(trace, plan, Podman(InPod(container, ["rm", "-rf", SslBuildPath])));
      trace := trace + [Event(Podman(InPod(container, ["rm", "-rf", SslBuildPath])), ok)];
      if !ok { return Some(SslBuildCleanupFailed), trace; }
    }

    ok := Perform(trace, plan, Podman(InPod(container, ["spacewalk-service", "restart"])));
    trace := trace + [Event(Podman(InPod(container, ["spacewalk-service", "restart"])), ok)];
    if !ok { return Some(RestartFailed), trace; }
    assert plan[..|trace|] == plan;
    Finished(plan);
    err := None;
  }

  /** `UpdateSslCertificate(cnx, chain, serverPair)`: the run follows the
      plan and stops at the first failure. */
  method UpdateSslCertificate(container: string, rootCa: string, serverCert: string, serverKey: string,
                              cas: seq<string>, sslBuildExists: bool)
    returns (err: Option<SslError>, trace: seq<Event>)
    ensures Outcome(trace, SslPlan(container, rootCa, serverCert, serverKey, cas, sslBuildExists), err.None?)
  {
    ghost var copies := Plan(CopyPlan(container, rootCa, serverCert, serverKey) + CaCopies(cas), true);
    ghost var install := Plan(SetupPlan(container, |cas|, sslBuildExists), true);
    var args, t1;
    args, err, t1 := CopyCertificates(container, rootCa, serverCert, serverKey, cas);
    if err.Some? {
      ThenFailed(t1, copies, install);
      return err, t1;
    }
    var t2;
    err, t2 := Install(container, args, |cas|, sslBuildExists);
    ThenRan(t1, copies, t2, install, err.None?);
    trace := t1 + t2;
  }

  /** Each intermediate CA is copied to the file that the setup command names
      for it, in the same order. */
  lemma CaPathsMatch(container: string, cas: seq<string>, i: nat)
    requires i < |cas|
    ensures var args := SetupArgs(container, |cas|);
            && |args| == 10 + 2 * |cas|
            && args[10 + 2 * i] == "--intermediate-ca-file"
            && CaCopies(cas)[i].dst == OnServer(args[10 + 2 * i + 1])
  {
    var base := InPod(container, ["mgr-ssl-cert-setup", "-vvv",
                                  "--root-ca-file", CertPath("root-ca.crt"),
                                  "--server-cert-file", CertPath("server.crt"),
                                  "--server-key-file", CertPath("server.key")]);
    assert |base| == 10;
    assert SetupArgs(container, |cas|)[10 + 2 * i] == IntermediateArgs(|cas|)[2 * i];
    assert SetupArgs(container, |cas|)[10 + 2 * i + 1] == IntermediateArgs(|cas|)[2 * i + 1];
  }

  lemma {:induction false} NatToStringLong(n: nat)
    requires n >= 10
    ensures |NatToString(n)| >= 2
  {
  }

  /** Distinct numbers print differently. */
  lemma {:induction false} NatToStringInjective(a: nat, b: nat)
    requires NatToString(a) == NatToString(b)
    ensures a == b
    decreases a
  {
    var sa, sb := NatToString(a), NatToString(b);
    if a < 10 && b < 10 {
      assert sa[0] == sb[0];
    } else if a < 10 {
      NatToStringLong(b);
    } else if b < 10 {
      NatToStringLong(a);
    } else {
      assert sa[..|sa| - 1] == NatToString(a / 10);
      assert sb[..|sb| - 1] == NatToString(b / 10);
      NatToStringInjective(a / 10, b / 10);
      assert sa[|sa| - 1] == sb[|sb| - 1];
    }
  }

  /** Two intermediate CAs never share a file. */
  lemma CaFilesDistinct(i: nat, j: nat)
    requires i != j
    ensures CertPath(CaFileName(i)) != CertPath(CaFileName(j))
  {
    if CertPath(CaFileName(i)) == CertPath(CaFileName(j)) {
      var p := CertPath(CaFileName(i));
      assert CaFileName(i) == p[|CertDir| + 1..];
      assert CaFileName(j) == p[|CertDir| + 1..];
      assert NatToString(i) == CaFileName(i)[3..|CaFileName(i)| - 4];
      assert NatToString(j) == CaFileName(j)[3..|CaFileName(j)| - 4];
      NatToStringInjective(i, j);
    }
  }

  /** No operation before the setup is the setup. */
  lemma NotSetupBefore(container: string, rootCa: string, serverCert: string, serverKey: string, cas: seq<string>, j: nat)
    requires j < 4 + |cas|
    ensures (CopyPlan(container, rootCa, serverCert, serverKey) + CaCopies(cas))[j] != Podman(SetupArgs(container, |cas|))
  {
    var head := CopyPlan(container, rootCa, serverCert, serverKey) + CaCopies(cas);
    if j == 0 {
      assert head[0].args[2] == "mkdir";
      assert SetupArgs(container, |cas|)[2] == "mgr-ssl-cert-setup";
    }
  }

  /** No operation after the setup is the setup again. */
  lemma NotSetupAfter(container: string, n: nat, sslBuildExists: bool, j: nat)
    requires 0 < j < |SetupPlan(container, n, sslBuildExists)|
    ensures SetupPlan(container, n, sslBuildExists)[j] != Podman(SetupArgs(container, n))
  {
    var rest := SetupPlan(container, n, sslBuildExists);
    assert rest[j].Podman? && |rest[j].args| <= 5;
  }

  /** The setup runs only once the directory is made and every certificate,
      key and intermediate CA has been copied. */
  lemma SetupAfterCopies(container: string, rootCa: string, serverCert: string, serverKey: string,
                         cas: seq<string>, sslBuildExists: bool, t: seq<Event>, ok: bool, k: nat)
    requires Outcome(t, SslPlan(container, rootCa, serverCert, serverKey, cas, sslBuildExists), ok)
    requires k < |t| && t[k].op == Podman(SetupArgs(container, |cas|))
    ensures k == 4 + |cas|
    ensures t[..k] == AllOk(CopyPlan(container, rootCa, serverCert, serverKey) + CaCopies(cas))
  {
    var head := CopyPlan(container, rootCa, serverCert, serverKey) + CaCopies(cas);
    var rest := SetupPlan(container, |cas|, sslBuildExists);
    var plan := SslPlan(container, rootCa, serverCert, serverKey, cas, sslBuildExists).ops;
    assert plan == head + rest;
    if k < |head| {
      NotSetupBefore(container, rootCa, serverCert, serverKey, cas, k);
    } else if k > |head| {
      NotSetupAfter(container, |cas|, sslBuildExists, k - |head|);
    }
    FollowsPrefixOk(t, plan, k);
    assert plan[..k] == head;
  }
}
