/**
 * The pure rules of the podman deployment of the server: the exposed ports,
 * the registry credentials passed to `podman pull`, the choice of the
 * migration image, and the arguments of the migration container.
 */
module PodmanRules {
  import opened Wrappers
  import opened GoStrings
  import Images

  /** `types.PortMap`: a named port of the container published on the host. */
  datatype PortMap = PortMap(name: string, exposed: int, port: int)

  /** The port lists `TCP_PORTS`, `UDP_PORTS` and `DEBUG_PORTS` of the
      `shared/utils` package, which is not part of this model. */
  datatype PortLists = PortLists(tcp: seq<PortMap>, udp: seq<PortMap>, debug: seq<PortMap>)

  const Https: PortMap := PortMap("https", 443, 443)
  const Http: PortMap := PortMap("http", 80, 80)

  /** `GetExposedPorts(debug)`: https and http first, then the TCP and UDP
      lists, then the debug ports when debugging. */
  function GetExposedPorts(lists: PortLists, debug: bool): (r: seq<PortMap>)
    ensures |r| == 2 + |lists.tcp| + |lists.udp| + (if debug then |lists.debug| else 0)
    ensures r[0] == Https && r[1] == Http
    ensures r[2..2 + |lists.tcp|] == lists.tcp
    ensures r[2 + |lists.tcp|..2 + |lists.tcp| + |lists.udp|] == lists.udp
    ensures debug ==> r[2 + |lists.tcp| + |lists.udp|..] == lists.debug
  {
    var ports := [Https, Http] + lists.tcp + lists.udp;
    if debug then ports + lists.debug else ports
  }

  /** The ports without debugging are a prefix of the ports with debugging,
      and the debug ports are exactly what is added. */
  lemma DebugPortsAppended(lists: PortLists)
    ensures GetExposedPorts(lists, true) == GetExposedPorts(lists, false) + lists.debug
    ensures GetExposedPorts(lists, false) <= GetExposedPorts(lists, true)
  {
  }

  const SccUserKey: string := "host_scc_username"
  const SccPasswordKey: string := "host_scc_password"

  /** The value of a key in a Go map: "" when the key is missing. */
  function Lookup(m: map<string, string>, key: string): string
  {
    if key in m then m[key] else ""
  }

  /** The `pullArgs` built from the inspected host values: `--creds
      user:password` when both SCC keys are present, nothing otherwise. */
  function PullArgs(hostValues: map<string, string>): (r: seq<string>)
    ensures r != [] <==> SccUserKey in hostValues && SccPasswordKey in hostValues
    ensures r != [] ==> |r| == 2 && r[0] == "--creds"
  {
    if SccUserKey in hostValues && SccPasswordKey in hostValues then
      ["--creds", hostValues[SccUserKey] + ":" + hostValues[SccPasswordKey]]
    else []
  }

  /** The credentials split back at their first colon into the user and the
      password, when the user name has no colon. */
  lemma PullArgsCredentials(hostValues: map<string, string>)
    requires PullArgs(hostValues) != []
    requires Lacks(hostValues[SccUserKey], ':')
    ensures var creds := PullArgs(hostValues)[1];
            var k := IndexOf(creds, ':');
            && k < |creds|
            && creds[..k] == hostValues[SccUserKey]
            && creds[k + 1..] == hostValues[SccPasswordKey]
  {
    var user := hostValues[SccUserKey];
    var creds := PullArgs(hostValues)[1];
    assert creds[|user|] == ':';
    assert forall i :: 0 <= i < |user| ==> creds[i] == user[i];
    assert forall i :: 0 <= i < |user| ==> creds[i] != ':';
    assert IndexOf(creds, ':') == |user|;
    assert creds[..|user|] == user;
    assert creds[|user| + 1..] == hostValues[SccPasswordKey];
  }

  /** Only the two SCC keys matter: host values that agree on them give the
      same arguments. */
  lemma PullArgsOnlyCredentials(a: map<string, string>, b: map<string, string>)
    requires (SccUserKey in a <==> SccUserKey in b) && (SccPasswordKey in a <==> SccPasswordKey in b)
    requires Lookup(a, SccUserKey) == Lookup(b, SccUserKey)
    requires Lookup(a, SccPasswordKey) == Lookup(b, SccPasswordKey)
    ensures PullArgs(a) == PullArgs(b)
  {
  }

  /** The suffix the default migration image carries. */
  function MigrationSuffix(oldPg: string, newPg: string): string
  {
    "-migration-" + oldPg + "-" + newPg
  }

  /** The image of the PostgreSQL version upgrade: the migration image when
      one is named, with the server image's tag; otherwise the server image
      with `-migration-<old>-<new>` appended to its name. */
  function MigrationImageUrl(imageName: string, imageTag: string, migrationName: string,
                             oldPg: string, newPg: string): Result<string, Images.ImageError>
  {
    if migrationName == "" then Images.ComputeImage(imageName, imageTag, MigrationSuffix(oldPg, newPg))
    else Images.ComputeImage(migrationName, imageTag, "")
  }

  /** The migration image cannot be computed exactly when the chosen name
      (the migration image when one is given, the server image otherwise)
      is not a valid reference. */
  lemma MigrationImageUrlFails(imageName: string, imageTag: string, migrationName: string, oldPg: string, newPg: string)
    ensures var chosen := if migrationName == "" then imageName else migrationName;
            MigrationImageUrl(imageName, imageTag, migrationName, oldPg, newPg).Failure?
            <==> !exists r :: Images.WellFormed(r) && Images.Render(r) == chosen
  {
    if migrationName == "" {
      Images.ComputeImageFails(imageName, imageTag, MigrationSuffix(oldPg, newPg));
    } else {
      Images.ComputeImageFails(migrationName, imageTag, "");
    }
  }

  /** Without a migration image, the migration image is the server image with
      the suffix spliced in before its tag; with one, the migration image's
      own tag wins over the server image's tag. */
  lemma MigrationImageChoice(imageName: string, imageTag: string, migrationName: string, oldPg: string, newPg: string)
    ensures migrationName == "" && Images.Parse(imageName).Some?
            && Images.EffectiveTag(Images.Parse(imageName).value, imageTag) != "" ==>
              var plain := Images.ComputeImage(imageName, imageTag, "").value;
              var n := |plain| - |Images.EffectiveTag(Images.Parse(imageName).value, imageTag)| - 1;
              0 <= n <= |plain|
              && MigrationImageUrl(imageName, imageTag, migrationName, oldPg, newPg)
                 == Success(plain[..n] + MigrationSuffix(oldPg, newPg) + plain[n..])
    ensures migrationName != "" && Images.Parse(migrationName).Some? && Images.Parse(migrationName).value.tag != "" ==>
              forall other :: MigrationImageUrl(imageName, imageTag, migrationName, oldPg, newPg)
                              == MigrationImageUrl(imageName, other, migrationName, oldPg, newPg)
  {
    if migrationName == "" && Images.Parse(imageName).Some?
       && Images.EffectiveTag(Images.Parse(imageName).value, imageTag) != "" {
      Images.ComputeImageSuffix(imageName, Images.Parse(imageName).value, imageTag, MigrationSuffix(oldPg, newPg));
    }
    if migrationName != "" && Images.Parse(migrationName).Some? && Images.Parse(migrationName).value.tag != "" {
      Images.ComputeImageTag(migrationName, Images.Parse(migrationName).value, imageTag, "");
    }
  }

  const ScriptMount: string := ":/var/lib/uyuni-tools/"

  /** The arguments of the containers that run a generated script: the
      script directory mounted, SELinux labelling disabled. */
  function ScriptArgs(scriptDir: string): seq<string>
  {
    ["-v", scriptDir + ScriptMount, "--security-opt", "label:disable"]
  }

  /** The arguments of the inspection container: the script directory is
      mounted where the inspection writes its output. */
  function InspectArgs(scriptDir: string, outputDir: string): seq<string>
  {
    ["-v", scriptDir + ":" + outputDir, "--security-opt", "label:disable"]
  }

  /** The arguments of the migration container: the SSH agent socket's
      directory and the script directory are always mounted; the SSH
      configuration and the known hosts only when their paths are given. */
  function MigrationArgs(sshAuthSocket: string, scriptDir: string, sshConfigPath: string, sshKnownhostsPath: string)
    : seq<string>
  {
    var agentDir := PathDir(sshAuthSocket);
    ["--security-opt", "label:disable", "-e", "SSH_AUTH_SOCK", "-v", agentDir + ":" + agentDir,
     "-v", scriptDir + ScriptMount]
    + (if sshConfigPath != "" then ["-v", sshConfigPath + ":/tmp/ssh_config"] else [])
    + (if sshKnownhostsPath != "" then ["-v", sshKnownhostsPath + ":/etc/ssh/ssh_known_hosts"] else [])
  }

  /** The volumes of an argument list made of flag and value pairs: the
      value of every `-v` flag, in order. */
  function Mounts(args: seq<string>): (r: seq<string>)
    ensures |r| <= |args| / 2
    decreases |args|
  {
    if |args| < 2 then []
    else (if args[0] == "-v" then [args[1]] else []) + Mounts(args[2..])
  }

  lemma {:induction false} MountsAppend(a: seq<string>, b: seq<string>)
    requires |a| % 2 == 0
    ensures Mounts(a + b) == Mounts(a) + Mounts(b)
    decreases |a|
  {
    if |a| >= 2 {
      MountsAppend(a[2..], b);
      assert (a + b)[2..] == a[2..] + b;
    } else {
      assert a + b == b;
    }
  }

  /** The mounts of the migration container. */
  lemma MigrationMounts(sshAuthSocket: string, scriptDir: string, sshConfigPath: string, sshKnownhostsPath: string)
    ensures var agentDir := PathDir(sshAuthSocket);
            Mounts(MigrationArgs(sshAuthSocket, scriptDir, sshConfigPath, sshKnownhostsPath))
            == [agentDir + ":" + agentDir, scriptDir + ScriptMount]
               + (if sshConfigPath != "" then [sshConfigPath + ":/tmp/ssh_config"] else [])
               + (if sshKnownhostsPath != "" then [sshKnownhostsPath + ":/etc/ssh/ssh_known_hosts"] else [])
  {
    var agentDir := PathDir(sshAuthSocket);
    var base := ["--security-opt", "label:disable", "-e", "SSH_AUTH_SOCK", "-v", agentDir + ":" + agentDir,
                 "-v", scriptDir + ScriptMount];
    var cfg := if sshConfigPath != "" then ["-v", sshConfigPath + ":/tmp/ssh_config"] else [];
    var known := if sshKnownhostsPath != "" then ["-v", sshKnownhostsPath + ":/etc/ssh/ssh_known_hosts"] else [];
    assert MigrationArgs(sshAuthSocket, scriptDir, sshConfigPath, sshKnownhostsPath) == base + cfg + known;
    MountsAppend(base + cfg, known);
    MountsAppend(base, cfg);
    BaseMounts(agentDir, scriptDir);
    if sshConfigPath != "" { SingleMount(sshConfigPath + ":/tmp/ssh_config"); }
    if sshKnownhostsPath != "" { SingleMount(sshKnownhostsPath + ":/etc/ssh/ssh_known_hosts"); }
  }

  /** The mounts the migration container always has. */
  lemma BaseMounts(agentDir: string, scriptDir: string)
    ensures Mounts(["--security-opt", "label:disable", "-e", "SSH_AUTH_SOCK", "-v", agentDir + ":" + agentDir,
                    "-v", scriptDir + ScriptMount])
            == [agentDir + ":" + agentDir, scriptDir + ScriptMount]
  {
    var base := ["--security-opt", "label:disable", "-e", "SSH_AUTH_SOCK", "-v", agentDir + ":" + agentDir,
                 "-v", scriptDir + ScriptMount];
    assert base[6..][2..] == [];
    assert Mounts(base[6..]) == [scriptDir + ScriptMount];
    assert base[4..][2..] == base[6..];
    assert Mounts(base[4..]) == [agentDir + ":" + agentDir, scriptDir + ScriptMount];
    assert base[2..][2..] == base[4..];
    assert Mounts(base[2..]) == Mounts(base[4..]);
  }

  /** One `-v` flag and its value. */
  lemma SingleMount(v: string)
    ensures Mounts(["-v", v]) == [v]
  {
    assert ["-v", v][2..] == [];
  }

  /** The script containers mount the script directory and nothing else. */
  lemma ScriptMounts(scriptDir: string, outputDir: string)
    ensures Mounts(ScriptArgs(scriptDir)) == [scriptDir + ScriptMount]
    ensures Mounts(InspectArgs(scriptDir, outputDir)) == [scriptDir + ":" + outputDir]
  {
    assert ScriptArgs(scriptDir)[2..][2..] == [];
    assert InspectArgs(scriptDir, outputDir)[2..][2..] == [];
  }
}
