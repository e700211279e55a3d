# uyuni-tools: the podman upgrade, the supportconfig extraction and the cluster helpers, in Dafny

This project models the core of `mgradm` and of the `shared` packages of
uyuni-tools, the tools that install and administer a containerised Uyuni
server:

- **Podman upgrade** (`mgradm/shared/podman/podman.go`). `Upgrade` computes
  the server image and inspects it. It checks that the upgrade makes sense
  and stops the service. When the image brings a newer PostgreSQL it runs the
  version upgrade container. It then runs the finalization and post-upgrade
  containers, points the systemd drop-in at the new image and reloads systemd.
  A deferred call starts the service again.
  - Each step (`Inspect`, `RunMigration`, `RunPgsqlVersionUpgrade`,
    `RunPgsqlFinalizeScript`, `RunPostUpgradeScript`) creates a script
    directory and runs one container. A deferred call removes the directory.
  - `UpdateSslCertificate` copies the certificates into the server container,
    runs `mgr-ssl-cert-setup` there and cleans up.
  - `GetExposedPorts` lists the published ports.
- **Image names** (`ComputeImage`, `ComputePTF`) and **prompts**
  (`AskIfMissing`, `AskPasswordIfMissing`). These come from the `shared/utils`
  package. The image names follow a grammar consistent with its test table,
  and each row of that table is proved.
- **supportconfig extraction** (`mgradm/cmd/support/config/extractor.go`).
  Supportconfig runs in the container and, when it is installed, on the host.
  The tarball paths are found in their outputs, and everything is packed into
  one archive.
- **Kubernetes helpers** (`shared/kubernetes/kubernetes.go`): the cluster
  kind, the default kubeconfig, the ingress guess, start/stop/restart through
  the replica count, and the secret lookup, which goes through base64 as in
  section 4 of RFC 4648.

The model treats the outside world the same way everywhere:

- Every effect is an `Event(op, ok)`: podman, systemd, kubectl, file copies,
  directory creation and removal. The model does not decide whether an effect
  succeeds.
- What a successful call returns is an input: inspected values, command
  output, the directory `os.MkdirTemp` creates.
- A command is specified by its *plan*, a `Plan(ops, succeeds)`: the
  operations it performs when every one succeeds, and whether it then
  succeeds. Plans are composed with `Then`.
- Each method returns its trace. Its `ensures` states `Outcome(trace, plan,
  ok)`: the trace follows the plan, stops at the first failure, and the
  method succeeds exactly when the whole plan ran and the plan succeeds.
- Go's deferred calls are the last event of a trace. `Strip` removes the
  deferred directory removals. `BeforeStart` removes the deferred start of
  the service. `ServiceOps` lists the stops and starts.

Modules:

- `Wrappers`: `Option` and `Result`.
- `GoStrings`: Go string helpers. Covers `strings.Contains`, byte-wise string
  comparison, `path.Join`, `path.Clean` and `filepath.Dir`.
- `Traces`: events, plans and outcomes.
- `Images`: image names.
- `ImageTable`: the rows of the image name test tables.
- `Prompt`: prompts.
- `Base64`: the base64 codec.
- `Kubernetes`: the cluster helpers.
- `SupportConfig`: the supportconfig extraction.
- `PodmanRules`: ports, pull credentials, migration image and container
  arguments.
- `PodmanSteps`: the script steps.
- `PodmanUpgrade`: `Upgrade`.
- `UpgradeProperties`: what a run of `Upgrade` can and cannot do.
- `PodmanSsl`: `UpdateSslCertificate`.

## Model

| member | source | states |
|---|---|---|
| Images.ComputeImageFails | shared/utils/utils_test.go:170-198 | fails exactly when the name does not match the image reference grammar |
| Images.ParseSound | shared/utils/utils_test.go:170-181 | a parsed reference is well formed and renders back to the very name it came from |
| Images.ParseComplete | shared/utils/utils_test.go:170-181 | every well-formed reference is accepted |
| Images.RegistryParse | shared/utils/utils_test.go:170-181 | a well-formed reference with a registry parses back to itself |
| Images.ComputeImageTag | shared/utils/utils_test.go:171-176 | a tag in the name wins, and the tag argument (in any case) is then ignored; without one, `:<tag>` is appended |
| Images.ComputeImageSuffix | shared/utils/utils_test.go:177-180 | the suffix is spliced in just before the final `:tag` of the suffix-less result |
| Images.LowerRegistryHost | shared/utils/utils_test.go:172-173 | lower-casing keeps a registry host a valid host (with its port) |
| Images.ComputeImageParsesBack | shared/utils/utils_test.go:171-180 | the computed image reads back as the lower-cased registry, the path with the suffix, and the effective tag |
| Images.ColonPositions | shared/utils/utils_test.go:200-213 | a well-formed reference has colons only at the port separator and the tag separator |
| Images.ThreeColonsRejected | shared/utils/utils_test.go:200-213 | any name with three colons is refused |
| Images.DoubleTagRejected | shared/utils/utils_test.go:202 | `registry:path/to/image:tag:tag` with tag `bar` is refused |
| Images.ComputePTF | shared/utils/utils_test.go:145-166 | succeeds exactly when the image parses with a registry and a tag |
| Images.ComputePTFParsesBack | shared/utils/utils_test.go:147 | the PTF image reads back as the same registry, with its case unchanged, the path under `a/<user>/<ptf>/`, and the tag `<tag>-<suffix>-<ptf>` |
| ImageTable.Row | shared/utils/utils_test.go:170-180 | a well-formed name with a registry gives the lower-cased registry, the path with the suffix, and its own tag or else the given one |
| ImageTable.KeepsTag | shared/utils/utils_test.go:171 | `registry:5000/path/to/image:foo` with tag `bar` gives `registry:5000/path/to/image:foo` |
| ImageTable.LowersRegistry | shared/utils/utils_test.go:172 | `REGISTRY:5000/path/to/image:foo` with tag `bar` gives `registry:5000/path/to/image:foo` |
| ImageTable.IgnoresGivenTag | shared/utils/utils_test.go:173 | `REGISTRY:5000/path/to/image:foo` with tag `BAR` gives `registry:5000/path/to/image:foo` |
| ImageTable.AddsTag | shared/utils/utils_test.go:174 | `registry:5000/path/to/image` with tag `bar` gives `registry:5000/path/to/image:bar` |
| ImageTable.PlainKeepsTag | shared/utils/utils_test.go:175 | `registry/path/to/image:foo` with tag `bar` gives `registry/path/to/image:foo` |
| ImageTable.PlainAddsTag | shared/utils/utils_test.go:176 | `registry/path/to/image` with tag `bar` gives `registry/path/to/image:bar` |
| ImageTable.SuffixKeepsTag | shared/utils/utils_test.go:177 | with the suffix `-migration-14-16`, `registry:5000/path/to/image:foo` gives `registry:5000/path/to/image-migration-14-16:foo` |
| ImageTable.SuffixAddsTag | shared/utils/utils_test.go:178 | with the suffix, `registry:5000/path/to/image` and tag `bar` give `registry:5000/path/to/image-migration-14-16:bar` |
| ImageTable.PlainSuffixKeepsTag | shared/utils/utils_test.go:179 | with the suffix, `registry/path/to/image:foo` gives `registry/path/to/image-migration-14-16:foo` |
| ImageTable.PlainSuffixAddsTag | shared/utils/utils_test.go:180 | with the suffix, `registry/path/to/image` and tag `bar` give `registry/path/to/image-migration-14-16:bar` |
| ImageTable.PtfRow | shared/utils/utils_test.go:145-166 | a well-formed name with a registry and a tag gives the image under `a/<user>/<ptf>/` tagged `<tag>-<suffix>-<ptf>` |
| ImageTable.PtfOfTagged | shared/utils/utils_test.go:147 | user `a196136`, PTF `27977` and suffix `ptf` turn `registry.suse.com/suse/manager/5.0/x86_64/proxy-helm:latest` into `registry.suse.com/a/a196136/27977/suse/manager/5.0/x86_64/proxy-helm:latest-ptf-27977` |
| Prompt.CharBytes | shared/utils/utils_test.go:57-62 | a character takes one to four bytes in UTF-8, and one exactly when it is ASCII |
| Prompt.ByteLength | shared/utils/utils_test.go:57-62 | Go's `len`: the UTF-8 length, between the number of characters and four times that |
| Prompt.AsciiByteLength | shared/utils/utils_test.go:57-62 | an ASCII text has as many bytes as characters |
| Prompt.ByteLengthAscii | shared/utils/utils_test.go:57-62 | a text with as many bytes as characters is ASCII |
| Prompt.Validate | shared/utils/utils_test.go:57-62 | accepts exactly the acceptable values; "value required" exactly for an empty value when a minimum is set; too short and too long, in bytes, only when the bound is broken |
| Prompt.ValidateTable | shared/utils/utils_test.go:57-62 | each row of the test table is refused with its own message, and "foo" is accepted on each row |
| Prompt.AskIfMissing | shared/utils/utils_test.go:64-88 | a set value is kept; otherwise the first line that is non-empty and acceptable is stored, every earlier line was empty or refused, and running out of input means no line was; success exactly when something is stored |
| Prompt.AskPasswordIfMissing | shared/utils/utils_test.go:112-142 | the same loop without a checker: the stored password is non-empty and within the byte length limits, and every earlier line was not |
| Prompt.AskTwice | shared/utils/utils_test.go:64-88 | one refused line followed by "foo" stores "foo" after reading two lines |
| Base64.ValueOfCharOf | shared/kubernetes/kubernetes.go:147 | each six-bit value's character decodes back to it |
| Base64.CharOfValueOf | shared/kubernetes/kubernetes.go:147 | each alphabet character is the character of its value |
| Base64.Encode | shared/kubernetes/kubernetes.go:147 | four characters per started group of three bytes, and no line breaks |
| Base64.PartialQuantumRejected | shared/kubernetes/kubernetes.go:147-150 | input that is not made of whole four-character quanta is refused |
| Base64.MisplacedPaddingRejected | shared/kubernetes/kubernetes.go:147-150 | padding at the start of a quantum, or a lone `=` before a data character, is refused |
| Base64.DecodeEncode | shared/kubernetes/kubernetes.go:147 | decoding undoes encoding |
| Base64.NewlinesIgnored | shared/kubernetes/kubernetes.go:147 | a line break inserted anywhere leaves the decoding unchanged |
| Kubernetes.IsK3s | shared/kubernetes/kubernetes.go:26-28 | true exactly when "k3s" occurs in the kubelet version |
| Kubernetes.IsRke2 | shared/kubernetes/kubernetes.go:31-33 | true exactly when "rke2" occurs in the kubelet version |
| Kubernetes.GetKubeconfig | shared/kubernetes/kubernetes.go:36-47 | the K3s path exactly on K3s when KUBECONFIG is unset or `~/.kube/config` is missing; "" otherwise |
| Kubernetes.GuessIngress | shared/kubernetes/kubernetes.go:68-90 | traefik exactly when the explain succeeds; fails exactly when the explain and the pod listing fail; nginx exactly when the listing names the controller; nothing else |
| Kubernetes.CheckCluster | shared/kubernetes/kubernetes.go:50-66 | fails when the kubelet version cannot be read; otherwise succeeds exactly when the ingress guess does, with the version and the ingress |
| Kubernetes.GetSecret | shared/kubernetes/kubernetes.go:142-153 | a failed lookup and a failed decoding are distinct errors; the result is the base64 decoding of the output |
| Kubernetes.GetSecretOfEncoded | shared/kubernetes/kubernetes.go:142-153 | a secret stored as base64 reads back unchanged |
| Kubernetes.Cluster.Stop | shared/kubernetes/kubernetes.go:111-113 | one scale-to-zero call; the replica count becomes 0 on success and is unchanged on failure |
| Kubernetes.Cluster.Start | shared/kubernetes/kubernetes.go:101-108 | looks for a node first; scales to one replica only when none is found; otherwise nothing changes |
| Kubernetes.Cluster.Restart | shared/kubernetes/kubernetes.go:93-98 | a failed stop is reported as "cannot stop" and nothing else is attempted; otherwise the calls and replica counts of a start follow |
| Kubernetes.Cluster.ReplicasTo | shared/kubernetes/kubernetes.go:104 | one scale call; the count changes only on success |
| SupportConfig.MatchEndSpec | mgradm/cmd/support/config/extractor.go:104-107 | the matcher finds exactly the `/var/log/scc_[^.]+\.txz` matches starting at a position |
| SupportConfig.FindFromSpec | mgradm/cmd/support/config/extractor.go:104-107 | the search finds the leftmost match, or reports that there is none |
| SupportConfig.GetSupportConfigPathSpec | mgradm/cmd/support/config/extractor.go:104-107 | "" exactly when the output holds no match; otherwise the leftmost match, and the only one starting there |
| SupportConfig.CopyOut | mgradm/cmd/support/config/extractor.go:44-62 | per extension, copy out then remove in the container, stopping at the first failure; on success the local files are recorded |
| SupportConfig.ContainerPhase | mgradm/cmd/support/config/extractor.go:41-62 | supportconfig in the container, giving up when no tarball is named, then the copies |
| SupportConfig.HostPhase | mgradm/cmd/support/config/extractor.go:66-83 | supportconfig on the host only when installed; gives up when no tarball is named or it is missing |
| SupportConfig.Archive | mgradm/cmd/support/config/extractor.go:89-99 | creates the archive and adds every file under its base name, stopping at the first failure |
| SupportConfig.Collect | mgradm/cmd/support/config/extractor.go:41-99 | the container phase, the host phase and the archive, in sequence |
| SupportConfig.Extract | mgradm/cmd/support/config/extractor.go:26-102 | a failed temporary directory ends the run; otherwise its removal is the last operation and only there, and the rest follows the plan |
| SupportConfig.ExtractPlanOps | mgradm/cmd/support/config/extractor.go:30-35 | the plan starts by creating the directory and never removes it |
| SupportConfig.ContainerTarballMissing | mgradm/cmd/support/config/extractor.go:45-48 | with no container tarball named, only the directory and supportconfig are attempted, and the command fails |
| SupportConfig.HostTarballMissing | mgradm/cmd/support/config/extractor.go:66-83 | with the host tarball not named or missing, no archive is written and the command fails |
| SupportConfig.ExtractSucceeds | mgradm/cmd/support/config/extractor.go:26-102 | the command can succeed exactly when the tarballs are found, and then the complete order of operations |
| SupportConfig.ContainerEntryNames | mgradm/cmd/support/config/extractor.go:94-97 | the container files keep the tarball's name as archive entry name |
| SupportConfig.ArchivedFilesOrder | mgradm/cmd/support/config/extractor.go:84-99 | two files, or four with the host files, container files first |
| SupportConfig.CopyBeforeRemove | mgradm/cmd/support/config/extractor.go:50-62 | each container file is copied before it is removed, tarball before checksum |
| PodmanRules.GetExposedPorts | mgradm/shared/podman/podman.go:29-42 | https and http first, then the TCP list, the UDP list, and the debug ports exactly when debugging |
| PodmanRules.DebugPortsAppended | mgradm/shared/podman/podman.go:29-42 | debugging only appends the debug ports |
| PodmanRules.PullArgs | mgradm/shared/podman/podman.go:189-194 | `--creds` and one value exactly when both SCC keys are present |
| PodmanRules.PullArgsCredentials | mgradm/shared/podman/podman.go:249-254 | the credentials split at their first colon into the user and the password |
| PodmanRules.PullArgsOnlyCredentials | mgradm/shared/podman/podman.go:391-396 | only the two SCC keys affect the pull arguments |
| PodmanRules.MigrationImageUrlFails | mgradm/shared/podman/podman.go:231-242 | fails exactly when the chosen name (the migration image, else the server image) is not a valid reference |
| PodmanRules.MigrationImageChoice | mgradm/shared/podman/podman.go:231-242 | by default the `-migration-<old>-<new>` suffix is spliced before the tag; a migration image's own tag wins over the server tag |
| PodmanRules.MountsAppend | mgradm/shared/podman/podman.go:169-182 | the volumes of concatenated flag/value lists are concatenated |
| PodmanRules.MigrationMounts | mgradm/shared/podman/podman.go:169-182 | the migration container mounts the agent socket's directory (as `filepath.Dir` gives it) and the script directory, and the SSH configuration and known hosts only when given |
| GoStrings.PathDirOfFile | mgradm/shared/podman/podman.go:172 | `filepath.Dir` of a file in a clean absolute directory is that directory |
| GoStrings.SplitJoin | mgradm/shared/podman/podman.go:172 | splitting plain elements joined by slashes gives them back |
| GoStrings.ResolvePlain | mgradm/shared/podman/podman.go:172 | cleaning keeps plain elements, in order |
| PodmanRules.ScriptMounts | mgradm/shared/podman/podman.go:268-272 | the script containers mount the script directory and nothing else |
| PodmanSteps.StripAppend | mgradm/shared/podman/podman.go:167 | dropping the deferred removals distributes over concatenation |
| PodmanSteps.StepTrace | mgradm/shared/podman/podman.go:219-223 | a step's trace without its final removal is its own operations, with no stop or start of the service |
| PodmanSteps.ThenSteps | mgradm/shared/podman/podman.go:362-375 | two step runs, the first successful, make a run of the two plans in sequence |
| PodmanSteps.RemoveLast | mgradm/shared/podman/podman.go:167 | the deferred removal is attempted after everything else |
| PodmanSteps.InspectSteps | mgradm/shared/podman/podman.go:379-424 | the inspection's operations, stopping at the first failure; the inspected values on success, the empty map otherwise |
| PodmanSteps.Inspect | mgradm/shared/podman/podman.go:379-424 | as above, with the removal of the script directory last (of "" when it could not be created) |
| PodmanSteps.MigrationSteps | mgradm/shared/podman/podman.go:162-213 | script generation, host inspection, pull, migration container, data read-back, stopping at the first failure |
| PodmanSteps.RunMigration | mgradm/shared/podman/podman.go:162-213 | as above; the removal comes last only once the script was generated; empty strings on failure |
| PodmanSteps.UpgradeContainerSteps | mgradm/shared/podman/podman.go:231-272 | gives up when the migration image cannot be computed; otherwise host inspection, pull, script and container |
| PodmanSteps.VersionUpgradeSteps | mgradm/shared/podman/podman.go:216-275 | the directory, then the upgrade container's operations |
| PodmanSteps.RunPgsqlVersionUpgrade | mgradm/shared/podman/podman.go:216-275 | as above, with the directory removal last |
| PodmanSteps.FinalizeSteps | mgradm/shared/podman/podman.go:278-300 | directory, finalization script with the schema flag, `uyuni-finalize-pgsql` container on the server image |
| PodmanSteps.RunPgsqlFinalizeScript | mgradm/shared/podman/podman.go:278-300 | as above, with the directory removal last |
| PodmanSteps.PostUpgradeSteps | mgradm/shared/podman/podman.go:303-324 | directory, post-upgrade script, `uyuni-post-upgrade` container on the server image |
| PodmanSteps.RunPostUpgradeScript | mgradm/shared/podman/podman.go:303-324 | as above, with the directory removal last |
| PodmanUpgrade.Reload | mgradm/shared/podman/podman.go:371-375 | the configuration write, then the reload; the error names the step that failed (configuration or reload) and is never the downgrade error |
| PodmanUpgrade.Finish | mgradm/shared/podman/podman.go:363-375 | finalization, post-upgrade, configuration, reload, stopping at the first failure, without touching the service; the error names the step at which the run stopped |
| PodmanUpgrade.PostUpgrade | mgradm/shared/podman/podman.go:367-375 | post-upgrade, then configuration and reload; the error names the step at which the run stopped |
| PodmanUpgrade.UpgradeStopped | mgradm/shared/podman/podman.go:351-375 | the version branch then the rest; the downgrade error exactly when the image's PostgreSQL version is smaller; any other error names the step at which the run stopped |
| PodmanUpgrade.Upgrade | mgradm/shared/podman/podman.go:327-376 | follows the plan up to the first failure, and the error names the step at which the run stopped (image, inspection, sanity check, stop, version upgrade, finalization, post-upgrade, configuration, reload); the downgrade error exactly when the service was stopped and the image's PostgreSQL version is smaller; the service is started again, once and last, exactly when it was stopped; the start's result never reaches the caller |
| PodmanUpgrade.UpgradeImage | mgradm/shared/podman/podman.go:332-376 | the same as `Upgrade` once the server image is computed |
| PodmanUpgrade.Stopping | mgradm/shared/podman/podman.go:340-376 | the sanity check, the stop, the rest and the deferred start after a successful inspection, with the same error identity as `Upgrade` |
| PodmanUpgrade.FailedChecks | mgradm/shared/podman/podman.go:340-346 | a failed sanity check, or a failed stop after a passed check, is a failed run of the two that never stops the service and never starts it |
| PodmanUpgrade.StartedServices | mgradm/shared/podman/podman.go:344-350 | a run that stopped the service starts it again as its last operation and nowhere else |
| UpgradeProperties.StoppedPlanPlain | mgradm/shared/podman/podman.go:351-375 | nothing planned after the stop stops or starts the service again |
| UpgradeProperties.UpgradePlanStart | mgradm/shared/podman/podman.go:327-346 | inspection, sanity check and stop come first in the plan |
| UpgradeProperties.StopAfterChecks | mgradm/shared/podman/podman.go:328-346 | the service is only stopped, as eighth operation, after the image was computed, inspected and sanity-checked |
| UpgradeProperties.UpgradeStopsAfterChecks | mgradm/shared/podman/podman.go:328-350 | in a run of `Upgrade`, any stop attempt is preceded by a successful inspection and sanity check |
| UpgradeProperties.DowngradeRejected | mgradm/shared/podman/podman.go:351-360 | an older image PostgreSQL version makes the upgrade give up right after the stop |
| UpgradeProperties.VersionBranch | mgradm/shared/podman/podman.go:351-360 | newer runs the version upgrade, equal runs nothing, older gives up |
| UpgradeProperties.VersionSucceeds | mgradm/shared/podman/podman.go:351-360 | the version branch succeeds exactly when the version is not older and the migration image is computed when newer |
| UpgradeProperties.StoppedPlanShape | mgradm/shared/podman/podman.go:351-375 | after the stop: the version branch, then finalization, post-upgrade, configuration write and reload |
| UpgradeProperties.UpgradeSucceeds | mgradm/shared/podman/podman.go:327-376 | the upgrade can succeed exactly when the image is computed, the version is not older, and the migration image is computed when newer |
| UpgradeProperties.UpgradeOps | mgradm/shared/podman/podman.go:327-376 | the complete order of operations of a successful upgrade |
| UpgradeProperties.BranchOps | mgradm/shared/podman/podman.go:351-365 | the schema update flag is "versions differ"; the version upgrade container runs only when the image's version is newer |
| UpgradeProperties.VersionOps | mgradm/shared/podman/podman.go:351-356 | the version branch runs no finalization, and its only container is the version upgrade |
| PodmanSsl.IntermediateArgs | mgradm/shared/podman/podman.go:130-137 | one `--intermediate-ca-file` flag per intermediate CA, with its `ca-<i>.crt` path |
| PodmanSsl.CaCopies | mgradm/shared/podman/podman.go:130-137 | intermediate CA i is copied to `server:/tmp/uyuni-tools/ca-<i>.crt` |
| PodmanSsl.CopyCertificates | mgradm/shared/podman/podman.go:99-137 | mkdir, root CA, certificate, key, then the intermediate CAs, stopping at the first failure; on success the setup arguments are complete |
| PodmanSsl.Install | mgradm/shared/podman/podman.go:139-158 | setup, removal of the copies, removal of ssl-build when it exists, service restart |
| PodmanSsl.UpdateSslCertificate | mgradm/shared/podman/podman.go:95-159 | the copies then the installation, stopping at the first failure |
| PodmanSsl.CaPathsMatch | mgradm/shared/podman/podman.go:130-137 | the path given to the setup for CA i is where CA i was copied |
| PodmanSsl.CaFilesDistinct | mgradm/shared/podman/podman.go:131-132 | distinct CAs get distinct files |
| PodmanSsl.SetupAfterCopies | mgradm/shared/podman/podman.go:120-142 | the setup runs only after every copy succeeded |

## Left out

- Logging, localisation of messages, and the exact error texts. Errors are
  datatypes that keep their cause but not their message.
- Whether a container, a kubectl call, a file copy or a directory operation
  succeeds is not decided by the model. Each is an event with a free outcome.
- The script generators are operations whose success is free. This covers
  `GenerateMigrationScript`, the inspection, version upgrade, finalization
  and post-upgrade scripts, `ReadContainerData` and `ReadInspectData`. What
  they read back is an input.
- The shell commands inside the containers, and the script names passed to
  `RunContainer`, are not recorded. Only the container name, the image and
  the arguments are.
- `InspectHost` and the image sanity check are operations with free success.
- The image `PrepareImage` returns is `Prepared`, not a name.
- `Upgrade` logs the `uyuni_release` value, but that value is not modelled.
- `GenerateSystemdService`, `GenerateAttestationSystemdService` and the
  systemd unit contents are not part of this model.
- The `TCP_PORTS`, `UDP_PORTS` and `DEBUG_PORTS` lists belong to
  `shared/utils`, which is not part of this model. They are parameters.
- `ComputeImage` and `ComputePTF` are defined in `shared/utils/utils.go`,
  which is not part of this model.
  - They are modelled after the grammar of a regular expression,
    `^((?:[^:/]+(?::[0-9]+)?/)?[^:]+)(?::([^:]+))?$`. That grammar is
    consistent with the test table. Every row of the table is proved
    (`ImageTable`, and `DoubleTagRejected` for the error row), but the
    table does not settle the grammar for other names.
  - Lower-casing is ASCII only.
- Images.ComputeImage: three choices go beyond what the tests show. A name
  without a registry is not lower-cased. Only the registry is lower-cased,
  and the path keeps its case. An untagged name with the tag argument ""
  gives an image with no tag (`EffectiveTag` is then "").
- Images.ComputePTF: two choices go beyond what the tests show. A reference
  without a registry or without a tag is refused; the tests only show a name
  with both. The registry is kept as written, not lower-cased; the tests
  only show a lower-case registry.
- The terminal of the prompts is a list of typed lines. Echo suppression
  for passwords, and the message printed for each refusal, are not modelled.
- GoStrings.PathDir: only slash-separated paths are modelled. Windows
  volume names are not.
- `GoStrings.PathJoin` does not apply `path.Clean`. It joins with one slash,
  which is what the directories used here need.
- `ssl.CheckPaths` exits the program on invalid paths. It is not part of this
  model, and the certificate paths are inputs.
- The server container's name (`podman.ServerContainerName`) is a parameter.
- `cnx.TestExistenceInPod` is an input (`sslBuildExists`).
- `Kubernetes.GetConfigMap` returns the kubectl output unchanged, so with the
  output as an input there is nothing left to model. The generic `get`
  helper is not modelled either.
- Kubernetes: `ReplicasTo` and `GetNode` are in a file that is not part of
  this model. Their outcomes are free, and the kubectl arguments are not
  recorded.
- Closing the archive (`tarball.Close`) is not modelled: its result is ignored.
- Concurrency, the goroutines of the prompt tests, and file permissions
  (owner `root`) of the copies are not modelled.
