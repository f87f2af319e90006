# MiniContainer, verified

MiniContainer is a daemonless container runtime: short-lived command processes, one shim per
container, and files on disk that tie them together. This project models the parts whose
correctness rests on protocols between those processes and proves what the design promises of them.

* **Lifecycle** (`Lifecycle`, `LifecycleProof`, `LifecycleHistory`, `LifecycleProgress`, `LifecycleLimits`): commands that share a registry
  lock, shims that write `state.json` without it, and pids that come back with other start times, as
  a transition system. The theorems hold in every interleaving, with failing writes, killed commands
  and shim deaths at every step, but for one death of a command, and it is proved that exactly that
  one must be left out. They say what a command may do and what it has to have read for that, how a
  container's record can change, and what each command achieves when nothing disturbs it.
* **Registry** (`Leases`, `RegistryProof`, `RegistryLimits`, `Store`, `Processes`): names, bridge addresses
  and published ports over the runs of that system, what packets the generated nftables rules select,
  reference resolution, and reconciliation as a directory scan. Every scan passes over the files it
  cannot read; the theorems say exactly what that costs.
* **Configuration transport** (`CommandLine`, `OptionText`, `CommandText`, `CommandMeaning`,
  `CommandWriter`, `Numerals`, `Capabilities`, `Mounts`, `Transport`, `Launch`, `Delivery`, `ShimOptions`,
  `Vector`, `Stored`): from the command line to a configuration, to an argument vector, to the shim's
  parser, and through `config.json`, with the exact condition under which nothing is lost. What a command
  line means is said field by field, for options in any order, and every configuration has a line.
* **Crash-safe publication** (`AtomicWrite`, `ImageImport`, `ImportProgress`): atomic file replacement and concurrent
  image imports over a disk whose durable state lags behind, with power losses at any point.
* **PID 1** (`Supervisor`): coalesced SIGCHLD against a non-blocking reap loop, and forwarded signals.
* **Log rotation** (`LogPump`), **netlink requests** (`Netlink`), **path scanners** (`Paths`) and the
  **CPU quota parser** (`Quota`).

Code that updates things in place is modelled by methods with loops and by classes; each is proved
against a function or predicate, about which the promised property is then proved. Protocols are
transition systems over single system calls. System calls are methods whose contracts allow every
outcome the kernel may choose, or steps that may or may not happen.

Where the code does not have the property it seems to aim at, there is a lemma with the failing case
and the exact condition:

* a `start` killed before its shim has written its running record lets a second shim start, and no
  other death of a command does (`LifecycleLimits.DeathIsExact`);
* a configuration that a creation cannot read is not compared, and a run's registry stays consistent if
  and only if none is saved beside an unread one that it clashes with (`RegistryProof.ConsistentExactly`,
  `RegistryLimits.UnreadClashIsReachable`);
* a read-only bind mount whose text is 8194 bytes long arrives writable (`Mounts.BindComesBack`,
  `Mounts.ReadonlyArrivesWritable`);
* a file that is absent and whose path has 4095 bytes is written in place (`AtomicWrite.AtomicExactly`);
* extracted files are not flushed, so a power loss can leave a published image with its marker but not
  all its files, for good (`ImageImport.ImageIsIncompleteExactly`, `ImageImport.DamageIsPermanent`);
  and a name whose directory's rename is lost resolves no more (`ImageImport.UnresolvedNameWasLost`);
* a workload's pid that is reused while PID 1 reaps replaces its exit status
  (`Supervisor.ReportsWorkloadStatus`);
* a netlink acknowledgement of fewer than 20 bytes has no error code of its own
  (`Netlink.ReplyCarriesItsCode`), and one of 16 bytes at the very end of the 8192-byte buffer has its
  code read from beyond it (`Netlink.ReadDatagram`, `Netlink.CodeIsReadPastBuffer`).

## Model

| member | source | states |
|---|---|---|
| LifecycleProof.StepKeepsProtocol | src/cli/main.c:253-330 | every transition of every process keeps the protocol invariant, the death of a command included, but for a `start` whose shim has recorded nothing |
| LifecycleProof.SessionKeepsProtocol | src/state/store.c:706-769 | locking, and reconciliation as separate read, liveness and write steps, keep the protocol invariant |
| LifecycleProof.TargetKeepsProtocol | src/cli/main.c:253-330 | the critical sections of `start` and `rm` keep it |
| LifecycleProof.CreationKeepsProtocol | src/cli/main.c:651-686 | `create`, `run` and the launch that `run` makes without the lock keep it |
| LifecycleProof.KernelKeepsProtocol | src/linux/container.c:938-1012 | unlocked shim writes, the ready byte, shim death and pid reuse keep it |
| LifecycleProof.RunKeepsProtocol | src/cli/main.c:253-330 | the protocol invariant holds in every state of every run without that one death |
| LifecycleProof.AtMostOneActiveShim | src/runtime/launch.c:300-315 | in every run without that one death a container has at most one shim between launch and final state write |
| LifecycleProof.DeleteFindsNoActiveShim | src/cli/main.c:253-294 | in every run without that one death `rm`, and the cleanup after a failed creation, delete only containers without such a shim |
| LifecycleProof.OverwriteFindsNoActiveShim | src/state/store.c:717-765 | in every run without that one death reconciliation overwrites no record of a container with an active shim, even if the shim's pid was reused between its reads and its write |
| LifecycleProof.RecordsTellTheTruth | src/linux/container.c:750-821 | in every run without that one death, while the lock is free, a record that is not running means no active shim, and an active shim is the one its record names |
| LifecycleHistory.RunKeepsRole | src/cli/main.c:253-330 | in every run a process is only where its command can take it, and the id it uses is one it generated |
| LifecycleHistory.RemoveNeedsForce | src/cli/main.c:268-274 | in every run an `rm` without --force goes on only when the record it reads does not say running |
| LifecycleHistory.KillingIsForced | src/cli/main.c:268-276 | in every run a container is killed only by an `rm --force` of it that has read that it runs |
| LifecycleHistory.DeleteIsJustified | src/cli/main.c:253-294 | in every run a container is deleted only by its own failed creation, by an `rm` of it that read another status than running, or by an `rm --force` that read running and then waited for another status |
| LifecycleHistory.LaunchIsJustified | src/cli/main.c:307-325 | in every run a shim is launched under the lock only by a `start` of its container that has read created or stopped |
| LifecycleHistory.OverwriteIsJustified | src/state/store.c:724-765 | in every run reconciliation rewrites only a record read as running whose shim it then found missing in the process table, to stopped with pid 0 |
| LifecycleHistory.RecordsChangeLawfully | src/linux/container.c:750-821 | in every run without that one death a record changes only by creation, by its own shim's first or last write, by reconciliation without an active shim, or by removal when it does not say running |
| LifecycleHistory.StatusFollowsGraph | src/linux/container.c:750-821 | so a running container neither vanishes nor is created again, and a failed one never runs again |
| LifecycleHistory.ConfigsChangeLawfully | src/state/store.c:254-295 | in every run a stored configuration is the one its creation was asked for, but for the address, and goes only with its container |
| LifecycleHistory.CreationIsConfigured | src/cli/main.c:651-681 | in every run without that one death no container is marked created or launched whose configuration is not stored |
| LifecycleHistory.FailedCreationIsRemoved | src/cli/main.c:659-668 | in every run a creation that fails at any of its steps goes on to remove its own container |
| LifecycleHistory.FailedOverwriteEnds | src/state/store.c:759-761 | a command whose reconciliation cannot write does nothing more |
| LifecycleProgress.RemoveCompletes | src/cli/main.c:253-290 | from every state with the lock free, `rm` of a container that does not run can complete, and takes away its configuration and record and nothing else |
| LifecycleProgress.ForcedRemoveCompletes | src/cli/main.c:268-290 | so can `rm --force` of a running one, once its shim has made its final write |
| LifecycleProgress.DeletesInPart | src/state/store.c:496-509 | a deletion that fails halfway leaves exactly what it has not got to |
| LifecycleProgress.StartCompletes | src/cli/main.c:300-330 | `start` of a created or stopped container can complete, with a new shim that its record names |
| LifecycleProgress.GcCompletes | src/state/store.c:706-769 | reconciliation can complete, and stops exactly the record whose shim is not in the process table |
| LifecycleProgress.CreateCompletes | src/cli/main.c:651-676 | `create` can complete when nothing stands in its way, with the least free address and a created record |
| LifecycleProgress.RunCompletes | src/cli/main.c:651-681 | `run` can complete likewise, with a shim that its record names |
| LifecycleLimits.PerilousDeathEndangers | src/cli/main.c:300-330 | from every state that keeps the invariant, the death of a `start` whose shim has recorded nothing can be continued to two active shims of one container |
| LifecycleLimits.DeathIsExact | src/runtime/launch.c:300-315 | after every run without such a death, killing a command can lead to two active shims of one container if and only if it is such a `start` |
| LifecycleLimits.PerilousDeathIsReachable | src/cli/main.c:300-330 | a run that reaches such a `start` |
| RegistryProof.OnlyHolderWritesConfigs | src/cli/main.c:651-670 | no step of anyone but the command that holds the registry lock changes a stored configuration |
| RegistryProof.ScansSeeOneRegistry | src/state/store.c:175-237 | in every run, between two steps of the lock holder the stored configurations stay as they are, so a scan file by file sees one registry |
| RegistryProof.CreationKeepsMemory | src/cli/main.c:651-670 | allocating, vetting and saving keep true what the creation's scans have found among the configurations they could read |
| RegistryProof.RunKeepsMemory | src/state/store.c:254-295 | that holds in every state of every run, whatever dies and whatever cannot be read |
| RegistryProof.StepIsExact | src/state/store.c:254-295 | a step from a consistent registry leads to an inconsistent one if and only if it saves a configuration beside one that clashes with it in just what the scan could not read |
| RegistryProof.ConsistentExactly | src/state/store.c:254-295 | every run, with every death and every unreadable file, keeps the registry consistent throughout if and only if it takes no such step |
| RegistryProof.RegistryStaysConsistent | src/state/store.c:254-295 | in every registry that a run reaches whose scans read every stored configuration, whatever dies at whatever point, names are distinct, bridge addresses are distinct and in the pool, publishes do not overlap |
| RegistryProof.AllocationsAreLeastFree | src/state/store.c:771-811 | every allocation of every run takes the least address free among the configurations it read, and fails only when all 253 are leased there; if it read all of them, among all |
| RegistryProof.AtMostOneRuleSelects | src/network/nft.c:178-201 | in every registry that a run reaches whose scans read every stored configuration, at most one stored publish has a rule that selects a given packet |
| RegistryProof.StoredAddresses | src/state/store.c:771-811 | in those registries a container on the bridge has an address from 10.44.0.2 to 10.44.0.254, and one outside it no address and no publishes |
| RegistryLimits.UnreadFilesEndanger | src/state/store.c:175-237 | from every consistent state in which a creation would take the name, a port or the least passed-over address of a stored container, unreadable files lead to an inconsistent registry |
| RegistryLimits.UncontestedIsSafe | src/state/store.c:254-295 | a creation that would take none of these is saved consistently, whatever its scans cannot read |
| RegistryLimits.UnreadClashIsReachable | src/state/store.c:771-811 | a run that ends with two containers of one name and one address |
| Leases.OverlapIsSharedPacket | src/network/nft.c:178-201 | the textual conflict test holds exactly when some packet is selected by both prerouting rules |
| Leases.OutputIsLocalPrerouting | src/network/nft.c:178-201 | the rules select by protocol, port and address, and the output rule of a wildcard publish only what goes to an address of the host |
| Leases.CollectPublishes | src/cli/main.c:543-561 | the publish options of one command line are accepted exactly when no two overlap |
| Leases.LeastFreeAddressMeaning | src/state/store.c:771-811 | the allocated address is the least one nobody holds; there is none exactly when all 253 are held |
| Leases.NameIsTaken | src/state/store.c:175-196 | for any directory order, true exactly when another container whose configuration can be read bears the name |
| Leases.PublishedPortIsTaken | src/state/store.c:198-237 | for any directory order, true exactly when a publish of another container whose configuration can be read overlaps a requested one |
| Leases.MarkLeased | src/state/store.c:771-799 | for any directory order, exactly the octets leased by configurations that can be read are marked |
| Leases.AllocateIp | src/state/store.c:771-811 | the marking array and first-fit loop compute the least address that no configuration that can be read holds, for any directory order |
| Leases.AdmissionIsExact | src/state/store.c:254-295 | saving a configuration that passed the three scans keeps a registry consistent if and only if it does not clash with one that the scan in question could not read |
| Leases.DnatRulesNeverCompete | src/network/nft.c:178-201 | in a consistent registry no two publishes have prerouting, or output, rules that select the same packet |
| Store.CountReferents | src/state/store.c:460-488 | the scan counts the containers that a reference denotes by id or by a name that can be read, in any directory order |
| Store.Resolve | src/state/store.c:460-488 | a reference is found exactly when one container matches it by id prefix or by the exact name in a configuration that can be read |
| Store.ResolutionMeaning | src/state/store.c:460-488 | found, missing and ambiguous mean one, none and several visible entries of 32 characters that the reference begins or whose name it is |
| Store.ResolutionIsUnique | src/state/store.c:460-488 | the outcome does not depend on the directory order |
| Store.NameResolvesToBearer | src/state/store.c:460-488 | with unique names, a name resolves to its bearer exactly when it begins no other container's id and the bearer's configuration can be read or its id begins with the name |
| Store.IdResolvesToItself | src/state/store.c:460-488 | a full id resolves to itself exactly when no other container whose configuration can be read bears it as a name |
| Store.Registry.Visit | src/state/store.c:717-765 | one entry is rewritten exactly if it can be read and is stale, and a failed write leaves old or new contents |
| Store.Registry.Reconcile | src/state/store.c:706-769 | the records are the swept ones for the entries dealt with, which are all that can be read unless a write failed; the count is that of stale records; configurations are untouched |
| Store.SweptExactly | src/state/store.c:717-765 | a sweep stops, with pid 0 and exit code 125, exactly the running records of entries dealt with whose pid and start time the process table does not show; all others are untouched |
| Store.InterruptedSweepConverges | src/state/store.c:706-769 | a sweep stopped after any prefix and rerun ends where an uninterrupted one ends; a second sweep changes nothing |
| Numerals.ValueOfDecimal | src/runtime/launch.c:168-190 | a printed number denotes the number that was printed |
| Numerals.ParseOfDecimal | src/util/resource.c:9-24 | a printed number is read back exactly when it is within 64 bits and the given maximum |
| Capabilities.ParseCapability | src/linux/security.c:26-38 | the table loop finds the first position of a name, with or without CAP_ |
| Capabilities.NamesAreOk | src/linux/security.c:16-24 | the 41 names differ from each other and none starts with CAP_ |
| Capabilities.NameIsParsedBack | src/linux/security.c:26-44 | the name of every capability is parsed to that capability |
| Capabilities.LowBits | src/runtime/shim_main.c:208-211 | setting bit i in the mask below bit i gives the mask below bit i + 1 |
| Capabilities.WithBitStaysBelow | src/cli/main.c:562-569 | adding a named capability keeps a mask of named capabilities one |
| Capabilities.BitOfWithBit | src/cli/main.c:562-569 | adding a capability sets its bit and no other |
| Mounts.HasParent | src/util/mount.c:21-26 | the scan that steps two characters past each ".." finds every ".." component and nothing else |
| Mounts.IsValidTarget | src/util/mount.c:13-34 | accepts exactly the absolute targets without ".." components outside the reserved trees |
| Mounts.ReservedTrees | src/util/mount.c:13-34 | the targets refused for their place are the five reserved trees and what is below them |
| Mounts.ParsedBindIsOk | src/util/mount.c:71-100 | an accepted bind mount has a canonical allow-listed source and a valid target without a colon |
| Mounts.BindComesBack | src/runtime/launch.c:213-218 | what a colon-free bind mount is read back as for every text length: itself, itself made writable, or an error |
| Mounts.ReadonlyArrivesWritable | src/runtime/launch.c:213-218 | on any host where the source can be bound, a read-only mount with source and target of 4095 bytes each arrives writable |
| Mounts.ColonInSourceFails | src/util/mount.c:71-100 | a bind mount with a colon in its source is always refused by the shim |
| Mounts.BindRoundTrip | src/util/mount.c:71-100 | a bind mount is read back unchanged exactly when its source has no colon and its text fits, or is cut just before the mode of a writable mount |
| Mounts.TmpfsRoundTrip | src/util/mount.c:102-125 | every accepted tmpfs mount is read back unchanged |
| Mounts.ParsedTmpfsIsOk | src/util/mount.c:102-125 | an accepted tmpfs mount has a valid colon-free target and a size from 1 byte to 1 GiB |
| Mounts.MountRoundTrip | src/runtime/launch.c:213-226 | a mount of either kind is read back unchanged exactly when it is portable |
| Transport.FlagIsRead | src/runtime/shim_main.c:115-230 | the option texts are told apart by the parser's comparisons |
| Transport.UserRoundTrip | src/util/validate.c:125-153 | every user and group pair is read back from its printed form |
| Transport.PublishRoundTrip | src/runtime/shim_main.c:195-207 | every accepted publish is read back from its four printed numbers |
| Transport.IsValidEnvironment | src/util/validate.c:109-123 | the character loop accepts exactly an identifier, an equals sign and a value without line breaks |
| Transport.ParseOne | src/runtime/shim_main.c:115-230 | one turn of the argument loop finishes, refuses, or leaves the meaning of the rest unchanged |
| Transport.ParseLoop | src/runtime/shim_main.c:115-230 | the loop over the arguments computes the meaning of the whole list |
| Transport.ParseArguments | src/runtime/shim_main.c:114-244 | the loop and the checks after it give the configuration that the vector means, or none |
| Launch.RereadSetting | src/runtime/launch.c:158-230 | every setting but a mount is read back by the shim as it was printed, or refused, exactly by whether it is within the limits |
| Launch.RereadMount | src/runtime/launch.c:213-226 | a printed mount is read back as itself exactly when it is portable |
| Launch.ParseFlattened | src/runtime/shim_main.c:115-230 | printed options are taken off one by one and in order, whatever their values and the command look like |
| Launch.ParseRefused | src/runtime/shim_main.c:115-230 | one refused option refuses the whole vector |
| ShimOptions.AcceptedExactly | src/runtime/shim_main.c:231-244 | a vector of readable options is accepted exactly if id, root file system, host name, an absolute working directory, the limits and a command are there, and a ready descriptor if it is detached |
| CommandLine.ParseCommandLine | src/cli/main.c:456-640 | the argument loop and the checks after it give the configuration that the command line means, or none |
| CommandLine.IsValidName | src/util/validate.c:9-28 | the character loop accepts exactly 1 to 64 name characters that begin with a letter or digit and hold no two dots in a row |
| CommandLine.CheckProfile | src/linux/security.c:69-79 | the nested loop accepts exactly at most 128 distinct names of system calls |
| OptionText.AddressRoundTrip | src/network/parse.c:7-24 | every address is read back from its four octets |
| OptionText.PublicationRoundTrip | src/network/parse.c:7-24 | every publish is read back from its text, with host port and container port in their places |
| OptionText.BytesOfText | src/util/resource.c:25-67 | a number with any unit in any case means their product, and is refused if that is zero or over 64 bits |
| OptionText.QuotaRoundTrip | src/util/resource.c:69-115 | every quota is read back from its decimal number of CPUs |
| OptionText.LoneUser | src/util/validate.c:125-153 | a lone number is user and group |
| OptionText.TmpfsWithoutSize | src/util/mount.c:102-125 | a tmpfs mount without a size has 64 MiB |
| OptionText.TmpfsWithSize | src/util/mount.c:102-125 | with a size it has that, exactly if the target is valid and the size at most 1 GiB |
| OptionText.BindExactly | src/util/mount.c:71-100 | a bind mount with a mode is accepted exactly if its source is absolute and resolves to an allowed directory, its target is valid and its mode is ro or rw |
| CommandText.ItemIsAccepted | src/cli/main.c:456-601 | every well-formed option is taken for what it says, unless a publish overlaps an earlier one or a profile is the second |
| CommandText.CollectLine | src/cli/main.c:456-601 | a line of any options in any order has the effects of all of them, one after the other |
| CommandMeaning.CommandedExactly | src/cli/main.c:456-650 | which lines are accepted, and as which configuration, field by field: the last value of each option, all values of those that add up, defaults for those left out |
| CommandMeaning.MaskMeaning | src/cli/main.c:562-569 | a bit of the mask is set exactly if its capability was asked for |
| CommandWriter.EveryConfigurationHasALine | src/cli/main.c:456-650 | every configuration that options can express has a line that means exactly it |
| CommandLine.AcceptedIsBuildable | src/cli/main.c:456-670 | whatever is accepted meets the hypotheses of the delivery and registry theorems, before and after its address is allocated |
| CommandLine.AcceptedIsDelivered | src/cli/main.c:456-681 | an accepted configuration reaches the shim unchanged if and only if all its bind mounts are portable |
| Delivery.UpdateCapabilities | src/runtime/launch.c:206-211 | the capabilities printed for a mask rebuild exactly that mask |
| Delivery.DeliveredMounts | src/runtime/launch.c:158-272 | the shim gets the configuration that was built, with its mounts as they are read back |
| Delivery.DeliveryIsExact | src/runtime/shim_main.c:115-238 | for every configuration the command line can build, the shim gets the same one if and only if all its bind mounts are portable |
| Vector.CapabilityCount | src/runtime/launch.c:206-211 | at most 41 capabilities are printed, and 41 only if every named bit is set |
| Vector.CapacityIsExact | src/runtime/launch.c:136-146 | vector and NULL never exceed the computed number of slots, and fill it exactly for a detached, read-only container with all capabilities |
| Vector.PushCapabilities | src/runtime/launch.c:206-211 | the loop over 64 bits appends the names of the set bits in order, within the array |
| Vector.BuildVector | src/runtime/launch.c:158-272 | the array holds exactly the printed vector, then NULL, and no slot beyond its end is written |
| Stored.LoadAll | src/state/store.c:323-394 | the loading loops give all items, or nothing if one cannot be read |
| Stored.LoadUndoesSave | src/state/store.c:396-437 | a stored configuration is loaded unchanged, apart from detachment and readiness descriptor |
| Stored.RequiredMembers | src/state/store.c:396-437 | no document without one of the twelve required members, or with an empty command, is loaded |
| Stored.OptionalMembers | src/state/store.c:323-437 | the other members have defaults when they are missing |
| Stored.OptionalMembersMayBeMissing | src/state/store.c:323-437 | a document that can be loaded still can without one of these |
| Stored.BuildableIsStorable | src/state/store.c:85-173 | every configuration the command line can build fits the stored integers |
| Stored.CreateThenStartIsRun | src/cli/main.c:300-330 | `create` then `start` hand the shim the same vector, and so the same configuration, as `run --detach` |
| AtomicWrite.FileSystem.WriteAll | src/util/fs.c:77-89 | the write loop makes a step of an attempt with each call, up to all data or to giving up |
| AtomicWrite.FileSystem.WriteAtomic | src/util/fs.c:55-125 | every execution, with every outcome of every call and any write-back in between, is an attempt, which it reports as successful exactly if it ended durable |
| AtomicWrite.AttemptIsSafe | src/util/fs.c:70-125 | at every point of every attempt a power loss finds a complete content, old or new; a durable attempt has the new one; a failure before the rename leaves the directory as it was, but for a temporary file that could not be unlinked |
| AtomicWrite.AtomicExactly | src/util/fs.c:64-125 | every point of every attempt is safe if and only if the path does not have 4095 bytes or the file exists |
| AtomicWrite.CrashLeavesWhole | src/util/fs.c:55-125 | after a power loss at any point the next atomic write can start, from what was recovered |
| AtomicWrite.TemporaryDiffers | src/util/fs.c:64-69 | the temporary name always fits, and equals the path exactly when that has 4095 bytes |
| AtomicWrite.TemporariesDiffer | src/util/fs.c:64-69 | processes that write one path use different temporary names, as long as these fit |
| AtomicWrite.LongestPathIsWrittenInPlace | src/util/fs.c:64-89 | otherwise, for every proper beginning of the data, an attempt after which a power loss leaves just that |
| ImageImport.StepKeepsInv | src/image/import.c:237-269 | every call of every importer, every crash, every write-back and every power loss keep image directories marked and importers on track |
| ImageImport.NameResolvesExactly | src/image/import.c:272-325 | in every run a name resolves exactly when it is published and its directory is there, and then leads to an archive imported under that name |
| ImageImport.CompletedImportIsDurable | src/image/import.c:265-269 | in every run the name of an import that has ended well survives a power loss with the digest it has then, and resolves exactly if that digest's rename was flushed |
| ImageImport.CompletedImportStaysPublished | src/image/import.c:265-269 | in every run such a name stays published, whatever happens later |
| ImageImport.ImportEnds | src/image/import.c:237-269 | in every run an import that ends by itself has published its name, or gives up because another has published the directory |
| ImportProgress.ImportCompletes | src/image/import.c:237-269 | from every state an undisturbed import of n entries takes 2n + 8 calls and leaves its name published and flushed, a marked and complete directory, and everything else as it was |
| ImportProgress.RepeatedImportCompletes | src/image/import.c:237-269 | with a marked directory there, three calls publish the name for it |
| ImportProgress.UnmarkedDirectoryRefuses | src/image/import.c:237-243 | a directory without its marker makes the import give up, with nothing changed |
| ImportProgress.LateImportGivesUp | src/image/import.c:257-264 | an import that comes second at the rename gives up and leaves its staging directory |
| ImportProgress.WrittenBackImageSurvives | src/image/import.c:252-269 | an image whose name, files and rename have been written back survives a power loss complete |
| ImportProgress.LostRenameReappears | src/image/import.c:257-264 | a power loss that undoes a rename brings the directory back under its staging name |
| ImportProgress.UnmarkedDoesNotResolve | src/image/import.c:318-324 | a name resolves exactly to a directory that has its marker |
| ImageImport.ImageIsIncompleteExactly | src/image/import.c:252-264 | in every run an image directory lacks an entry exactly if some power loss kept the directory and not the entry |
| ImageImport.DamageIsPermanent | src/image/import.c:244-249 | in every run an incomplete image stays, marked and incomplete, whatever is imported later |
| ImageImport.PowerLossLeaves | src/image/import.c:265-269 | after a power loss a name resolves exactly if it and its directory's rename were flushed, and to a complete directory exactly if every file was, too |
| ImageImport.UnresolvedNameWasLost | src/image/import.c:292-324 | in every run a published name that does not resolve is one whose directory's rename was undone by a power loss |
| ImageImport.FlushedImageStays | src/image/import.c:258-264 | in every run a directory that has reached the medium under its final name stays there |
| ImageImport.PublishedNamesAreComplete | src/image/import.c:237-269 | as long as the power has not failed, exactly the published names resolve, each to a directory with marker and every archive entry |
| ImageImport.PublishedDirectoriesAreFinal | src/image/import.c:258-264 | between power losses no import replaces or changes an image directory |
| ImageImport.UnflushedFileEndangers | src/image/import.c:252-264 | wherever a file of a published image is not flushed, a power loss can leave its name resolving to a marked, incomplete directory, which the next import publishes again |
| ImageImport.MarkedIncompleteImageIsReachable | src/image/import.c:237-269 | a run that ends with such a name |
| Supervisor.RunKeepsInv | src/linux/container.c:564-646 | every run keeps the wakeup, conservation and workload invariants |
| Supervisor.NoExitIsLost | src/linux/container.c:616-638 | whenever PID 1 sleeps there is no unreaped child, and every child ever seen is alive or was reaped once |
| Supervisor.LoopEndsWithWorkload | src/linux/container.c:616-638 | the loop is left only after the workload itself was reaped, and waits only before that |
| Supervisor.ReportsWorkloadStatus | src/linux/container.c:629-646 | PID 1 returns the exit code, or 128 and the signal, of the last child reaped under the workload's pid, which is the workload exactly when the pid was not reused meanwhile |
| Supervisor.QuietRun | src/linux/container.c:616-646 | the run in which only the workload ends, with any exit code or signal, and what PID 1 returns for it |
| Supervisor.NoSignalIsLost | src/linux/container.c:635-637 | in every run a forwarded signal stays pending until PID 1 sends it to the workload's group |
| Supervisor.SendsNothingElse | src/linux/container.c:616-641 | in every run PID 1 otherwise sends only SIGKILL, to the group when it cannot wait and to all once the workload has been reaped |
| Supervisor.LeavingKillsAll | src/linux/container.c:639-641 | in every run PID 1 has told all processes to go before it waits for the rest |
| Supervisor.ReturnsExactly | src/linux/container.c:619-646 | in every run PID 1 returns 125 because it cannot wait, or by its loop when no child is left |
| Supervisor.SpuriousWakeup | src/linux/container.c:616-638 | a SIGCHLD without a dead child changes nothing |
| Supervisor.DeadWorkloadEndsLoop | src/linux/container.c:616-638 | once the workload is dead, whether PID 1 waits or reaps, every sequence of PID 1's own steps, in whatever order signals are handed out, is bounded, can go on until the loop ends, and ends it with the workload's status |
| Supervisor.DoomIsFinal | src/linux/container.c:616-638 | no event from outside keeps that loop from ending, short of a failing sigwaitinfo |
| Supervisor.ReusedPidOverwritesStatus | src/linux/container.c:629-634 | a run in which a reused pid replaces the workload's status |
| LogPump.SettledRetains | src/runtime/shim_main.c:50-66 | the four files hold all of the history, or a gap-free suffix of at least 3 x (2^20 - 2^14 + 1) bytes |
| LogPump.RotatingIsSound | src/runtime/shim_main.c:35-48 | after every prefix of the renames the files still are a gap-free suffix of bounded size |
| LogPump.BasisIsSound | src/runtime/shim_main.c:39-44 | so they are if the oldest file could not be unlinked |
| LogPump.Log.WriteAll | src/runtime/shim_main.c:25-33 | exactly a prefix of the chunk is appended, all of it on success |
| LogPump.Log.RotateLog | src/runtime/shim_main.c:35-48 | from any gap-free log, even one left in the middle of a rotation, a gap-free log; from a settled one, success is a complete rotation |
| LogPump.Log.Pump | src/runtime/shim_main.c:50-66 | any input keeps the log a gap-free suffix of bounded files, whatever fails and whatever failed before; on success the history has grown by exactly the input and a settled log is settled |
| Netlink.DecodeEncode | src/network/netlink.c:41-70 | for every layout of fixed structures, every nested tree within 16-bit lengths is decoded back to itself |
| Netlink.EncodeAligned | src/network/netlink.c:41-70 | encodings are whole multiples of four bytes |
| Netlink.Message.AddAttribute | src/network/netlink.c:41-53 | appends one padded attribute, or changes nothing, exactly by whether it fits |
| Netlink.Message.BeginNested | src/network/netlink.c:55-65 | opens a nest at the end, exactly if its header fits |
| Netlink.Message.EndNested | src/network/netlink.c:67-70 | patches the nest's length to reach the end of the message |
| Netlink.Message.Append | src/network/netlink.c:163-189 | building any tree, with any word-sized structures in its nests, succeeds exactly when its encoding fits, appends that encoding, and keeps the length aligned and in bounds |
| Netlink.BuildRequest | src/network/netlink.c:110-189 | a finished request decodes to the tree it was built for |
| Netlink.LinkRequestsFit | src/network/netlink.c:163-189 | the bridge and veth requests fit their buffer for every interface name |
| Netlink.VethNames | src/network/netlink.c:163-189 | the request names the host's interface itself and its peer within the data of a veth link |
| Netlink.BuildVeth | src/network/netlink.c:163-189 | the receiver decodes the finished request to that |
| Netlink.BridgeNames | src/network/netlink.c:110-130 | the bridge request names mcbr0 of kind bridge |
| Netlink.MessagesOfStream | src/network/netlink.c:85-106 | splitting received bytes by their length fields undoes joining messages |
| Netlink.AcknowledgesExactly | src/network/netlink.c:96-97 | a message is a reply exactly if its type is that of errors and its sequence number the request's |
| Netlink.FindReply | src/network/netlink.c:85-106 | the walk terminates and finds where the first acknowledgement among the whole messages begins |
| Netlink.OffsetLocatesReply | src/network/netlink.c:91-106 | the reply lies at that place, within the datagram and at a multiple of four |
| Netlink.ReadDatagram | src/network/netlink.c:85-106 | a code is reported from the four bytes behind the reply's header, and these lie inside the 8192-byte buffer unless the reply begins at byte 8176 |
| Netlink.CodeIsReadPastBuffer | src/network/netlink.c:96-102 | a datagram of 8192 bytes whose reply begins there |
| Netlink.ReplyOfStream | src/network/netlink.c:85-106 | in any stream of messages the reply is the first acknowledgement that was sent |
| Netlink.ReplyCarriesItsCode | src/network/netlink.c:96-102 | the reported error code is the reply's own exactly when the reply has at least 20 bytes |
| Netlink.BareHeaderIsAccepted | src/network/netlink.c:93-102 | a reply of 16 bytes is accepted, and its code is not its own |
| Paths.DepthIsStackHeight | src/util/validate.c:60-81 | the depth counter equals the height of the normaliser's stack throughout |
| Paths.NormaliseSucceedsIffBeneath | src/util/validate.c:60-81 | the walk succeeds exactly when no prefix leaves more directories than it entered |
| Paths.ApplyComponents | src/util/validate.c:60-81 | the character scanner computes the depth of the component list |
| Paths.JoinOfSplit | src/util/validate.c:60-81 | the components of a path hold no slash and join back to it |
| Paths.SplitOfJoin | src/util/validate.c:60-81 | they are the only such list |
| Paths.ParentOfEntry | src/util/validate.c:96-101 | the parent of a path is what is before its last slash |
| Paths.LinkStaysBeneath | src/util/validate.c:83-107 | accepts exactly when the stack normaliser over entry directory and target never pops an empty stack |
| Paths.LinkInDirectory | src/util/validate.c:83-107 | a relative target is accepted exactly if the walk through the link's directory and the target never leaves more directories than it has entered, and the directory fits the buffer |
| Paths.LinkAtTop | src/util/validate.c:83-107 | a link at the top starts at the root itself |
| Paths.AbsoluteLink | src/util/validate.c:88-95 | so does an absolute target; an empty one, or one with a backslash, is refused |
| Paths.IsSafeArchivePath | src/util/validate.c:30-51 | accepts exactly the relative paths made of proper names |
| Quota.ScannedText | src/util/resource.c:69-115 | what the digit loop has collected is the decimal that the text denotes |
| Quota.MicrosAreExact | src/util/resource.c:69-115 | the fixed-point conversion of an accepted fraction loses nothing |
| Quota.FinishDecides | src/util/resource.c:69-115 | the checks after the loop accept exactly the decimals from 0.00001 to 1024, and no product exceeds 64 bits |
| Quota.ParseCpuQuota | src/util/resource.c:69-115 | accepts exactly the decimals with at most six fractional digits in that range, and returns floor(value x 100000), within the shim's bound |

## Left out

- AtomicWrite.FileSystem.WriteAll: assumes that `write` of a nonempty buffer makes progress or fails.
- AtomicWrite.FileSystem.WriteAtomic: assumes the same of its `write` calls.
- LogPump.Log.WriteAll: assumes the same.
- LogPump.Log.Pump: one pump at a time, and an fstat that works: the shim records its container as stopped before it waits for its logger, so a quick `start` may run a second pump on the same files; a failing fstat counts as size 0. The retention bound is claimed as long as no rotation or write has failed; each retry of a rotation that fails midway drops the oldest file again.
- Mounts.BindRoundTrip: the in-place cutting of the copied option text is modelled on values, since the copy is private to the parser; so is mc_parse_bytes.
- Stored.LoadUndoesSave: JSON documents are trees, json-c's text syntax and its conversions between types are not modelled; the metadata that is never read back is omitted, and the arrays are built on values.
- Netlink.Message.Append: the message length is a field of its own instead of the first four bytes of the buffer, and the fixed headers are zero.
- ImageImport.StepKeepsInv: an archive does not change between digest and extraction, and its digest determines its entries.
- Transport.ParseArguments: numeric values are digit strings; the leading white space and signs that strtoul and sscanf accept are refused here.
- CommandLine.ParseCommandLine: the same holds of its numeric values; the image lookup, the id and the contents of a seccomp profile are parameters.
- A containers directory that cannot be listed while an address is allocated is the command's abort, without the removal that follows in the code.
- `ps` reconciles without the registry lock and is not among the lifecycle commands.
- Failures to read /proc while a process is alive, and the exit code when reconciliation races a shim's final write.
- Removal of network and ephemeral resources after reconciliation; only records are claimed to converge.
- A capability without a name would end the argument vector early; the command line never builds such a mask.
- mc_nft_remove_container, the forward rule and the text of the rules.
- Owner and mode checks of archive entries, and libarchive's own extraction rules.
- Kernel and library behaviour: clone3, mounts, pivot_root, setns, capset, libseccomp, OpenSSL, sd-bus; realpath is an oracle.
- Statistics, host information, error texts, id generation, usage text and printing.
