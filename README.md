# Lodestone instance core, modelled in Dafny

Lodestone is a backend that hosts game servers, called *instances*, for a web client.
This project models the core that creates, lists, describes and deletes Minecraft Java
instances, and the pieces of a Minecraft instance those operations rely on:

- its flavour (vanilla, Fabric, Paper, Spigot, Forge) and the name of the server jar it downloads;
- the persisted restore configuration derived from a setup configuration, with its defaults;
- the provisioning sequence: directories, runtime, jar, Forge installer, config file;
- the per-instance backup task: a loop over instructions and one-second ticks that takes
  scheduled backups while the server is running;
- the `server.properties` buffer, its `key=value` file format, and sending commands over rcon;
- the error-to-HTTP-status mapping, the error text and the instance summary (`InstanceInfo`);
- the game types offered to clients and what they convert to.

Modules and files:

| file | module | contents |
|---|---|---|
| `wrappers.dfy` | `Wrappers` | `Option`, `Result`, and Rust's `.ok()` / `unwrap_or` |
| `types.dfy` | `Types`, `Cells` | bounded integer types, lifecycle `ServerState`, instance identifiers, the shared lifecycle cell |
| `traits.dfy` | `Traits` | error kinds, HTTP status, `Display`, `InstanceInfo` projection |
| `setup_configs.dfy` | `SetupConfigs` | handler game types and their conversions |
| `backup.dfy` | `Backup` | the backup task: a step function, a replay over event sequences, and the task as a class |
| `minecraft.dfy` | `Minecraft` | flavours, restore config, provisioning, the properties format, the instance as a class |
| `instances.dfy` | `Instances` | the instance registry and the HTTP handlers that change or read it |

State that the source changes in place is modelled as classes:

- the backup task (`Backup.BackupTask`);
- the Minecraft instance (`Minecraft.MinecraftInstance`);
- the shared lifecycle cell (`Cells.StateCell`);
- the registry of instances and allocated ports (`Instances.Registry`).

The effects of file-system operations and event broadcasts are recorded in a ghost `trace`. Their order is part of each contract.

Outcomes that come from outside the program are parameters of the member that meets them:
- whether a file write succeeds;
- what a download lookup returns;
- the clock;
- the reply of an rcon connection;
- the iteration order of a `HashMap`.

## Model

| member | source | states |
|---|---|---|
| `Traits.StatusCode` | src/traits/mod.rs:118-130 | malformed request is 400, permission denied 403, unauthorized 401, both not-found kinds 404, and every other kind exactly 500 (each as an if-and-only-if) |
| `Traits.Display` | src/traits/mod.rs:110-114 | the text is the prefix `Error: ` followed by the detail, nothing else |
| `Traits.DisplayRoundTrip` | src/traits/mod.rs:110-114 | the detail can be read back from the displayed text |
| `Traits.GetInstanceInfo` | src/traits/mod.rs:169-189 | each fallible getter's field is absent exactly when the getter failed and otherwise carries its value; a failing backup-period getter yields no period; every other field is copied |
| `Traits.BackupPeriodErrorLooksUnset` | src/traits/mod.rs:184 | a failing backup-period getter gives the same summary as an instance with no backup period |
| `SetupConfigs.ToGameType` | src/handlers/instance_setup_configs.rs:28-37 | every handler game type is a Minecraft Java game |
| `SetupConfigs.ToFlavourKind` | src/handlers/instance_setup_configs.rs:39-48 | each handler game type maps to its own flavour kind, in both directions |
| `SetupConfigs.FlavourKindBijective` | src/handlers/instance_setup_configs.rs:39-48 | every flavour kind comes from exactly one handler game type |
| `SetupConfigs.CreateHandlerFlavour` | src/handlers/instance.rs:89-94 | the create handler's inline choice of flavour agrees with the `From` conversion |
| `SetupConfigs.AvailableGames` | src/handlers/instance_setup_configs.rs:50-57 | four game types are offered, every game type is among them, none twice |
| `Minecraft.FlavourName` | src/implementations/minecraft/mod.rs:84-94 | each flavour's name, as an if-and-only-if per variant, whatever its build fields |
| `Minecraft.FlavourNameByVariant` | src/implementations/minecraft/mod.rs:84-94 | two flavours have the same name exactly when they are the same variant |
| `Minecraft.JarName` | src/implementations/minecraft/mod.rs:314-317 | the jar is `forge-installer.jar` exactly for a Forge build, `server.jar` otherwise |
| `Minecraft.DeriveRestoreConfig` | src/implementations/minecraft/mod.rs:437-455 | every field of the restore config: identity fields copied, the resolved flavour, defaults of empty description, no arguments, 2048/4096 MB, no auto-start, no restart-on-crash, the clock as creation time, never started |
| `Minecraft.DeriveFromExplicit` | src/implementations/minecraft/mod.rs:437-455 | a setup that states every field explicitly derives back the same restore config |
| `Minecraft.DeriveIdempotent` | src/implementations/minecraft/mod.rs:437-455 | deriving from the explicit form of a derived config gives the same config again |
| `Minecraft.Provision` | src/implementations/minecraft/mod.rs:181-467 | provisioning succeeds exactly when every step succeeded, and then yields the derived config and the jar name; otherwise the error is that of the first failing step, one ensures per step: files, runtime lookup, runtime download, an archive that does not unpack to exactly one entry, moving the runtime into place, a missing jar (reported with the flavour's name and version), jar download, Forge installer, JVM argument file, config file |
| `Minecraft.DecimalRoundTrip` | src/implementations/minecraft/mod.rs:209 | the port written into a fresh properties file is a canonical decimal that reads back as the port |
| `Minecraft.ParseLastLine` | src/implementations/minecraft/mod.rs:209 | a single `key=value` line without a final newline reads back as that one entry |
| `Minecraft.ParseInitialProperties` | src/implementations/minecraft/mod.rs:482-486 | the properties file created for an instance reads back as the single `server-port` entry whose value is the port |
| `Minecraft.ParseSerialize` | src/implementations/minecraft/mod.rs:686-690 | text made of `key=value` lines parses back into the same entries when keys contain no `=` and neither keys nor values contain a newline |
| `Minecraft.WriteThenRead` | src/implementations/minecraft/mod.rs:665-699 | writing the buffer and reading the file back gives the same buffer |
| `Minecraft.SettingString` | src/implementations/minecraft/mod.rs:686-690 | the loop builds exactly the serialisation of the buffer's entries in iteration order |
| `Minecraft.MinecraftInstance.Restore` | src/implementations/minecraft/mod.rs:471-649 | the restored instance as the source wires it: a Stopped state cell, a backup task spawned with the configured period, a properties file created when missing, and a buffer holding what reading it yields; the backup task holds a different cell from the instance |
| `Minecraft.MinecraftInstance.RestoreSharingState` | src/implementations/minecraft/mod.rs:487-497 | the same, with the instance and its backup task sharing one lifecycle cell |
| `Minecraft.MinecraftInstance.ReadProperties` | src/implementations/minecraft/mod.rs:665-676 | a failed read leaves the buffer unchanged; a successful one replaces it, and the call succeeds exactly when every entry converts into a setting |
| `Minecraft.MinecraftInstance.WritePropertiesToFile` | src/implementations/minecraft/mod.rs:678-699 | succeeds exactly when the file opens and the write succeeds; the file then holds the serialised buffer; a failed open leaves the file as it was; a failed write leaves it truncated |
| `Minecraft.MinecraftInstance.SendRcon` | src/implementations/minecraft/mod.rs:701-715 | without a connection the call fails with the not-initialized error and nothing is sent; with one, the command is sent and the reply or the send error is returned |
| `Minecraft.TickAfterStartAsWritten` | src/implementations/minecraft/mod.rs:487-497 | with the task's separate cell, a due tick after the server starts takes no backup |
| `Minecraft.TickAfterStartShared` | src/implementations/minecraft/mod.rs:553-565 | with a shared cell, the same tick takes one backup |
| `Minecraft.ServeWhileRunningShared` | src/implementations/minecraft/mod.rs:524-566 | with a shared cell, a running server and a period p, q·p ticks take exactly q backups |
| `Backup.Next` | src/implementations/minecraft/mod.rs:526-566 | one event takes at most one backup and keeps the counter inside `u32` |
| `Backup.Replay` | src/implementations/minecraft/mod.rs:526-566 | a run of events takes at most one backup per event and keeps the counter inside `u32` |
| `Backup.TickRule` | src/implementations/minecraft/mod.rs:554-564 | a tick counts only while a period is set and the server is Running, and fires and resets the counter once the count reaches the period |
| `Backup.SetPeriodRule` | src/implementations/minecraft/mod.rs:535-537 | a new period replaces the old one and leaves the counter alone |
| `Backup.BackupNowRule` | src/implementations/minecraft/mod.rs:538 | a backup request outside a pause takes exactly one backup and changes nothing else |
| `Backup.StrayResumeRule` | src/implementations/minecraft/mod.rs:549-551 | a Resume outside a pause does nothing |
| `Backup.ClosedQueueRule` | src/implementations/minecraft/mod.rs:528-532 | a closed queue outside a pause ends the task |
| `Backup.EndedIsFinal` | src/implementations/minecraft/mod.rs:528-532 | once ended, the task takes no more backups and nothing changes |
| `Backup.PausedSwallows` | src/implementations/minecraft/mod.rs:539-548 | while paused, every event other than Resume is dropped: no backups, ticks not counted, requests and period changes lost |
| `Backup.PauseWindowIsNoop` | src/implementations/minecraft/mod.rs:539-551 | Pause, any events without a Resume, then Resume leaves the task exactly as before and takes no backup |
| `Backup.ClosedWhilePausedNeverEnds` | src/implementations/minecraft/mod.rs:540-546 | a queue that closes during a pause never ends the task, however often it is polled |
| `Backup.TicksBelowPeriod` | src/implementations/minecraft/mod.rs:554-563 | ticks that do not reach the period only advance the counter |
| `Backup.TicksReachPeriod` | src/implementations/minecraft/mod.rs:554-563 | the ticks that reach the period take exactly one scheduled backup and reset the counter |
| `Backup.PeriodicBackups` | src/implementations/minecraft/mod.rs:554-563 | q periods of ticks while Running take exactly q scheduled backups and return to a zero counter |
| `Backup.BackupTask.constructor` | src/implementations/minecraft/mod.rs:524-525 | the task starts with the configured period, a zero counter, no pause and no backups |
| `Backup.BackupTask.Step` | src/implementations/minecraft/mod.rs:526-566 | the task's new variables are `Next` of the old ones and the state it reads from its cell; the backups it takes are appended to its log |
| `Backup.BackupTask.Serve` | src/implementations/minecraft/mod.rs:526-567 | serving a run of events leaves the task where `Replay` says it is and logs exactly `Replay`'s backups |
| `Instances.CandidateAfter` | src/handlers/instance.rs:77-85 | the single pass never moves to a later identifier than the number of keys visited allows |
| `Instances.SinglePassChecksOnlyLaterKeys` | src/handlers/instance.rs:77-85 | the identifier the single pass ends on has been compared only with the keys visited after it was drawn |
| `Instances.PickUuidSinglePass` | src/handlers/instance.rs:77-85 | the loop as written: one pass over the keys, redrawing on each clash |
| `Instances.SinglePassCanReturnClash` | src/handlers/instance.rs:77-85 | a concrete registry and draw sequence for which the single pass returns an identifier whose first eight characters match a registered key |
| `Instances.PickUuid` | src/handlers/instance.rs:77-85 | redrawing until no key clashes returns the first drawn identifier that clashes with no registered key |
| `Instances.UnclaimedDirsDistinct` | src/handlers/instance.rs:77-104 | when registered keys carry no prefix, an identifier no key clashes with gets a directory name different from every registered instance's directory name, whatever the instance names |
| `Instances.SetupDirName` | src/handlers/instance.rs:98-104 | the directory name is the instance name, a dash, and the identifier's first eight characters |
| `Instances.SetupDirNameInjective` | src/handlers/instance.rs:98-104 | equal directory names mean equal instance names and equal identifier heads |
| `Instances.VisibleMembers` | src/handlers/instance.rs:39-43 | an instance is listed exactly when it is registered, visited and viewable by the requester |
| `Instances.Registry.BeginCreate` | src/handlers/instance.rs:68-119 | an unauthenticated request is Unauthorized and an unpermitted one Forbidden, both with no effect; the identifier is the one the single pass over the registered keys ends on, and it clashes with none of the keys visited after its last redraw (it may clash with an earlier one); the directory for that identifier is created, then its dot-config written; success exactly when both succeed; the registry itself is unchanged |
| `Instances.Registry.FinishCreate` | src/handlers/instance.rs:121-209 | on success the port is allocated and then the instance registered as Stopped, after a successful End event; on failure a failed End event is followed by directory removal, nothing is registered, and a failed removal is a panic; registering a new instance on a port nobody owns keeps a port allocated exactly when one registered instance owns it |
| `Instances.Registry.Delete` | src/handlers/instance.rs:279-388 | unauthenticated, forbidden, unknown and not-Stopped requests are refused with no effect; a failed config removal aborts with nothing deleted; otherwise the port is released, the instance unregistered and the directory removed in that order, and the result reflects only the directory removal; a port stays allocated exactly when one registered instance owns it |
| `Instances.Registry.Info` | src/handlers/instance.rs:50-66 | an unauthenticated request is Unauthorized; otherwise an unknown identifier is Not Found before view permission is checked; a known one is Forbidden without view permission, otherwise its record |
| `Instances.Registry.InstanceList` | src/handlers/instance.rs:31-48 | for an iteration order that visits every registered key once, the result is sorted by creation time, is a permutation of the visited viewable entries, and holds an entry exactly when it is a registered, viewable instance with its record |
| `Instances.RegisterKeepsPortsOwned` | src/handlers/instance.rs:202-208 | allocating a port nobody owns and registering a new instance on it keeps "a port is allocated exactly when one registered instance owns it" |
| `Instances.UnregisterKeepsPortsOwned` | src/handlers/instance.rs:337-343 | releasing an instance's port and unregistering it keeps the same invariant |
| `Instances.SortByCreation` | src/handlers/instance.rs:45 | sorts the array in place by creation time, as a permutation of its contents |

## Left out

- Progress events: the fractional progress values, the messages and the payloads are not modelled. Only the start and end events, their ids and their success flags appear in the trace.
- Broadcast failures are not modelled. Sending an event cannot fail in the model.
- Concurrency in the backup task: the race between the instruction queue and the one-second sleep is not modelled. Each event is one step. `Backup.BackupTask.Serve` holds the lifecycle state fixed for the whole run.
- Concurrency across handlers: lock ordering and requests interleaving are not modelled. `Instances.Registry.BeginCreate` and `Instances.Registry.FinishCreate` are two separate calls, and other requests may run between them in the source.
- The backup copy itself is a single `Cause` in the task's log. The copy into `worlds/backup` and its error logging are not modelled.
- Downloads, unzipping, renaming, the Forge installer process and the clock are outcomes passed in through `ProvisionIo`. Provisioning failures are not chained with context messages.
- `ProvisionIo.jreDownloaded` stands for the download and the extraction together. `ProvisionIo.jreMovedIntoPlace` stands for removing the archive and renaming the entry together.
- The configurable manifest (command-line and server-property sections, mod.rs:571-617) is not modelled. The conversion of each property into a setting in `read_properties` is one flag, `settingsAccepted`.
- Setting a property whose conversion failed is not modelled. The source sets the entries before the failing one in the manifest; the model keeps only the replaced buffer.
- `read_properties_from_path` is not part of this model. `Minecraft.Parse` is the model's own reading of the `key=value` format, and it serves as the reference that the writer round-trips against.
- Comment lines and blank lines in a properties file are not modelled.
- Restore's own failures are not modelled. Creating the properties file and reading it back use `.expect` in the source, so a failure there panics; the model takes what is on disk and what the read yields as inputs.
- `write_config_to_file` and the JSON serialisation of `RestoreConfig` and `InstanceInfo` are not modelled.
- The rcon network protocol and establishing the connection are not modelled. The connection's reply is an input.
- `construct_setup_config` is not part of this model. The setup config arrives already built.
- `create_generic_instance` and the generic implementation are not modelled; this project covers Minecraft Java only. Neither are `get_setup_manifest`, `get_generic_setup_manifest`, `validate_section`, the route tables, `dependency_manager.rs` and the Bedrock implementation.
- Authentication and authorisation are booleans: the token check answers Unauthorized and the permission check Forbidden in `Instances.Registry.BeginCreate`, `Instances.Registry.Delete` and `Instances.Registry.Info`. `Instances.Registry.InstanceList` does not model the token check that can reject the whole request, and the requester's view rights are a set.
- The port manager is not part of this model. Ports are a set; allocating adds to it and deallocating removes from it.
- `src/types.rs` is not part of this model. An identifier is modelled as a prefix and a body, and the eight-character check reads both through Rust's byte-range slicing, on text assumed to be ASCII.
- `Instances.UnclaimedDirsDistinct`: distinct directory names are proved only for keys without a prefix. The check at instance.rs:80-81 compares the key's full string form with the candidate's prefix-free form. If the string form carried a shared prefix of eight or more characters, the check would never match, and nothing would keep two directory heads apart.
- Paths are strings joined with `/`.
- A partially written file is not modelled. A failed write leaves the properties file truncated to empty.
- In these places the model follows the code rather than the evident intent:
  - a backup request during a pause is dropped, not taken;
  - closing the queue during a pause does not end the task (`Backup.ClosedWhilePausedNeverEnds`);
  - a failed directory removal after a failed creation panics the spawned task (the `CleanupPanicked` outcome of `Instances.Registry.FinishCreate`) instead of being logged.
- The handler file and `minecraft/mod.rs` are from different revisions. `MinecraftInstance::new` is called with more arguments (instance.rs:153-160) than mod.rs:175-180 declares. The model follows mod.rs for provisioning and instance.rs for the handler.
- `Instances.CandidateAfter`: states only an upper bound on how far the single pass moves through the draws. The full behaviour of the pass is stated by `Instances.SinglePassChecksOnlyLaterKeys`.

## Findings

| source | as written | input that shows it | evidently intended | confidence | as-written member | corrected member |
|---|---|---|---|---|---|---|
| src/handlers/instance.rs:77-85 | after a clash the identifier is redrawn but compared only with the keys not yet visited | registered keys `aaaaaaaa-k1` then `bbbbbbbb-k2`; draws `bbbbbbbb-c0`, `aaaaaaaa-c1`, `cccccccc-c2`: the first draw clashes with the second key, the redraw `aaaaaaaa-c1` is never compared with the first key and is returned. The input assumes the key's string form carries no prefix; with a shared prefix of eight or more characters the check never fires at all | redraw until the identifier clashes with no registered key, so directory names stay distinct (`Instances.UnclaimedDirsDistinct`) | medium (depends on the identifier's string form, which is not part of this model); not executed | `Instances.SinglePassCanReturnClash` | `Instances.PickUuid` |
| src/implementations/minecraft/mod.rs:487-497 | the backup task is given a lifecycle cell created at line 487, while the instance is built with a fresh cell at line 620, so the task never sees the server running | backup period 1, the instance started (its cell set to Running), one tick: no backup is taken | the task reads the instance's own cell, so scheduled backups happen while the server runs | high; not executed | `Minecraft.TickAfterStartAsWritten` | `Minecraft.ServeWhileRunningShared` |
