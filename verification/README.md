# Verified models of the daemon's state machines

fungi is a peer-to-peer service daemon. Around its networking sit several state machines whose
correctness is not evident from any one function: local accesses to remote services that are attached,
restored, forgotten and detached concurrently; a migration of the fungi directory that must not lose
data; a snapshot cache fenced by epochs; a service store kept in memory and on disk; a sampler that
learns addresses; the stream handler and registry; a log frame parser. The modules here model them and
prove what they are for.

`dafny verify dfyconfig.toml` checks the whole project.

| file | models |
|---|---|
| `wrappers.dfy`, `widths.dfy`, `text.dfy`, `sorting.dfy` | Option and Result, integer widths, string order and trimming, stable sorting |
| `local_preferences.dfy` | the saved list of local service preferences |
| `forwarding.dfy` | forwarding rules, their ids and the table of active ones |
| `service_accesses.dfy` | attach, detach, forget and restore, one call at a time, in place |
| `access_plan.dfy`, `access_protocol.dfy` | the same calls as concurrent processes, one critical section a step |
| `access_safety.dfy`, `access_convergence.dfy` | what every interleaving keeps, and where detach and forget end up |
| `access_history.dfy`, `access_stale_list.dfy`, `access_sweeps.dfy` | the saved list and the rules of an attach over whole runs, a run in which a stale list takes a rule, and which rules the removals under way take |
| `file_tree.dfy` | a file system whose calls may fail, with a trace of every state it goes through |
| `migration_apply.dfy` | putting staged paths in place, with rollback |
| `fs_paths.dfy`, `migration_config.dfy`, `migration_files.dfy`, `migration_access.dfy` | lexical paths, the rewrite of `config.toml`, and the merges of trusted devices, address book and local preferences |
| `migration_services.dfy` | moving legacy services to the current layout |
| `migration_services_reach.dfy`, `migration_services_data.dfy` | how far that step reaches, and where the files of the services are afterwards |
| `migration_plan.dfy` | what a migration will touch |
| `migration_staging.dfy`, `migration_rewrite.dfy`, `migration.dfy` | backup and staged copies, the rewriting steps, and the whole transaction |
| `migration_result.dfy` | what a finished migration has made of a directory, by the names of its files |
| `snapshots.dfy` | the epoch-guarded cache of device service snapshots |
| `service_state.dfy` | the managed service store |
| `keyed_lists.dfy`, `direct_addresses.dfy` | lists with keys, the direct address cache and its sampler |
| `log_frames.dfy` | Docker's multiplexed log frames |
| `stream_handler.dfy`, `stream_policy.dfy`, `stream_registry.dfy` | outbound stream requests; the allow lists; inbound upgrades, listeners and bounded queues |

## What the model assumes

- Each use of the rule table, of the detached marks, of the preference file or of the epoch map is one
  atomic step, as the locks of the source make it. A preference file is stored whole or not at all.
- The rule table follows `tcp_tunneling_control.rs`: ids are built from the rule, adding fails for an id
  in use, removing fails for a missing one, and a rule that was accepted once is accepted again.
- TOML, YAML and JSON texts are identified with the values they parse to; a text that does not parse is
  a value of its own. Timestamps, ULIDs, free ports and the outcomes of input and output are inputs or
  arbitrary choices. Each file system call that fails leaves what its contract says, and is counted.
- A `rename` is all or nothing; `create_dir_all` of a directory that exists succeeds; there are no
  symbolic links.
- A bounded channel of capacity 8 with one sender holds 9 messages.

## Findings

- Detaching a service stays effective beside restores that are under way: each rule that is still active
  when it returns belongs to a restore that has yet to test the mark and take it back. A forget needs no
  such exception, because it holds the lock and removes the saved record.
- An iteration of attach that fails leaves no trace, unless the service is marked detached, a rule served
  the entry, the plan was accepted and the rule did not match it: just then that rule is lost
  (`ServiceAccesses.ServiceAccesses.AttachEndpoint`; at one input,
  `ServiceAccesses.ServiceAccesses.RefusedReplacementLosesTheRule`).
- A detach removes rules by the ids it listed before, and an id says nothing of the service. A detach of one
  service can so remove the rule that an attach of another has just returned Ok for
  (`AccessStaleList.StaleListTakesTheRule`). An attach returns Ok with its rules as promised if no detach
  that runs beside it has listed an id of one of them (`AccessHistory.AttachHasItsRules`). At any moment of
  any run the removals under way, in whatever order they go on, take a rule if and only if one of them has
  its id on its list and that id and all ids before it are active: the first that is not ends a removal
  (`AccessSweeps.SweepsTakeIff`, for one removal alone `AccessSweeps.AloneTakesIff`). So what an attach has
  attached stays attached if and only if none of them gets to one of its rules
  (`AccessSweeps.AttachedStaysIff`).
- `version` in `config.toml` is cut to 32 bits on detection, so 2^32 + 3 is taken for 3
  (`MigrationConfig.DetectedAsCurrent`); and an empty `allowed_host_paths` is dropped by the rewrite
  although it never causes one (`MigrationConfig.CurrentChangesNothing`).
- A migration that reports an error may be complete: it is applied and yet an error if and only if the last
  call, the removal of the staging directory, is what failed (`Migration.MigrateWithPlan`). The directory
  is then as current as after a success, whatever is left of the staging one
  (`Migration.CurrentWithoutStaging`, `Migration.ErrorThoughCurrent`), and the next run finds nothing to do.
- The migration takes the keys and component paths in `services-state.json` as they are. A service that
  succeeds changes nothing outside the staging directory if and only if neither the old directory it finds
  nor its component lies outside (`MigrationServicesReach.EscapeIff`). A service that is refused, no call
  having failed, changes nothing outside if and only if it is refused by its name or because its new place
  is taken, before anything moves, or neither lies outside (`MigrationServicesReach.GivenUpEscapeIff`).
  The step as a whole changes nothing outside, when it is done, if and only if no service escapes
  (`MigrationServicesReach.DoneEscapeIff`), and, when it ends in a refused service, if and only if no
  service before it does and it carries nothing out itself (`MigrationServicesReach.RefusedRunEscapeIff`).
  With a key such as `../../config.toml` the live configuration is moved into the staging directory before
  the service is refused (`MigrationServicesReach.LiveEntryIsCarriedOff`). What is promised of a whole
  migration below therefore takes tame names in that file: keys and component paths made of names only.
- A legacy service keeps all its files if and only if no earlier one carries any of them off: the directory
  of the other is its own or above it, or lies inside it (`MigrationServicesData.KeptIff`). Of services `a`
  and `a/b` the second one loses its files to the first
  (`MigrationServicesData.NestedServiceLosesItsFiles`).
- A service loaded from a directory whose name is not trimmed, such as `" svc"`, is saved into a second
  directory, and the store no longer loads (`ServiceState.SaveReloads`,
  `ServiceState.SpacedDirectoryDoesNotReload`).
- A crash between the two writes of `save_service` makes loading fail exactly when an unusable `state.json`
  without a manifest had been left in that directory (`ServiceState.CrashAfterManifest`,
  `ServiceState.DamagedStateBreaksTheStore`).
- When saving the direct address cache fails, the success is lost for good: the pair already counts as
  synced (`DirectAddresses.SavedEdgesAreEdges`).
- An inbound stream is authorized against the listener it finds at its upgrade and delivered to whatever
  listener there is when it arrives: to the same one if and only if none was registered for its protocol in
  between (`StreamRegistry.QueuedWithItsListener`, `StreamRegistry.ReplacedListenerGetsTheStream`;
  a whole run, from the first registration on: `StreamRegistry.ReplacedInARun`).

## Model

| member | source | states |
|---|---|---|
| LocalPreferences.FindRecord | crates/config/src/local_preferences.rs:90-103 | finds the first record with the identity, or none |
| LocalPreferences.WithUpsertedRecord | crates/config/src/local_preferences.rs:112-133 | fails exactly for an invalid record or a port that another identity has on the host; otherwise the list overwritten in place or extended, then sorted |
| LocalPreferences.UpsertMembers | crates/config/src/local_preferences.rs:112-133 | afterwards the list holds the new record and every record of another identity, and nothing else |
| LocalPreferences.UpsertKeepsWellFormed | crates/config/src/local_preferences.rs:112-178 | identities and ports stay unique, records valid, the list sorted |
| LocalPreferences.UpsertThenFind | crates/config/src/local_preferences.rs:90-133 | the new record is found again, every other identity as before |
| LocalPreferences.WithoutServiceFind | crates/config/src/local_preferences.rs:135-147 | removal of a service's records: those are gone, all others are found as before |
| LocalPreferences.WithoutDeviceFind | crates/config/src/local_preferences.rs:149-156 | the same for a device |
| LocalPreferences.DropKeepsWellFormed | crates/config/src/local_preferences.rs:135-156 | a removal keeps the list well-formed, its order included |
| LocalPreferences.EveryRunIsWellFormed | crates/config/src/local_preferences.rs:105-178 | every run of upserts and removals stays well-formed |
| LocalPreferences.WellFormedFields | crates/config/src/local_preferences.rs:158-203 | what well-formed means: distinct identities, distinct addresses, no blank field or zero port, sorted by peer, service and entry |
| LocalPreferences.WellFormedIsCanonical | crates/config/src/local_preferences.rs:166-178 | two well-formed lists with the same records are the same list |
| Forwarding.FindActiveIsListed | crates/daemon/src/service_accesses.rs:666-680 | the rule found is one of the listing that serves the identity, and none is found only if none serves it |
| Forwarding.RuleIdSeparatesPorts | crates/daemon/src/controls/tcp_tunneling/tcp_tunneling_control.rs:235-256 | two rules on one address with the same id have the same port |
| Forwarding.RuleIdTells | crates/daemon/src/controls/tcp_tunneling/tcp_tunneling_control.rs:235-291 | rules of one peer on one address have the same id if and only if they have the same port and protocols that differ only where both have characters that are made underscores |
| Forwarding.TcpTunneling.Add | crates/daemon/src/controls/tcp_tunneling/tcp_tunneling_control.rs:67-119 | the rule becomes active under its id, unless the id is taken, the rule does not parse or it has no target; then nothing changes |
| Forwarding.TcpTunneling.Remove | crates/daemon/src/controls/tcp_tunneling/tcp_tunneling_control.rs:121-133 | removes a present id and fails for a missing one |
| ServiceAccesses.ServiceAccesses.RestoreRuleIfAttached | crates/daemon/src/service_accesses.rs:519-542 | puts a rule back exactly when its service is not marked detached and it can be added; one that cannot is let go |
| ServiceAccesses.ServiceAccesses.AttachEndpoint | crates/daemon/src/service_accesses.rs:109-213 | one iteration of attach: the operating system is asked for a port if none is wanted or saved, and whether the port can be bound if the rule does not have it and no other entry does, and nothing else; the plan follows from those answers; on success one rule on the planned port, which is the wanted or the saved one if there is one, else the one offered, saved as chosen automatically; on failure the list is as before, and the rules are if and only if the service is not marked, nothing served the entry, the plan was refused or the rule matched it, else the rule of the entry is lost; if the system and the file refuse nothing it fails if and only if the port is another entry's, the record is not valid or the rule cannot start |
| ServiceAccesses.ServiceAccesses.RefusedReplacementLosesTheRule | crates/daemon/src/service_accesses.rs:166-185 | at one input: a marked service with a working rule is attached on the same port with a protocol that does not parse, the attach fails and no rule is left |
| ServiceAccesses.ServiceAccesses.Install | crates/daemon/src/service_accesses.rs:166-205 | remove, add, save: the new rule and the record are both in place, or neither, and then the displaced rule is back unless the service is marked |
| ServiceAccesses.ServiceAccesses.Attach | crates/daemon/src/service_accesses.rs:64-222 | the endpoints taken are those of the service with the given name, or all of them, in order and as often as they are listed; success leaves for each of them exactly one rule, on its saved port, with its protocol, returns them, and clears the mark; other identities keep rules and records; failure stops after a prefix; unless the system or the file refuses something it fails only for no endpoint of that name, one port for several endpoints, or an endpoint that is turned down, for one of the reasons of `TurnedDown` |
| ServiceAccesses.WhatIsSelected | crates/daemon/src/service_accesses.rs:93-102 | the endpoints selected are those at the places where the name is the one asked for, or all, in order |
| ServiceAccesses.TurnAdvances | crates/daemon/src/service_accesses.rs:109-213 | an iteration keeps what the earlier ones achieved |
| ServiceAccesses.ServiceAccesses.RemoveMatchingRules | crates/daemon/src/service_accesses.rs:548-564 | removes every rule whose peer is the one given and, if a service is named, whose service is that one; every other rule stays as it is |
| ServiceAccesses.ServiceAccesses.Detach | crates/daemon/src/service_accesses.rs:224-232 | marks the service and removes every rule of that peer and service; every other rule and all records stay |
| ServiceAccesses.ServiceAccesses.ForgetService | crates/daemon/src/service_accesses.rs:234-246 | marks the service, removes every rule of that peer and service and then its records; records stay exactly if the file cannot be read or written |
| ServiceAccesses.ServiceAccesses.ForgetDevice | crates/daemon/src/service_accesses.rs:248-265 | marks exactly the services of the device that have a record, removes every rule of that peer, whatever its service, and its records, and nothing of another peer; a file that cannot be read changes nothing, one that cannot be written only keeps the records |
| ServiceAccesses.ServiceAccesses.RestoreCurrentRecord | crates/daemon/src/service_accesses.rs:415-450 | acts on the record as saved now, on no marked service, and leaves one rule that serves it; a failure changes no rule |
| ServiceAccesses.ServiceAccesses.RestoreForwardingRecord | crates/daemon/src/service_accesses.rs:452-498 | one rule for the record, or everything as it was, and the latter only if the new rule cannot start |
| AccessSafety.InvStep | crates/daemon/src/service_accesses.rs:82-265 | every step of every call keeps the invariant, beside unlocked detaches |
| AccessSafety.NeverTwoListeners | crates/daemon/src/service_accesses.rs:85-222 | in every interleaving no two active rules have the same peer, service and entry |
| AccessSafety.SavedListStaysWellFormed | crates/daemon/src/service_accesses.rs:141-265 | in every interleaving the saved records have distinct identities and distinct addresses, complete and in order |
| AccessHistory.SavedListIsTheEdits | crates/daemon/src/service_accesses.rs:141-265 | in every interleaving the saved list is the first one with the successful saves and erasures applied in order, though calls work on copies |
| AccessHistory.AttachHasItsRules | crates/daemon/src/service_accesses.rs:64-222 | an attach that returns Ok leaves each endpoint exactly one rule, on its saved port and with its protocol, and no mark, whatever runs beside it, if no detach listed a rule of its service while it held the lock |
| AccessStaleList.StaleListTakesTheRule | crates/daemon/src/service_accesses.rs:548-564 | a reachable state where such an attach has returned and a detach of another service takes its rule in the next step |
| AccessSweeps.ListsAlwaysNameOnce | crates/daemon/src/service_accesses.rs:548-564 | in every reachable state the ids a removal has still to go through are distinct |
| AccessSweeps.SweepsAreSteps | crates/daemon/src/service_accesses.rs:548-564 | the removals under way may go on in any order: what they come to is reachable |
| AccessSweeps.AloneTakesIff | crates/daemon/src/service_accesses.rs:548-564 | a removal under way, alone, removes a rule if and only if its id is on the list and it and all ids before it are active |
| AccessSweeps.SweepsTakeIff | crates/daemon/src/service_accesses.rs:548-564 | any number of them, in any order, remove a rule if and only if one of them would alone |
| AccessSweeps.AttachedStaysIff | crates/daemon/src/service_accesses.rs:64-232 | in every run, what an attach has attached stays attached whatever order the removals under way go on in, if and only if none of them gets to one of its rules |
| AccessConvergence.StepIsQuiet | crates/daemon/src/service_accesses.rs:415-542 | for a marked service with no attach under way, a step adds a rule only if the same call goes on to test the mark |
| AccessConvergence.DetachLeavesOnlyOwedRules | crates/daemon/src/service_accesses.rs:224-232 | after a detach or forget returned Ok, with no attach of the service under way since, each active rule of it is one whose adder still owes its removal |
| AccessConvergence.DetachConverges | crates/daemon/src/service_accesses.rs:224-246 | once no restore of the service is in flight either, no rule of it is active |
| AccessConvergence.ForgetConverges | crates/daemon/src/service_accesses.rs:234-265 | when a forget has returned, no attach of its scope having held the lock since it began, no active rule and no record of the peer, or of the peer and service, is left |
| FileTree.FileSystem.Rename | crates/config-migrate/src/apply.rs:318-325 | moves the whole subtree, or fails and changes nothing; it fails for paths inside one another, a missing source or parent, or a target in the way |
| FileTree.FileSystem.RemoveIfExists | crates/config-migrate/src/apply.rs:386-407 | removes the subtree; a failure may leave part of it and touches nothing else |
| FileTree.FileSystem.CopyTree | crates/config-migrate/src/apply.rs:247-300 | the copy holds what the original holds; in every state on the way nothing changes elsewhere but for new parents |
| MigrationApply.ApplyOneStagedPath | crates/config-migrate/src/apply.rs:302-347 | without a failure the staged subtree is live and the live one set aside; a single failure leaves the path as it was |
| MigrationApply.RollbackAppliedPaths | crates/config-migrate/src/apply.rs:349-372 | undoing every applied path gives back every original |
| MigrationApply.ApplyStagedPaths | crates/config-migrate/src/apply.rs:214-245 | succeeds exactly when no call fails, with live equal to staged at each path; after a single failure all live subtrees are the originals; at every step nothing outside changes and each original is whole, live or in the rollback directory |
| MigrationApply.ParentOutlives | crates/config-migrate/src/apply.rs:327-331 | next to a path that was live the parent directory is still there, so taking it back cannot fail for want of one |
| FsPaths.NormalizeFsPath | crates/config-migrate/src/model.rs:114-128 | the loop computes where walking the components leads |
| FsPaths.DotsCancel | crates/config-migrate/src/model.rs:114-128 | `.` never matters, a name followed by `..` cancels, anywhere in the path |
| FsPaths.NormalizedIsNormal | crates/config-migrate/src/model.rs:114-128 | a normalized path is its own normal form |
| MigrationConfig.RemoveLegacyServicesAllowlist | crates/config-migrate/src/config_files.rs:193-210 | drops exactly the entries that name the legacy services directory, and the list when nothing is left |
| MigrationConfig.MigrateConfigToml | crates/config-migrate/src/config_files.rs:9-61 | the edits in sequence give the current form of the table; only a root that is no table fails |
| MigrationConfig.CurrentNeedsNothing | crates/config-migrate/src/detection.rs:31-50 | the current form is detected as version 3, needs no normalization and lists no legacy peers |
| MigrationConfig.CurrentIdempotent | crates/config-migrate/src/config_files.rs:9-61 | rewriting twice is rewriting once |
| MigrationConfig.CurrentKeepsTheRest | crates/config-migrate/src/config_files.rs:9-61 | every setting the rewrite is not about is kept, inside the rewritten sections too |
| MigrationConfig.CurrentFields | crates/config-migrate/src/config_files.rs:9-61 | version 3; the legacy keys are gone; a legacy RPC address becomes an automatic one, any other stays; the allowed host paths stay, as often as they were, but for the legacy services directory |
| MigrationConfig.HostPathsInOrder | crates/config-migrate/src/config_files.rs:193-210 | the allowed host paths that stay keep their order |
| MigrationConfig.CurrentChangesNothing | crates/config-migrate/src/detection.rs:140-198 | the rewrite changes nothing if and only if the version is the integer 3, detection asks for nothing and no allowlist is empty |
| MigrationFiles.AppendStringArray | crates/config-migrate/src/config_files.rs:230-251 | appends the trimmed nonempty strings in order; fails exactly for what is no list of strings |
| MigrationFiles.MigrateIncomingAllowedPeers | crates/config-migrate/src/config_files.rs:63-117 | the trusted list afterwards is what it was plus each legacy peer not yet in it, once, sorted; it fails exactly when a legacy list is not one of strings or the trusted devices are no list |
| MigrationFiles.TrustedFields | crates/config-migrate/src/config_files.rs:63-117 | after a merge: a peer is trusted if and only if it was or one of the two legacy lists names it, sorted, none added twice, and no other entry of the file changes |
| MigrationFiles.MigrateAddressBook | crates/config-migrate/src/config_files.rs:119-191 | every device stays, each peer of the book becomes a device once, with the fields `AddressBookFields` names; fails exactly when a peer has no id or a new one lacks a required field |
| MigrationFiles.DeviceFields | crates/config-migrate/src/config_files.rs:270-325 | a device has the id, hostname and public address of the peer, its alias as name, its own times, its private addresses, system and version or the defaults, no addresses yet, and no other key |
| MigrationFiles.AddressBookFields | crates/config-migrate/src/config_files.rs:119-191 | after a merge: the devices that were there come first, as they were, each further one has the fields of a peer of the book, every id of a device or peer is there, no id is added twice, and no other entry of the file changes |
| MigrationAccess.FillPreferences | crates/config-migrate/src/local_preferences.rs:67-94 | the loop and the sort compute the filled list |
| MigrationAccess.FilledIsMerged | crates/config-migrate/src/local_preferences.rs:46-99 | every entry is found with its saved record, else with its first legacy one; no saved record is lost, nothing else is added, and the list is sorted |
| MigrationServices.MountsFollowTheData | crates/config-migrate/src/services.rs:309-324 | a mount of the old directory or below, rewritten and resolved again, is the same path below the new one; any other is unchanged |
| MigrationServices.ConvertPorts | crates/config-migrate/src/services.rs:201-240 | fails exactly without ports or with a UDP port |
| MigrationServices.PublishIsLast | crates/config-migrate/src/services.rs:201-234 | each published name stands for the last port of that name |
| MigrationServices.PublishFields | crates/config-migrate/src/services.rs:201-240 | the names published are those of the ports, each for the last port of that name: its host port if the runtime is Wasmtime and there is one, else its service port |
| MigrationServices.DocumentFields | crates/config-migrate/src/services.rs:157-265 | the new manifest, field by field, by the legacy one: name, runtime, source, mounts and ports; the state with the id, the time and the legacy desired state |
| MigrationServices.MoveOrCreate | crates/config-migrate/src/services.rs:122-155 | if no call fails, the tree is the one in which the directory the key leads to has moved whole, or a new one is made where nothing is found; only a place in use is refused |
| MigrationServices.MoveComponent | crates/config-migrate/src/services.rs:267-298 | the component is among the artifacts and no longer where it was; the artifacts directory may be there already |
| MigrationServices.MigrateOne | crates/config-migrate/src/services.rs:46-102 | one service, for any key: what is made of the tree on success, with the manifest and the state of the legacy service under the new id, Running if and only if it was; if no call fails it is refused if and only if the name is not that of its key, it has no port or one that is not TCP, or its id is in use; and what is left then |
| MigrationServices.MigrateServices | crates/config-migrate/src/services.rs:46-109 | the loop applies the services in order and removes the state file; nothing new appears outside the four places of the step, and with tame names nothing else changes in any state on the way |
| MigrationServices.RefusedIffUnacceptable | crates/config-migrate/src/services.rs:46-109 | with new ids, the step as a whole ends done only if every service is acceptable, and refused only if one is not |
| MigrationServices.MigrateLegacyServicesState | crates/config-migrate/src/services.rs:17-110 | nothing to do without a state file, failure for one it cannot read, otherwise the loop, for any keys and component paths |
| MigrationServicesReach.EscapeIff | crates/config-migrate/src/services.rs:58-78 | a service that succeeds changes the staging directory only, if and only if neither the old directory found nor the component lies outside; else something outside is gone |
| MigrationServicesReach.RunEscapeIff | crates/config-migrate/src/services.rs:46-102 | the same for any number of services that succeed, each seen from the tree it finds |
| MigrationServicesReach.GivenUpEscapeIff | crates/config-migrate/src/services.rs:51-102 | a service that is refused though no call failed changes the staging directory only, unless its name matches, its new place is free, its data could be moved and the old directory found or the component lies outside; then something outside is gone |
| MigrationServicesReach.DoneEscapeIff | crates/config-migrate/src/services.rs:46-109 | the whole step, when it is done: the staging directory only, if and only if no service escapes |
| MigrationServicesReach.RefusedRunEscapeIff | crates/config-migrate/src/services.rs:46-102 | the whole step, when it ends in a refused service though no call failed: the staging directory only, if and only if no service before escapes and this one carries nothing out |
| MigrationServicesReach.LiveEntryIsCarriedOff | crates/config-migrate/src/services.rs:58-78 | with the key `../../name` and no ports the step fails, and unless a call fails before, the live entry `name` has been moved into the staging directory |
| MigrationServicesData.EveryServiceIsSettled | crates/config-migrate/src/services.rs:46-109 | with tame names and fresh ids, done: each service has under its new id what the ones before left of its old directory, the managed component among the artifacts, and its old directory is gone; its manifest says what the legacy one did, and its state has the id, the time of the step and the legacy desired state |
| MigrationServicesData.KeptFields | crates/config-migrate/src/services.rs:122-155 | what it is to keep its files: each is in the data directory of the id, at the same path as in the old directory, but for the managed component, which is in the artifacts directory |
| MigrationServicesData.KeptIff | crates/config-migrate/src/services.rs:122-155 | done, a service has every file it had if and only if no earlier one carries any off, nested keys included |
| MigrationServicesData.NestedServiceLosesItsFiles | crates/config-migrate/src/services.rs:122-155 | of services `a` and `a/b` the second ends without its files, which are in the data of the first |
| MigrationPlan.BuildPlan | crates/config-migrate/src/detection.rs:52-122 | exact refusal conditions, an unreadable services directory among them; a plan that touches what the findings call for, each path once |
| MigrationPlan.MixedFields | crates/config-migrate/src/detection.rs:216-243 | a layout is mixed if and only if the services directory is a file or has a directory with a manifest or a state in it |
| MigrationPlan.ItemsApart | crates/config-migrate/src/model.rs:10-24 | no path a plan can touch lies in another |
| MigrationPlan.EmptyPlan | crates/config-migrate/src/detection.rs:52-198 | a plan is empty if and only if the configuration needs nothing and nothing legacy is there |
| MigrationStaging.Prepare | crates/config-migrate/src/apply.rs:32-117 | both directories are new, empty, and named after the time and the version; nothing else changes; unless a call fails there are none exactly if all thousand pairs of names are taken |
| MigrationStaging.CopyBackup | crates/config-migrate/src/apply.rs:142-159 | the backup holds every entry but backups and staging directories |
| MigrationStaging.BackedUpFields | crates/config-migrate/src/apply.rs:142-159 | complete means: every file and directory outside `bk` and the staging directories is in the backup at its own path, as it was |
| MigrationStaging.CopySelected | crates/config-migrate/src/apply.rs:119-140 | each touched path is staged as it is, the rest of staging is empty |
| MigrationRewrite.RewriteTrustedDevices | crates/config-migrate/src/config_files.rs:63-117 | the staged list is the merge with the staged configuration, no other item changes |
| MigrationRewrite.RewriteLocalAccess | crates/config-migrate/src/local_preferences.rs:46-99 | the staged preferences are filled up from the legacy file, no other item changes |
| MigrationRewrite.RewriteConfig | crates/config-migrate/src/config_files.rs:9-61 | the staged configuration is the one before, rewritten, and no other item changes; unless a call fails it fails exactly for one that is no table |
| MigrationRewrite.RewriteDevices | crates/config-migrate/src/config_files.rs:119-191 | the staged devices are merged with the address book as `MigrationFiles.AddressBookFields` says, no other item changes; unless a call fails it fails exactly when the two cannot be merged |
| MigrationRewrite.RewriteServices | crates/config-migrate/src/services.rs:17-110 | the services are moved; with tame names no other item changes and the backup stays complete in every state |
| MigrationRewrite.Rewrite | crates/config-migrate/src/lib.rs:71-88 | the steps in their order; none undoes what another has done; with new ids and unless a call fails, they succeed if and only if every file the plan is for can be converted |
| Migration.Apply | crates/config-migrate/src/lib.rs:90-91 | the touched paths are live as staged, or after a single failure unharmed; the backup stays complete at every step |
| Migration.MigratedIsCurrent | crates/config-migrate/src/lib.rs:57-102 | what a validated migration leaves is current |
| Migration.CurrentPlansNothing | crates/config-migrate/src/detection.rs:52-122 | for a current directory planning succeeds and the plan is empty |
| Migration.CurrentWithoutStaging | crates/config-migrate/src/lib.rs:92 | whatever a failed removal leaves of the staging directory, the directory is as current as before it |
| Migration.MigrateWithPlan | crates/config-migrate/src/lib.rs:57-102 | ends migrated, unharmed, or halfway with a complete backup, the last only after two failures, and in every state on the way either only scratch directories have changed or the backup is complete (all this with tame names); applied, the configuration is the rewritten one, the live files are the merges and every service is in its new place; applied and yet an error exactly if the removal of the staging directory failed; with new ids and unless a call fails, it succeeds if and only if every file can be converted and a name is left |
| Migration.MigrateIfNeeded | crates/config-migrate/src/lib.rs:28-55 | success with tame names leaves a current directory that holds what the plan for the version detected was for, or one without configuration untouched; it ends in one of the three ways for the items that plan touches; no change is reported only if that plan is empty; a directory without configuration, and a current one, is left alone; unknown versions are refused with nothing changed; with tame names and new ids and unless a call fails, it is an error if and only if the version cannot be told or migrated, the plan is refused, a file cannot be converted or no name is left |
| Migration.DeclinedByAnyPlan | crates/config-migrate/src/lib.rs:28-55 | whether a migration is declined does not depend on which plan of the directory is taken |
| MigrationResult.PlanFields | crates/config-migrate/src/detection.rs:52-198 | the plan by the names of the files that are there and the entries of the configuration |
| MigrationResult.RefusedFields | crates/config-migrate/src/detection.rs:67-78 | no plan is made exactly for old files without a configuration, or the old state file beside services of the current layout |
| MigrationResult.CurrentDirectoryFields | crates/config-migrate/src/detection.rs:52-198 | a current directory has no legacy file and a configuration of version 3 that asks for nothing |
| MigrationResult.ConvertibleFields | crates/config-migrate/src/lib.rs:71-88 | what it takes for all files to be converted: which are there, in which form, and that their contents can be merged |
| MigrationResult.ConfigArrives | crates/config-migrate/src/config_files.rs:9-61 | after a migration `config.toml` is the one before, rewritten, if it listed peers or asked for it |
| MigrationResult.PeersArrive | crates/config-migrate/src/config_files.rs:63-117 | if the configuration listed peers, `trusted_devices.toml` is the one before with those, as `MigrationFiles.TrustedFields` says |
| MigrationResult.AddressBookArrives | crates/config-migrate/src/config_files.rs:119-191 | if there was an `address_book.toml`, `devices.toml` is the one before with its peers, as `MigrationFiles.AddressBookFields` says |
| MigrationResult.PreferencesArrive | crates/config-migrate/src/local_preferences.rs:46-99 | if there was an `access/local_access.json`, the saved preferences are those before, filled up from it |
| MigrationResult.ServicesArrive | crates/config-migrate/src/services.rs:17-110 | if there was a `services-state.json`, and with fresh ids, each service is under its id in `services`, as its legacy manifest and state say, with all its files if no earlier one carried any off |
| Snapshots.DeviceServiceSnapshots.SaveIfCurrent | crates/daemon/src/services.rs:80-95 | stores the snapshot, and changes nothing else, exactly when the epoch is the expected one and the write succeeds |
| Snapshots.DeviceServiceSnapshots.Remove | crates/daemon/src/services.rs:97-104 | moves the epoch on and removes the snapshot; an error may leave the snapshot but never the old epoch, short of overflow |
| Snapshots.StepKeepsInv | crates/daemon/src/services.rs:72-104 | every step of refreshes, forgets and removals keeps stale writers fenced off |
| Snapshots.NoResurrection | crates/daemon/src/services.rs:242-298 | in every run a snapshot cached after a removal of its peer was asked for after it, forgets included |
| Snapshots.StaleSavesStoreNothing | crates/daemon/src/services.rs:80-104 | in every run a save whose epoch was captured before a removal that succeeded stores nothing |
| Snapshots.RefreshCaches | crates/daemon/src/services.rs:242-298 | a refresh alone caches what it observed, for that peer, and changes nothing else |
| Snapshots.ForgetTakesOut | crates/daemon/src/services.rs:242-298 | a forget alone takes every service of the name out of the peer's snapshot and nothing else |
| Snapshots.CachedIsObserved | crates/daemon/src/services.rs:72-104 | in every run a cached service was there at first or has been observed for that peer |
| Snapshots.MergeServices | crates/daemon/src/services.rs:590-614 | per name: runtime and status of the last managed instance, else of the first published service; metadata and endpoints of the last published one |
| ServiceState.Load | crates/daemon/src/service_state.rs:63-151 | succeeds exactly when every directory can be read and no two share an id or a name, in any order |
| ServiceState.LoadsOne | crates/daemon/src/service_state.rs:63-151 | what is loaded does not depend on the order |
| ServiceState.LoadableFields | crates/daemon/src/service_state.rs:63-151 | a disk can be loaded if and only if each directory with a manifest has a usable one, a usable state or none and a normal name, and no two have the same id or name |
| ServiceState.LoadedFields | crates/daemon/src/service_state.rs:63-151 | what is loaded: each service under the trimmed name of its directory, as its files say, and each name for the service of that name |
| ServiceState.ServiceStateStore.SaveService | crates/daemon/src/service_state.rs:235-261 | directory, manifest and state in this order, and what each failure leaves |
| ServiceState.ServiceStateStore.ResolveUpsertId | crates/daemon/src/service_state.rs:292-340 | refused if the requested id is not normal, not the one of the name, or another name's; otherwise a known name has its id, and a new one the requested id or a free one |
| ServiceState.NormalizeFields | crates/daemon/src/service_state.rs:407-419 | an id is normal if and only if, trimmed, it is one; exactly the trimmed text is taken |
| ServiceState.ServiceStateStore.UpsertService | crates/daemon/src/service_state.rs:181-201 | a request that is refused, for those reasons, changes neither memory nor disk; otherwise manifest and desired state are under the id of a known name, the one requested or a free one, in memory and, on success, on disk |
| ServiceState.ServiceStateStore.SetDesiredState | crates/daemon/src/service_state.rs:203-215 | changes one desired state, in memory and on disk |
| ServiceState.ServiceStateStore.RemoveService | crates/daemon/src/service_state.rs:217-233 | removes the service from both indexes and its directory; an error may leave part of that directory and nothing else changes |
| ServiceState.EveryStoreIsIndexed | crates/daemon/src/service_state.rs:181-233 | in every reachable store the two indexes are each other's inverse |
| ServiceState.EveryStoreReloads | crates/daemon/src/service_state.rs:63-261 | after any successful operations loading gives what is in memory |
| ServiceState.CrashBeforeManifest | crates/daemon/src/service_state.rs:235-249 | a crash before the manifest is written changes no service |
| ServiceState.CrashAfterManifest | crates/daemon/src/service_state.rs:249-260 | a crash between the writes leaves the new manifest and the old desired state, Stopped for a new service; exact condition for loading to succeed |
| ServiceState.DamagedStateBreaksTheStore | crates/daemon/src/service_state.rs:249-260 | at one input: a damaged `state.json` alone loads as an empty store, and no longer once a manifest is written beside it |
| ServiceState.SaveReloads | crates/daemon/src/service_state.rs:407-432 | saving a loaded service keeps the directory loadable if and only if it was loaded from the directory that bears its id |
| ServiceState.SpacedDirectoryDoesNotReload | crates/daemon/src/service_state.rs:407-432 | at one input: a store with the directory `" svc"` loads, and no longer after its service is saved |
| KeyedLists.Find | crates/config/src/direct_addresses.rs:123-143 | the first element with the key, or none |
| DirectAddresses.NormalizedMembers | crates/daemon/src/connectivity.rs:162-175 | each trimmed nonempty address, once |
| DirectAddresses.NoteAddresses | crates/config/src/direct_addresses.rs:138-158 | each address of the list is noted once: counted once more, saturating, with the time, or new; no other entry changes |
| DirectAddresses.RecordSuccessfulAddresses | crates/config/src/direct_addresses.rs:105-170 | each address of the list counts once more at its pair of peer and address, saturating, with the time, or is new with both times now; no other entry changes; sorted afterwards; the first of several equal keys is meant; unique keys stay unique; an error keeps the old cache |
| DirectAddresses.Sampler.Tick | crates/daemon/src/connectivity.rs:74-111 | the pairs that were not there at the last tick count once more, except where saving fails |
| DirectAddresses.CountsAreSavedEdges | crates/daemon/src/connectivity.rs:133-149 | in every history each count is the initial one plus the saved rises, saturating at the maximum |
| DirectAddresses.SavedEdgesAreEdges | crates/daemon/src/connectivity.rs:92-106 | these are all the rises if and only if no save failed at a rise |
| LogFrames.DecodeLogFrames | crates/docker-agent/src/agent.rs:187-214 | the payloads if the input is one or more whole frames, else the input as plain text |
| LogFrames.TextsInOrder | crates/docker-agent/src/agent.rs:187-214 | the texts of frames are put together in the order of the frames |
| LogFrames.LengthOfHead | crates/docker-agent/src/agent.rs:196-201 | the length is the last four bytes of the head, the most significant first |
| LogFrames.SplitIsUnique | crates/docker-agent/src/agent.rs:192-206 | bytes encode given frames if and only if they split into just these |
| LogFrames.DecodedEncoding | crates/docker-agent/src/agent.rs:187-214 | encoding any nonempty list of frames and splitting gives the list back |
| StreamHandler.Handler.Poll | crates/stream/src/handler.rs:79-102 | takes the next request only if none is pending |
| StreamHandler.Handler.OnConnectionEvent | crates/stream/src/handler.rs:108-151 | answers the pending request, once, with the response the answer calls for |
| StreamHandler.ExactlyOneResponse | crates/stream/src/handler.rs:79-151 | in every run with a disciplined swarm: at most one request outstanding, answered in order of arrival, exactly one response each, a stream exactly for a stream |
| StreamHandler.UnsolicitedAnswerIsDropped | crates/stream/src/handler.rs:118-137 | an answer without a request sends nothing (a debug build also asserts that there is none) |
| StreamPolicy.AuthorizeInbound | crates/stream/src/policy.rs:48-74 | allowed if and only if both checks pass; the node-wide check decides the reason first |
| StreamPolicy.ProtocolOnlyRestricts | crates/stream/src/policy.rs:53-56 | a protocol list only restricts what the node allows |
| StreamRegistry.Registry.RegisterListener | crates/stream/src/registry.rs:47-64 | a listener is registered, with a new empty channel, if and only if none is there that has not gone away; the ones that have are pruned |
| StreamRegistry.Registry.UpgradeInbound | crates/stream/src/upgrade.rs:56-92 | a stream is exposed if and only if a listener is there and both its list and the node's, as read, let the peer in |
| StreamRegistry.Registry.OnInboundStream | crates/stream/src/registry.rs:91-119 | queued at the end of its listener's queue if that holds fewer than nine, else dropped; nothing else changes, but a listener that has gone away is removed |
| StreamRegistry.EveryRunFits | crates/stream/src/registry.rs:47-119 | in every run the queues hold exactly the streams marked as queued, each once, of the right protocol, within the capacity |
| StreamRegistry.QueuedStreamsWereAuthorized | crates/stream/src/upgrade.rs:56-92 | in every run each queued stream found a listener of its protocol, then passed the node-wide check, then that of its protocol, and then arrived, at four events in this order |
| StreamRegistry.DropsDisturbNothing | crates/stream/src/registry.rs:91-119 | dropping a stream leaves every queue as it is |
| StreamRegistry.ClosedForGood | crates/stream/src/registry.rs:47-119 | in every run a listener that has gone away stays away, and its protocol can be registered again |
| StreamRegistry.QueuedWithItsListener | crates/stream/src/registry.rs:91-119 | in every run a stream is queued with the listener that authorized it if and only if none was registered for its protocol between its upgrade and its arrival |
| StreamRegistry.ReplacedListenerGetsTheStream | crates/stream/src/registry.rs:91-119 | a listener that replaced it gets the stream, whatever peers it allows |
| StreamRegistry.ReplacedInARun | crates/stream/src/registry.rs:47-119 | a run from the beginning: the first listener lets the peer in, is replaced while the stream is on its way, and the stream is queued with the second, whatever that one allows |

## Left out

- Migration.MigrateWithPlan: without tame names in `services-state.json` only the bare outcome is stated; what the services step may then do is in `MigrationServicesReach`.
- MigrationServicesData.EveryServiceIsSettled: an id that is in use, or with which a key begins, is not considered, as ids are random; nor is the drawing of ids, which are inputs, one for each service.
- MigrationServices.MoveOrCreate: a key or component path that ends in `/.` or `/` counts as without it.
- MigrationServices.MountsFollowTheData: expands the data variable at the start of a path only, the one place where the migration writes it; a mount that begins with the variable before the migration is left as it is.
- ServiceAccesses.ServiceAccesses.Attach: one call alone, so the second test of the mark never finds it changed; `AccessHistory.AttachHasItsRules` is about any number beside it.
- MigrationStaging.Prepare: two migrations of one directory at the same time are not considered, so a name found unused stays unused.
- Snapshots.NoResurrection: a cache file that, edited by hand, holds the snapshot of another peer than its name says is not covered.
- StreamHandler.ExactlyOneResponse: a response counts as sent when the requester has gone.
- FileTree.FileSystem.CopyTree: the states on the way may differ from its ends in any way below the target.
- DirectAddresses.Sampler.Tick: the connections a tick samples are an input.
- Service manifests: `expose`, arguments and environment are passed on or translated field by field and are not modelled; manifest YAML parsing is a round trip.
- `AccessProtocol`: attach takes the endpoints its entry filter has selected; the refreshes that precede a restore at startup only decide which restores are called.
- The connection table of the stream registry: plain insertions, lookups and removals.
- Listing of accesses, sockets, mDNS, relays, gRPC, the command line and the Docker client: conversions and foreign calls.
- Windows path prefixes, permissions, `fsync` and symbolic links.
- Wall-clock time: timestamps are inputs.
