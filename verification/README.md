# DavDeck: a verified model

DavDeck manages WebDAV users, shares and permissions, turns them into a Caddy configuration, stores every
configuration it activates as a revision, runs Caddy as a child process, and can bring an old revision back.
This project models that core and proves what it promises. `dafny verify dfyconfig.toml` checks everything.

## How the model is laid out

| files | part of the program |
|---|---|
| `Ordering`, `Domain` | Go's string order and sorting; the entities and what each one's `Validate` accepts |
| `Snapshot`, `Identity` | validation of a whole desired state, its canonical stored form, its semantic identity |
| `Registry`, `CaddyConfig`, `CompilerSpec`, `Compiler` | DNS provider adapters; the generated configuration with a small interpreter for its route lists; what the compiler must produce; the compiler |
| `Acl`, `ConfigIdentity`, `Discovery` | the routes mean the access-control list; the compiler sees only the identity; the discovery listing |
| `Tables`, `Database`, `SnapshotRepository` | the SQLite tables as maps under their unique columns; reading the desired state |
| `ConfigFile`, `ConfigImport`, `ImportProperties`, `ConfigRoundTrip` | the interchange document, its transactional import, export and import as inverses |
| `CaddyRuntime`, `RuntimeProperties` | the process manager and every run of it |
| `Revisions`, `RestoreProperties`, `RevisionProperties` | the revision table, restoring tables from a snapshot, what each transaction keeps |
| `DNSEnvironment` | the secret environment a state needs |
| `ApplySpec`, `ApplyService` | apply, start, restart, stop, restore and delete: as a function of database, process and outside answers; as the service |
| `RuntimeAgreement`, `ApplyProperties`, `ApplyRuns`, `ApplyAgreement`, `EndToEnd` | what every run of the service keeps, up to what the live process serves |
| `AgreementLimits`, `SecretLimits`, `CrashLimits`, `ApplyLimits`, `Witnesses` | exactly where a promise ends, and runs that get there |
| `CaddyRenewal`, `DaemonRenewal` | forced certificate renewal, on Caddy's side and on the daemon's, under any interleaving |
| `LogStore`, `LogPaging`, `LineWriter` | the bounded log, paging through it while it grows, splitting process output into lines |

Objects that the program updates in place (`RuntimeManager`, `RevisionRepository`, `ConfigRepository`,
`ApplyService`, `RenewalAdmin`, `RenewalManager`, `Store`, `LineWriter`) are classes whose methods are proved equal
to functions on values; runs and interleavings are then sequences of those functions. Code that loops over copies
and seen-maps (`Validate`, `Compile`, `Export`, `Import`) is a method proved against a declarative predicate or
against the unique ascending listing of a set. Every call into code that is not part of this model (database
failures, health checks, admin API answers, validation by Caddy, clocks, new identifiers, process exits, mutations by
other services) is a parameter, so each theorem holds for all of its answers.

## Results worth knowing

The whole chain ends in `EndToEnd.LiveProcessServesTheTables`: in every run whose applies and restores settle, and in
which no other service writes during an apply, whenever nothing is pending and a revision is active, a live Caddy
serves a share on a request exactly when the users, shares and permissions in the tables allow it (for a base path that
does not end in a star).

Where a natural claim turned out to fail in the code, the model keeps the code and proves the exact condition, and where
the program can get there the point names a run, or an input, that does.

* A public base path that ends in `*` is accepted, and Caddy then reads the index route's own path as a wildcard, so
  it hides every share from everybody who may read one. For base paths that hold no other star, no bracket and no
  placeholder, all of which the interpreter reads literally where Caddy would not, this is the only exception
  (`Acl.FaithfulExactly`, `Witnesses.ShadowReached`).
* `runningLocked` takes the exit message it finds. `EnvironmentMatches`, `Reload`, `CertificateStatus`,
  `ForceRenewCertificate`, and a start that fails before launching leave the dead process as the current one, and from
  then on "running" is reported although nothing runs (`RuntimeProperties.StaleArises`,
  `RuntimeProperties.StaleReached`). Then, as long as the dead process's admin endpoint does not answer, no apply, start,
  restart or restore works any more (`CrashLimits.StuckForever`, `CrashLimits.OnePollSticks`). When no process lives and a
  new one would start, an apply brings Caddy back exactly when the manager has forgotten the dead process, as a status
  request or a stop makes it, or nobody has asked about it and the state needs no DNS secrets
  (`CrashLimits.CrashRecovery`, `CrashLimits.StatusThenApply`).
* Polling the certificate of a crashed Caddy, with no certificate stored, no renewal entered, no recorded error and no
  recent ACME error, reports that Caddy is not running once, and ever after that it is requesting the certificate
  (`RuntimeProperties.PollingLies`).
* A reload may take effect and still report failure, and an activation that turns out unhealthy, or a restore that
  meets an invalid clock, is not rolled back. A live process has the configuration of the active revision throughout a
  run exactly when every apply and restore settles (`AgreementLimits.AgreesExactly`, with
  `AgreementLimits.ApplyDecides` and `AgreementLimits.RestoreDecides` for one call; `Witnesses.DisagreeByApply`,
  `Witnesses.DisagreeByRestore`).
* A mutation that lands during an apply loses its dirty flag when the apply works, and also when it fails after it
  recorded the active revision again (`ApplyRuns.LostMutation`, with `ApplyProperties.ApplySucceedsExactly` for when an
  apply works; `Witnesses.LostBySuccess`, `Witnesses.LostByFailure`).
* A restore keeps DNS providers the revision does not name. The configuration still comes back exactly
  (`RestoreProperties.RestoreRecompiles`), but the identity does so only if there is no such provider, and if a kept
  provider shares a name with a restored one, no apply succeeds until one of them is renamed or deleted
  (`ApplyLimits.RestoreThenApply`, `ApplyLimits.ClashBlocksApply`, `Witnesses.ClashReached`).
* What one store exports, another imports and exports again unchanged (`ConfigRoundTrip.StoreToStore`). Only a state
  that does not come out of the tables could differ: a blank challenge would come back as `auto`
  (`ConfigRoundTrip.ImportThenExport`), and the tables cannot hold one.
* Changed DNS secrets reach a running process only if it is healthy at the moment of the apply; a degraded one is
  reloaded with the old secrets, and the apply may still succeed. A successful apply leaves no process at all only under
  a stale manager, or one that asking about the secrets makes stale (`SecretLimits.SecretsArrive`,
  `Witnesses.SecretMissing`). When the secrets arrive, every provider field of the running configuration reads the
  stored one (`SecretLimits.SecretsAreRead`).
* An empty environment never counts as changed, so when a state stops needing secrets they stay in the process exactly
  if it was running with some (`SecretLimits.SecretsLinger`, `Witnesses.SecretStays`).
* `EnvironmentMatches` is equality exactly for environments without an empty value
  (`RuntimeProperties.EnvironmentComparison`); the program passes no others (`DNSEnvironment.FilledEnvironment`).
* A renewal watcher asks Caddy to cancel by hostname before it checks that it is still current, and a cancel request does
  so after its unlock. Each can so cancel a successor, exactly if the renewal it means has ended meanwhile, or is about
  to (`DaemonRenewal.WrongCancelIsLate`, `DaemonRenewal.CancelReaches`; `DaemonRenewal.WrongCancelHappens`,
  `DaemonRenewal.WrongRequestHappens`).
* Two spellings of a hostname with trailing dots are registered as different renewals. Only a caller of Caddy's admin
  endpoint other than the daemon can send them, since the daemon's hostnames do not end in a dot
  (`CaddyRenewal.NormalizeTwice`, `CaddyRenewal.TwoSpellings`).
* Whether the log depends on how the output was chunked: it is that of the stream's lines exactly when, at the end of
  every write, the unfinished line has at most 64 KiB, or one byte more, which is a single carriage return with the
  newline right behind it (`LineWriter.LogExact`, `LineWriter.SplitMatters`, `LineWriter.LogDiffers`). For the lines
  before stripping, that one byte matters as well (`LineWriter.ChunkingExact`).

## Model

| member | source | states |
|---|---|---|
| `Snapshot.Validate` | core/internal/domain/revision_snapshot.go:311-390 | the loops with their seen-maps accept exactly the states whose settings, TLS profile, providers, users, shares and permissions are each valid, with no repeated id, provider name, user name, slug or (share, user) pair and no dangling reference |
| `Snapshot.ValidateProviders` | core/internal/domain/revision_snapshot.go:320-334 | accepts exactly valid providers with distinct ids and distinct names, and returns the set of their ids |
| `Snapshot.ValidateUsers` | core/internal/domain/revision_snapshot.go:343-357 | accepts exactly valid users with distinct ids and distinct normalized names, and returns the set of their ids |
| `Snapshot.ValidateShares` | core/internal/domain/revision_snapshot.go:358-388 | accepts exactly valid shares with distinct ids and slugs whose permissions are valid, belong to their share, name known users and do not repeat a user |
| `Snapshot.NewConfigRevisionSnapshot` | core/internal/domain/revision_snapshot.go:44-95 | the snapshot holds every list in its canonical order |
| `Snapshot.Marshal` | core/internal/domain/revision_snapshot.go:138-144 | succeeds exactly when the canonical state is valid, and encodes it |
| `Snapshot.Parse` | core/internal/domain/revision_snapshot.go:296-308 | gives back the encoded state exactly when its version is known and it is valid |
| `Snapshot.CanonicalValid` | core/internal/domain/revision_snapshot.go:44-95 | canonical order neither breaks nor repairs validity |
| `Snapshot.CanonicalIdempotent` | core/internal/domain/revision_snapshot.go:44-95 | putting a canonical state in order again changes nothing |
| `Snapshot.MarshalRoundTrip` | core/internal/domain/revision_snapshot.go:138-144 | a state marshals exactly when it is valid; parsing gives its canonical form, which marshals to the same body |
| `Identity.RevisionStateIdentity` | core/internal/domain/revision_snapshot.go:232-292 | the loops build the identity of a snapshot: no timestamps, no NONE rows, blank challenge read as auto |
| `Identity.HashState` | core/internal/domain/revision_snapshot.go:151-162 | hashes the identity of the canonical state, or fails exactly when that state is invalid |
| `Identity.IdentityExact` | core/internal/domain/revision_snapshot.go:232-292 | two valid states have the same identity and state hash exactly when they differ only in list order, timestamps, NONE rows and blank-versus-auto challenge |
| `Identity.CanonicalFacts` | core/internal/domain/revision_snapshot.go:44-95 | the canonical form says the same as the state and has the same identity |
| `Registry.ValidateSecret` | core/internal/dnsprovider/registry.go:31-53 | accepts exactly secrets with known fields only, acceptable values and every required field |
| `Registry.EnvironmentNameInjective` | core/internal/dnsprovider/registry.go:73-75 | two variables have the same name only for the same credential id and the same adapter field |
| `Registry.CaddyProvider` | core/internal/dnsprovider/registry.go:55-62 | the block holds the adapter name and one placeholder per Caddy field |
| `Registry.Environment` | core/internal/dnsprovider/registry.go:64-70 | one variable per secret field, with its value, and no other variable |
| `Registry.AdapterWellFormed` | core/internal/dnsprovider/registry.go:77-99 | every built-in adapter has plain field names and a Caddy field for each secret field, so the next two rows apply to it |
| `Registry.SecretResolves` | core/internal/dnsprovider/registry.go:55-75 | with the environment of an accepted secret every configured field reads the stored value, and an absent optional field reads empty |
| `Registry.SecretComplete` | core/internal/dnsprovider/registry.go:77-99 | every stored field of an accepted secret is read back by some field of the block, and every required field is stored |
| `Registry.EnvironmentsDisjoint` | core/internal/dnsprovider/registry.go:64-75 | the environments of two credentials share no variable |
| `Compiler.CompileAccounts` | core/internal/caddy/compiler.go:204-236 | accepts exactly valid permission lists; the read and write lists are the ascending listings of the accounts the list admits to read and to write |
| `Compiler.CollectProviders` | core/internal/caddy/compiler.go:37-46 | accepts exactly valid providers with distinct ids, and indexes them |
| `Compiler.CollectUsers` | core/internal/caddy/compiler.go:53-74 | accepts exactly valid users with distinct ids and names, and indexes them |
| `Compiler.CompileTLS` | core/internal/caddy/compiler.go:409-439 | fails exactly when a needed provider is unknown or unsupported, and otherwise gives the TLS app and connection policies of the profile |
| `Compiler.Record` | core/internal/caddy/compiler.go:111-117 | adds the readers of a share to the discovery tables, and one entry for each |
| `Compiler.CompileShares` | core/internal/caddy/compiler.go:75-125 | accepts exactly valid shares with valid permissions where enabled; routes, warnings and discovery tables are those of the sorted shares |
| `Compiler.CompileIndex` | core/internal/caddy/compiler.go:126-159 | one index route for all readers, with every entry list ascending, or none if nobody can read |
| `Compiler.Compile` | core/internal/caddy/compiler.go:32-195 | succeeds exactly on compilable states and gives the configuration, hash and warnings of the declarative specification |
| `Acl.RoutesMeanTheAcl` | core/internal/caddy/compiler.go:82-125 | running the emitted routes on any request for a managed host reaches a WebDAV handler exactly when an enabled user of an enabled share has a permission that suffices for the method, and then with that share's root and prefix |
| `Acl.FaithfulExactly` | core/internal/caddy/compiler.go:144-158 | the routes, read as the interpreter reads them, mean the access-control list exactly when the base path does not end in a star or nobody can read |
| `Acl.ShadowedShare` | core/internal/caddy/compiler.go:148-158 | with a base path that ends in a star and a reader, some request that the list allows is answered by the index |
| `Acl.IndexMeansTheAcl` | core/internal/caddy/compiler.go:126-159 | the index answers at the base path, to exactly the clients who may read some share, with the shares each may read |
| `Acl.EntriesAreReadable` | core/internal/caddy/compiler.go:109-143 | a client's entries are exactly the enabled shares they can read, once each, in slug order |
| `ConfigIdentity.ValidIffCompilable` | core/internal/caddy/compiler.go:32-125 | a state is valid exactly when it compiles, has distinct provider names and valid permissions on disabled shares; so every valid state compiles |
| `ConfigIdentity.SameFactsSameConfig` | core/internal/caddy/compiler.go:32-195 | states that say the same, apart from extra providers, compile to the same configuration, hash and warnings |
| `ConfigIdentity.SameIdentitySameConfig` | core/internal/domain/revision_snapshot.go:232-292 | equal state hashes mean equal configurations |
| `ConfigIdentity.OrderBlind` | core/internal/caddy/compiler.go:53-195 | any reordering of users, shares, permissions, providers or zones of an accepted input is accepted and compiles to the same result |
| `ConfigIdentity.StoredStateRecompiles` | core/internal/app/apply_service.go:456-466 | the stored snapshot of a valid state parses, marshals to the same body, hashes to the same identity and compiles to the same configuration |
| `Discovery.ValidateEntries` | caddy/caddy-webdav/discovery.go:48-65 | accepts exactly entry lists with valid distinct slugs and non-empty names under proper user names |
| `Discovery.Validate` | caddy/caddy-webdav/discovery.go:44-67 | accepts exactly canonical base paths with valid entries |
| `Discovery.CompiledDiscoveryValid` | caddy/caddy-webdav/discovery.go:44-67 | the block the compiler emits for a compilable state is accepted |
| `Discovery.WriteXMLEscaped` | caddy/caddy-webdav/discovery.go:153-170 | appends the escaped text |
| `Discovery.PropfindListing` | caddy/caddy-webdav/discovery.go:128-139 | prints the root and, at depth 1, every entry in order |
| `Discovery.EscapeRoundTrip` | caddy/caddy-webdav/discovery.go:153-170 | unescaping gives the text back, and escaped text holds no tag |
| `Discovery.ListingDecodes` | caddy/caddy-webdav/discovery.go:128-170 | a decoder recovers the root and every (href, name) in order from the printed multistatus body |
| `SnapshotRepository.ValidScans` | core/internal/storage/runtime_repository.go:16-143 | no row of a valid state is rejected while scanning |
| `SnapshotRepository.SnapshotRepository.Snapshot` | core/internal/storage/runtime_repository.go:16-91 | reads settings, TLS profile, providers, users and shares with their permissions in the order of the queries; fails exactly when the database does or a scanned row is rejected |
| `Tables.LoadValid` | core/internal/storage/runtime_repository.go:16-91 | the state read from sound tables is valid exactly when every row is and provider names do not repeat |
| `Tables.LoadFacts` | core/internal/storage/runtime_repository.go:16-91 | reading the tables loses and adds nothing |
| `ConfigFile.PermissionRoundTrip` | core/internal/configfile/configfile.go:197-221 | the two permission conversions are inverse to each other |
| `ConfigFile.ValidatePermissions` | core/internal/configfile/configfile.go:178-192 | accepts exactly mappings with valid names, valid permission texts and no two names with the same normalized form |
| `ConfigFile.ValidateUsers` | core/internal/configfile/configfile.go:150-164 | accepts exactly valid users with distinct normalized names |
| `ConfigFile.Validate` | core/internal/configfile/configfile.go:130-195 | accepts exactly the valid documents |
| `ConfigFile.Export` | core/internal/configfile/configfile.go:272-319 | succeeds exactly when the profile's provider, if any, is known by a name and every permission row names a known user and permission, so for every valid state; the document holds each row once, in order |
| `ConfigFile.ExportPermissions` | core/internal/configfile/configfile.go:295-305 | maps each permission row's user name to its text, and fails exactly on an unknown user or permission |
| `ConfigFile.ExportShares` | core/internal/configfile/configfile.go:293-307 | exports each share with its permissions, and fails exactly if one of them cannot be |
| `ConfigFile.ExportedValid` | core/internal/configfile/configfile.go:130-195 | the document of a valid state passes the document's own validation |
| `ConfigImport.ImportTLS` | core/internal/storage/config_repository.go:38-77 | fails exactly when the named provider is missing, and otherwise gives the profile with the old id and creation time, if any |
| `ConfigImport.UpsertRows` | core/internal/storage/config_repository.go:79-137 | one table's loop: succeeds exactly when every new row is complete with an id of its own, gives the old rows overridden by the document's, and counts created and updated |
| `ConfigImport.ImportShare` | core/internal/storage/config_repository.go:139-174 | the permission rows of one share are laid over the table, or the share names an unknown user or permission |
| `ConfigImport.ImportPermissions` | core/internal/storage/config_repository.go:138-175 | all permission rows are laid over the table exactly when each can be placed, and are counted |
| `ConfigImport.ConfigRepository.Import` | core/internal/storage/config_repository.go:20-180 | succeeds exactly when the document is importable and the database does not fail; on failure nothing changes; on success the tables are the old ones overridden by the document, the dirty flag is set if anything was written, created plus updated equals the rows of the document, and resets are the created users |
| `ImportProperties.ImportStaysValid` | core/internal/storage/config_repository.go:20-180 | with a clock not behind any row, an import keeps the tables sound and the state valid |
| `ImportProperties.ImportAgrees` | core/internal/storage/config_repository.go:27-175 | after an import the tables hold every row of the document |
| `ImportProperties.AgreesFixed` | core/internal/storage/config_repository.go:27-175 | importing what is already there leaves the semantic identity unchanged |
| `ImportProperties.SecondImport` | core/internal/storage/config_repository.go:27-175 | a second import succeeds, creates nothing and changes no identity, whatever new identifiers it brings |
| `ConfigRoundTrip.ExportThenImport` | core/internal/configfile/configfile.go:272-319 | exporting a valid state and importing the document into the same tables succeeds, creates nothing and leaves the state hash unchanged |
| `ConfigRoundTrip.ImportThenExport` | core/internal/configfile/configfile.go:272-319 | importing the document into a store with only settings and same-named providers succeeds, and re-exports the same document exactly when the state had no blank challenge |
| `ConfigRoundTrip.StoreToStore` | core/internal/storage/config_repository.go:20-180 | what one store exports, another with only settings and same-named providers imports and exports again unchanged, always |
| `CaddyRuntime.RuntimeManager.RunningLocked` | core/internal/caddy/runtime.go:310-320 | answers whether a process was launched and no exit message is waiting, and takes a waiting message |
| `CaddyRuntime.RuntimeManager.StartWithEnvironment` | core/internal/caddy/runtime.go:91-131 | does nothing if running; otherwise a rejected configuration, a failed write or a failed launch records its error, and after the polling loop the new process is current with its environment recorded, or dead with the error recorded |
| `CaddyRuntime.RuntimeManager.Reload` | core/internal/caddy/runtime.go:182-200 | fails if not running or rejected by validation; otherwise the process takes the configuration unless the admin call rejects it, and success needs both that call and the write |
| `CaddyRuntime.RuntimeManager.Stop` | core/internal/caddy/runtime.go:202-243 | forgets the process and the last error if not running; otherwise a refused or cancelled request keeps the process, an exit ends it, and a timeout kills it and reports failure |
| `CaddyRuntime.RuntimeManager.Status` | core/internal/caddy/runtime.go:259-274 | forgets the process if not running and reports stopped or failed by the last error; otherwise reports running or degraded by the health check |
| `CaddyRuntime.RuntimeManager.CertificateStatus` | core/internal/caddy/certificate_status.go:53-122 | asks whether the process runs, unless the context has ended, and reports a renewal, else the stored certificate, else a recorded error, else issuing or waiting by that answer |
| `CaddyRuntime.RuntimeManager.EnvironmentMatches` | core/internal/caddy/runtime.go:145-160 | compares the environment variable by variable, after asking whether the process runs |
| `RuntimeProperties.OneLiveProcess` | core/internal/caddy/runtime.go:91-320 | in every run of starts, reloads, stops, status, certificate and renewal requests and process exits at most one process is alive, and it is the one the manager knows |
| `RuntimeProperties.LaunchesWhenDead` | core/internal/caddy/runtime.go:94-110 | a launch happens only while no process is alive |
| `RuntimeProperties.RunningExact` | core/internal/caddy/runtime.go:310-320 | "not running" always means dead; "running" is wrong exactly when the exit message was taken |
| `RuntimeProperties.StaleArises` | core/internal/caddy/runtime.go:310-320 | the check starts to lie exactly when EnvironmentMatches, Reload, CertificateStatus, ForceRenewCertificate or a start that fails before launching takes the message of a crashed process |
| `RuntimeProperties.StaleReached` | core/internal/caddy/certificate_status.go:59-60 | a process that starts, exits and is asked about once makes the manager stale |
| `RuntimeProperties.PollingLies` | core/internal/caddy/certificate_status.go:104-121 | asked about the certificate of a crashed process, the manager answers once that Caddy does not run and from then on that it is requesting the certificate |
| `RuntimeProperties.StaleForever` | core/internal/caddy/runtime.go:94-96 | from then on, while the admin endpoint refuses, every start reports success and launches nothing, in every run |
| `RuntimeProperties.StatusRecovers` | core/internal/caddy/runtime.go:262-269 | a status request instead recovers: the next start launches |
| `RuntimeProperties.StartedRuns` | core/internal/caddy/runtime.go:91-131 | a start from "not running" leaves a live process with the requested configuration and environment, or none |
| `RuntimeProperties.ReloadedDespiteFailure` | core/internal/caddy/runtime.go:192-197 | a reload that reports failure changed the process exactly when the admin call took effect or only saving failed |
| `RuntimeProperties.FailureStays` | core/internal/caddy/runtime.go:256-291 | in every run without a start that comes up, a reload that works or a stop, a failure stays recorded and FAILED is reported whenever nothing runs |
| `RuntimeProperties.EnvironmentComparison` | core/internal/caddy/runtime.go:145-160 | the comparison is equality with every other environment exactly when no requested value is empty |
| `DNSEnvironment.Environment` | core/internal/app/dns_provider_service.go:169-202 | succeeds exactly when no secret is needed, or the named credential exists, allows the hostname and holds a secret its adapter accepts; gives no variable, or exactly those of that secret |
| `DNSEnvironment.HostnameAllowedByZones` | core/internal/app/dns_provider_service.go:204-213 | some zone equals the hostname or is a parent of it, read without case, wildcard label and final dot |
| `DNSEnvironment.FilledEnvironment` | core/internal/app/dns_provider_service.go:198-201 | the environment of an accepted secret is not empty and has no empty value |
| `Revisions.RevisionRepository.Create` | core/internal/storage/revision_repository.go:21-62 | takes the next number and makes the revision desired and clean, or changes nothing: when the database fails, the state hash does not match the snapshot, the row is invalid or the id exists |
| `Revisions.RevisionRepository.FindByIdentity` | core/internal/storage/revision_repository.go:64-73 | the newest valid revision with both hashes, none if there is none, or a database error |
| `Revisions.RevisionRepository.SetDesired` | core/internal/storage/revision_repository.go:103-109 | moves the desired pointer and clears the dirty flag exactly if the revision exists |
| `Revisions.RevisionRepository.MarkApplied` | core/internal/storage/revision_repository.go:111-128 | applies a valid revision, moves both pointers and clears the dirty flag, or changes nothing |
| `Revisions.RevisionRepository.MarkFailed` | core/internal/storage/revision_repository.go:156-162 | records the failure on a valid revision, or changes nothing |
| `Revisions.RevisionRepository.Delete` | core/internal/storage/revision_repository.go:130-154 | deletes exactly revisions that exist and are neither active nor desired |
| `Revisions.RevisionRepository.RestoreState` | core/internal/storage/revision_repository.go:187-279 | replaces the tables by the state, makes the revision active and clean, exactly if the state is valid and is the one the revision stores |
| `Revisions.RevisionRepository.State` | core/internal/storage/revision_repository.go:317-334 | reports both numbers, the dirty flag, and pending when dirty or the numbers differ |
| `RestoreProperties.RestoredGood` | core/internal/storage/revision_repository.go:213-267 | the restored tables are sound and every row is valid |
| `RestoreProperties.RestoredSays` | core/internal/storage/revision_repository.go:213-267 | the restored tables say what the state says, and nothing more exactly when no other provider was stored |
| `RestoreProperties.RestoreRecompiles` | core/internal/storage/revision_repository.go:248-257 | the restored tables compile to the state's configuration, whatever providers stay behind |
| `RestoreProperties.RestoreValid` | core/internal/storage/revision_repository.go:248-257 | the restored state is valid exactly when no provider left behind shares a name with a restored one or another left behind |
| `RestoreProperties.RestoreIdentity` | core/internal/storage/revision_repository.go:248-257 | the restored state has the stored identity exactly when no other provider was stored |
| `RevisionProperties.CreatedKeeps` | core/internal/storage/revision_repository.go:33-61 | creating a revision with a new identity keeps the revision-table invariant and takes no number back |
| `RevisionProperties.MadeActiveKeeps` | core/internal/storage/revision_repository.go:111-128 | activating keeps the invariant |
| `RevisionProperties.MadeFailedKeeps` | core/internal/storage/revision_repository.go:156-162 | recording a failure on a revision that is not active keeps the invariant |
| `RevisionProperties.DeletedKeeps` | core/internal/storage/revision_repository.go:130-154 | deleting keeps the invariant and the agreement of clean tables with the desired revision |
| `RevisionProperties.RestoredKeeps` | core/internal/storage/revision_repository.go:187-279 | restoring keeps the invariant, and the tables then hold the configuration of the desired revision |
| `ApplyService.ApplyService.Activate` | core/internal/app/apply_service.go:299-317 | restarts, starts or reloads as specified, and falls back to the previous configuration when a replacement does not start |
| `ApplyService.ApplyService.RecordDesired` | core/internal/app/apply_service.go:138-165 | finds or creates the revision of the compiled state and makes it desired, or changes nothing |
| `ApplyService.ApplyService.Apply` | core/internal/app/apply_service.go:79-206 | refused while the lock is held; otherwise changes database and process as the specified apply does |
| `ApplyService.ApplyService.Start` | core/internal/app/apply_service.go:210-297 | Start and Restart: launches the active revision, or applies if there is none or its snapshot cannot be read |
| `ApplyService.ApplyService.Stop` | core/internal/app/apply_service.go:245-257 | refused while the lock is held; otherwise stops the process and leaves the database alone |
| `ApplyService.ApplyService.Delete` | core/internal/app/apply_service.go:413-433 | refused while the lock is held; otherwise deletes exactly revisions that exist and are neither active nor desired, and leaves the process alone |
| `ApplyService.ApplyService.Restore` | core/internal/app/apply_service.go:439-506 | verifies, activates and restores as specified, with its compensating calls |
| `ApplyProperties.ApplyKeeps` | core/internal/app/apply_service.go:111-206 | every apply keeps the invariant; a successful one makes the returned revision desired and active, with the configuration and identity of the state it read, and it is either a stored revision or the only new one with the next number |
| `ApplyRuns.RevisionTable` | core/internal/storage/revision_repository.go:21-162 | in every run: desired and active name stored revisions, the active one is valid and applied, numbers and identities are unique, each revision verifies again, numbers are never reused and contents never change |
| `ApplyRuns.NotPendingMeansApplied` | core/internal/storage/revision_repository.go:317-334 | in every run without mutations inside an apply: when an active revision exists and nothing is pending, the current tables compile to its configuration |
| `ApplyProperties.ApplySucceedsExactly` | core/internal/app/apply_service.go:111-206 | an apply succeeds exactly when the revision gets recorded and marked, and either its configuration runs already, healthy and with the right environment, or the branch of the activation that is taken works and the health check after it answers; under a stale manager only a reload can work |
| `ApplyRuns.LostMutation` | core/internal/app/apply_service.go:138-205 | an apply breaks that promise exactly when the mutations that landed inside it changed the configuration and either it works, or the active revision is that of the state, gets recorded again, and nothing lands after that |
| `ApplyRuns.ApplyReuses` | core/internal/app/apply_service.go:138-165 | applying a state whose identity is stored returns that revision and creates none |
| `ApplyRuns.RevisionStays` | core/internal/storage/revision_repository.go:130-154 | a revision that no action deletes stays, with its content, in every run |
| `ApplyRuns.SameStateSameRevision` | core/internal/app/apply_service.go:138-203 | applying A, then anything that does not delete its revision, then a state with the identity of A, returns the revision of A |
| `ApplyAgreement.OneLiveService` | core/internal/caddy/runtime.go:91-243 | no run of the service has two live processes |
| `RuntimeAgreement.ActivatedServes` | core/internal/app/apply_service.go:299-317 | after an activation a live process runs the new configuration on success and the old one on failure, if failed reloads change nothing |
| `ApplyAgreement.ApplyAgrees` | core/internal/app/apply_service.go:111-206 | with trusted calls apply keeps a running process on the active revision, and on success it runs the returned one |
| `ApplyAgreement.RestoreAgrees` | core/internal/app/apply_service.go:439-506 | with trusted calls restore keeps a running process on the active revision, and on success it runs the restored one |
| `ApplyAgreement.RunningIsActive` | core/internal/app/apply_service.go:79-506 | in every run with trusted calls a running process with an active revision runs that revision's configuration |
| `AgreementLimits.ActivationOutcome` | core/internal/app/apply_service.go:299-317 | exactly when an activation succeeds; success leaves the new configuration alive, with the new environment unless the process was reloaded; failure leaves the old configuration unless a reload that reported failure took effect |
| `AgreementLimits.SuccessRuns` | core/internal/app/apply_service.go:111-206 | after a successful apply the returned revision is alive, whatever the calls answered on the way, unless the manager is stale, and then no other lives |
| `AgreementLimits.ApplyDecides` | core/internal/app/apply_service.go:167-205 | from agreement, an apply ends in agreement exactly unless it activates another configuration and a failed reload took effect, or a working activation was not followed by a good health check and by the mark or an undo that took effect |
| `AgreementLimits.RestoreDecides` | core/internal/app/apply_service.go:467-503 | the same for restore: a working activation must be followed by a good health check, a valid clock, and the write or compensating calls that reach the process |
| `AgreementLimits.AgreesExactly` | core/internal/app/apply_service.go:79-506 | in every run a live process has the active revision's configuration at every moment exactly when every apply and restore settles; no other action can break it |
| `EndToEnd.LiveConfiguration` | core/internal/app/apply_service.go:79-506 | whenever nothing is pending in such a run without mutations inside an apply, every live process has the configuration the current tables compile to |
| `EndToEnd.LiveProcessServesTheTables` | core/internal/app/apply_service.go:79-506 | and so serves a share on a request exactly when the access-control list in the current tables allows it |
| `ApplyLimits.Initial` | core/internal/storage/revision_repository.go:15-19 | the empty database and a manager without process satisfy all invariants |
| `ApplyLimits.FirstApply` | core/internal/app/apply_service.go:111-206 | when every call works, the first apply of a valid state creates revision 1, makes it active, launches Caddy with its configuration and environment, and leaves nothing pending, whatever lands meanwhile |
| `ApplyLimits.ImportIsAdmissible` | core/internal/storage/config_repository.go:20-180 | an import is one of the mutations the runs quantify over |
| `SecretLimits.SecretsArrive` | core/internal/app/apply_service.go:299-343 | after a successful apply nothing lives if asking about the environment leaves the manager stale; otherwise a process does, and it has the environment asked for exactly if it had it before, was not running, or needed another one that is not empty and answered the health check that chooses restart over reload |
| `SecretLimits.SecretsLinger` | core/internal/app/apply_service.go:337-343 | from a manager that is not stale, when no secret is needed any more, old ones stay in the process exactly if it was running with some |
| `SecretLimits.SecretsAreRead` | core/internal/dnsprovider/registry.go:55-75 | when the secrets arrive, every provider field of the running configuration expands in the process to the stored secret, or to nothing for an absent optional field |
| `ApplyLimits.SecondApply` | core/internal/app/apply_service.go:138-177 | applying again when nothing landed, the process answers and no other secrets are needed returns the same revision and changes neither database nor process |
| `ApplyLimits.FailedApplyPending` | core/internal/app/apply_service.go:183-203 | an apply that fails after it created a revision leaves that revision desired and marked as failed, and reported as pending |
| `CrashLimits.CrashRecovery` | core/internal/app/apply_service.go:167-181 | when no process lives, nothing answers for a dead one and a new one would start, an apply succeeds exactly when the manager has forgotten the dead process, or nobody has asked about it and no secret environment is needed; otherwise the manager is stale |
| `CrashLimits.StatusThenApply` | core/internal/caddy/runtime.go:259-269 | a status request before the apply is enough, whatever secrets are needed, unless the manager is stale already |
| `CrashLimits.StuckForever` | core/internal/caddy/runtime.go:310-320 | from a stale manager no run of the service launches anything while nothing answers, and every apply, start, restart and restore fails |
| `CrashLimits.OnePollSticks` | core/internal/caddy/certificate_status.go:53-60 | a first apply, a crash and one certificate-status request lead there |
| `ApplyLimits.RestoreSucceedsExactly` | core/internal/app/apply_service.go:439-506 | restore of a stored revision succeeds exactly when the outside calls of the branch it takes do; recompilation and byte comparison never reject it |
| `ApplyLimits.ClashBlocksApply` | core/internal/app/apply_service.go:129-132 | if a provider left behind clashes in name, every apply after the restore fails |
| `ApplyLimits.RestoreThenApply` | core/internal/app/apply_service.go:138-165 | applying right after a restore returns the restored revision exactly when no other provider was stored |
| `Witnesses.LostBySuccess` | core/internal/app/apply_service.go:167-205 | a mutation that lands inside a first apply, after which nothing is pending and the tables differ from the active configuration |
| `Witnesses.LostByFailure` | core/internal/app/apply_service.go:138-177 | the same with an apply that fails |
| `Witnesses.ClashReached` | core/internal/app/dns_provider_service.go:93-160 | a provider is applied, deleted, created again under its name, and the first revision restored: the restore succeeds and every later apply fails |
| `Witnesses.ShadowReached` | core/internal/domain/settings.go:54-56 | tables the program accepts, with a base path that ends in a star, whose routes hide a share from a client who may read it |
| `Witnesses.DisagreeByApply` | core/internal/app/apply_service.go:178-193 | a run after which an apply, whose health check fails after a reload that worked, leaves a live process off the active configuration |
| `Witnesses.DisagreeByRestore` | core/internal/app/apply_service.go:467-479 | the same with a restore |
| `Witnesses.SecretMissing` | core/internal/app/apply_service.go:299-317 | a changed secret, a degraded process and a successful apply after which the process lacks the secret |
| `Witnesses.SecretStays` | core/internal/app/apply_service.go:337-343 | a dropped DNS challenge and a successful apply after which the process keeps the secret |
| `CaddyRenewal.RenewalAdmin.StartRenewal` | caddy/caddy-renewal/renewal.go:147-176 | registers a job unless one is active for the hostname |
| `CaddyRenewal.RenewalAdmin.HandleCancel` | caddy/caddy-renewal/renewal.go:124-144 | accepts a cancel exactly for an active job, and marks it |
| `CaddyRenewal.RenewalAdmin.EndContext` | caddy/caddy-renewal/renewal.go:141-143 | the cancel call after the unlock ends the context of the job and changes nothing else |
| `CaddyRenewal.RenewalAdmin.FinishRenewal` | caddy/caddy-renewal/renewal.go:178-198 | ends a job as cancelled, failed or succeeded |
| `CaddyRenewal.NormalizeTwice` | caddy/caddy-renewal/renewal.go:234-240 | normalizing twice changes nothing unless the normalized name still ends in a dot or in white space |
| `CaddyRenewal.TwoSpellings` | caddy/caddy-renewal/renewal.go:147-240 | requests with one and with two trailing dots lead to two active jobs |
| `CaddyRenewal.AnyInterleaving` | caddy/caddy-renewal/renewal.go:111-198 | in every interleaving: one active job and one goroutine per hostname, terminal states never change, the error code marks failure, and a canceling job was asked to cancel |
| `CaddyRenewal.AcceptedCancelWins` | caddy/caddy-renewal/renewal.go:135-188 | a job whose cancel was accepted ends cancelled, whatever its renewal reports |
| `CaddyRenewal.SuccessIsEarned` | caddy/caddy-renewal/renewal.go:178-198 | a job succeeds exactly when its renewal did and nothing had cancelled it |
| `DaemonRenewal.RenewalManager.ForceRenew` | core/internal/caddy/certificate_renewal.go:52-88 | asks whether the process runs, which takes a waiting exit message, and enters a renewal if it does, unless one is issuing for the hostname or the certificate cannot be read |
| `DaemonRenewal.RenewalManager.StartRefusedLocked` | core/internal/caddy/certificate_renewal.go:91-95 | removes the entry if it is still this one |
| `DaemonRenewal.RenewalManager.RetireLocked` | core/internal/caddy/certificate_renewal.go:159-184 | removes and cancels the entry if it is still this one |
| `DaemonRenewal.RenewalManager.FailLocked` | core/internal/caddy/certificate_renewal.go:192-206 | marks the entry failed and cancels it if it is still this one |
| `DaemonRenewal.RenewalManager.FindIssuing` | core/internal/caddy/certificate_renewal.go:216-223 | a cancel request captures exactly the issuing entry of its hostname |
| `DaemonRenewal.RenewalManager.CancelRenewalsLocked` | core/internal/caddy/certificate_renewal.go:241-248 | cancels exactly the current entries and empties the map |
| `DaemonRenewal.AnyInterleaving` | core/internal/caddy/certificate_renewal.go:43-248 | in every interleaving of requests, goroutines, cancels and restarts: entries sit under their hostname, a failed or retired renewal has ended its context or is about to, and a goroutine that watches with a live context belongs to the current issuing entry |
| `DaemonRenewal.NeverOverwritten` | core/internal/caddy/certificate_renewal.go:65-87 | an issuing entry is never overwritten |
| `DaemonRenewal.StepProgress` | core/internal/caddy/certificate_renewal.go:199-210 | a renewal moves from issuing to failed only, and its context stays ended |
| `DaemonRenewal.SupersededIsHarmless` | core/internal/caddy/certificate_renewal.go:159-197 | a late step of another renewal's goroutine changes neither the entry nor its renewal |
| `DaemonRenewal.WrongCancelIsLate` | core/internal/caddy/certificate_renewal.go:186-240 | a watcher whose timer fired and a cancel request after its unlock, which both ask Caddy to cancel by hostname, reach another renewal exactly when their own has ended or is about to |
| `DaemonRenewal.CancelReaches` | core/internal/caddy/certificate_renewal.go:214-240 | whatever happens between the unlock and the call, a cancel request reaches the renewal it captured or one entered since, never an older one |
| `DaemonRenewal.WrongCancelHappens` | core/internal/caddy/certificate_renewal.go:186-196 | a run in which a watcher's cancel reaches another renewal |
| `DaemonRenewal.WrongRequestHappens` | core/internal/caddy/certificate_renewal.go:214-240 | a run in which a cancel request's does |
| `LogStore.Store.Append` | core/internal/logging/store.go:80-89 | adds the record with the next identifier, shifting the array in place when it is full |
| `LogStore.Store.Add` | core/internal/logging/store.go:63-90 | prepares the record and appends it |
| `LogStore.Store.Find` | core/internal/logging/store.go:92-131 | the backward loop gives the first page of the matching records, newest first, with the cursor of the last one if there are more |
| `LogPaging.HoldsTheLast` | core/internal/logging/store.go:63-90 | after n additions the store holds the last min(n, capacity) records, numbered without gaps |
| `LogPaging.SelectedExactly` | core/internal/logging/store.go:108-129 | a query selects exactly the matching records, in descending order |
| `LogPaging.WalkExact` | core/internal/logging/store.go:92-131 | following the cursor while others add returns only records that matched at the first page, strictly descending |
| `LogPaging.WalkComplete` | core/internal/logging/store.go:92-131 | following the cursor while others add returns every matching record that is not evicted before it is reached |
| `LogPaging.WalkEnds` | core/internal/logging/store.go:123-127 | following the cursor ends after at most as many pages as records were stored at the first |
| `LineWriter.LineWriter.Write` | core/internal/logging/store.go:255-275 | the loop emits every finished line whole, emits an unfinished one cut at 64 KiB once it outgrows the buffer, and logs the emitted lines stripped and without the empty ones |
| `LineWriter.LineWriter.Flush` | core/internal/logging/store.go:277-284 | emits the unfinished line, if any, and empties the buffer |
| `LineWriter.WriteAgainstReference` | core/internal/logging/store.go:255-275 | one Write emits the finished lines and keeps the tail, which is cut and emitted when it outgrows the buffer |
| `LineWriter.BufferBounded` | core/internal/logging/store.go:261-268 | the buffer never exceeds 64 KiB after a Write |
| `LineWriter.ChunkingExact` | core/internal/logging/store.go:255-275 | any split of a stream into writes hands exactly its lines to emit and keeps its tail, exactly when no unfinished line outgrows the buffer at the end of a write |
| `LineWriter.LogExact` | core/internal/logging/store.go:255-292 | the log is that of the stream's lines exactly when at the end of every write the unfinished line fits, or is one byte too long, ends in a single carriage return, and the newline comes next |
| `LineWriter.SplitMatters` | core/internal/logging/store.go:255-292 | a longer line split before its newline is logged differently from the unsplit one, except in that case |
| `LineWriter.LogDiffers` | core/internal/logging/store.go:255-292 | a line of 65537 bytes for which it is |

## Left out

- Text: `strings.ToLower` and `ToUpper` are modelled on ASCII letters only, and strings as sequences of characters without invalid UTF-8.
- JSON, YAML and SHA-256: bodies are the values they encode, digests are an injective constructor; the size and node limits of `configfile.Parse` and the YAML printer are not modelled.
- bcrypt, AES-GCM, X.509, random identifiers and clocks: parameters or opaque values; password checks are represented by the account a client proved to know.
- Caddy: the interpreter knows the handlers and matchers this program emits; it has no case folding, percent decoding, path cleaning, glob in the middle of a pattern, or placeholders inside a base path.
- SQLite: tables are maps under their unique columns, rows hold the values that scanning returns, and a failing transaction changes nothing; there is one settings row and at most one TLS row.
- The trigger that sets the dirty flag on every table write is taken as a rule (`RevisionProperties.Mutated`), and so is that services store only rows that pass their own validation.
- Provider identifiers: a run assumes one creation time for each, because they are random and `created_at` is never updated; without that, restoring a reused identifier could store a row that is older than its own creation.
- Legacy revisions without a state hash or snapshot.
- Revisions.RevisionRepository.FindByIdentity: does not model the fallback search among legacy revisions.
- Error messages: most failures carry no text; where a code decides something (`last error`, a failed revision) it is kept.
- The app version, the error summary and `updated_at` of the runtime-state row.
- The configuration file that `writeConfigAtomically` replaces: only whether writing succeeds.
- The calls of `cancelRenewalsLocked` inside Start, Reload and Stop are the `RuntimeRestart` event of `DaemonRenewal`; the two state machines are not composed.
- Goroutines: each critical section is one step and their interleaving a sequence of steps; polling intervals and timeouts are choices of the environment.
- The apply lock is a flag: a second call is refused, and what other services do meanwhile appears as the mutations that land during a call.
- Crashes, status, certificate and renewal requests of a run come between calls of the service; inside an apply, start or restore only mutations land. `RuntimeProperties.OneLiveProcess` covers them between any two calls of the manager.
- ConfigService: hashing temporary passwords, generating identifiers and checking that share paths exist.
- Discovery's HTML listing, response headers and method handling.
- The redaction expressions of `sanitizeMessage` are a parameter, and log field values are strings; `LineWriter` stops at the lines it hands to the store, before they are read as JSON.
- HTTP handlers, the command line, the API client, native front ends, service managers, diagnostics and endpoint status.
- Acl.FaithfulExactly: reads a star or bracket inside the base path literally, where Caddy would match a pattern, because Caddy's matcher is not part of this model.
- ConfigFile.Export: stated for states as the tables give them (distinct ids, names and slugs); for other inputs the program exports some document as well.
- ConfigFile.ExportPermissions: requires distinct users with distinct names, as `ConfigFile.Export` does; for repeated ones the program keeps the last.
- ConfigFile.ExportShares: the same.
- ApplyService.ApplyService.Apply: requires that no two stored revisions share a number, which is a unique column.
- ApplyService.ApplyService.RecordDesired: the same.
- ApplyService.ApplyService.Start: the same.
- ApplyAgreement.RunningIsActive: the trust in outside calls is only sufficient; `AgreementLimits.AgreesExactly` gives the exact condition.
