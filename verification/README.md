# Blocks SDK: a proved model of its credential and session logic

The Blocks repository holds a command-line program that logs in to deployments and keeps an
API key for each, a browser widget that signs users in through a popup and refreshes their
sessions, and a few smaller tools. This project states, in Dafny, what the parts of it that
decide where a credential goes are meant to guarantee, and proves it for all inputs, all
failures and all interleavings the model has. `dafny verify dfyconfig.toml` checks it.

## What is modelled

**The `.env` editor** (`EnvFile`, `EnvBatch`, `EnvRepeat`, `EnvDisk`, over `Text`, `Lists` and
`Shell`). Lines are parsed, printed and rewritten in place as the Go code does. A batch of
mutations is proved to be a map update that every reader of the file sees alike, and which
batches can be applied twice is decided exactly; a written line is proved to read back, for
this program and for a POSIX shell; and a rewrite is followed through its system calls, each of
which may fail, with a crash possible after any of them.

**The profile store, logins and the request context** (`Deployments`, `CliContext`, `Login`,
`CredentialHistory`, `OrgPicker`, `LoginEnv`). Every cached key carries the deployment it was
minted at, which the program does not record. Histories of commands are sequences of stores; the
theorems say where every key was minted and where any later invocation can send it. One publish
is followed from the resolved context to the key its requests carry, and one login to the key
and the pins it leaves in `.env`.

**What a project file may do to the process and to its child** (`ProcessEnv`, `ChildEnv`),
and **forgetting a deployment** (`ProfileRemoval`), which combines the `.env` rewrite, the
pins and the store.

**The embedded sign-in widget** (`AgentSet`, `Popup`, `SessionStorage`, `RefreshManager`,
`EmbedProtocol`, `ProtocolOutcomes`, `Page`, `Partition`). The popup's timers are proved against a three-state
reference. The stored sessions and their index are kept in agreement while writes throw. The
protocol interleaves sign-ins, refreshes and sign-outs at every await of theirs from the
session lookup on, those between a sign-in's token and its last client among them.

**Smaller cores**: the structural diff of two agent cards (`CardDrift`, `CardCollisions`), the
paged registry listing and the batched status query (`Registry`), and the command that repeats
a search (`SearchCommand`).

Two parameters stand for code outside this model: `Build.norm` is the comparable form of a
base URL (`profiles.NormalizeBaseURL`), of which only is used that the empty string has none,
and `Build.valid` is `origin.Validate`.

## What the proofs found

Where code and comments disagree, the model follows the code.

- A login that names no deployment, run for a profile that does not exist yet with
  `BLOCKS_CDM_URL` exported, mints its key at the redirected deployment and stores it in a
  profile that describes Blocks Network: the redirect is consulted only when an active profile
  resolves (cli/cmd/helpers.go:114-122), although cli/cmd/login.go:854-859 says that this is the
  state the tier exists to prevent. `blocks login` asks for the deployment in that state
  (cli/cmd/login.go:366-407), and an answer always names one; so it takes a key that was
  supplied, or a stdin that is no terminal without `--no-input`. `blocks init` asks whether to
  log in but not where (cli/cmd/init.go:838-861); it refuses a profile that is not stored, and
  gets there only by a `BLOCKS_PROFILE` that is blank or has space around a stored name.
  `HowALoginMisfiles` is the exact condition and `BlankProfileMisfiles` the shortest input of
  init. The next plain invocation with that profile sends the key to Blocks Network.
  `AnyRedirectMisfiles` constructs such a login, `LoginKeepsHomeExactly` says exactly which
  logins misplace a key, `MisfiledKeyGoesAstray` where the misplaced one goes, and
  `StoredKeysGoHome` that no other command does, from a store with every key at home.
  `MigrationKeepsHomeExactly` says when the first store is one: a legacy key is filed under
  Blocks Network wherever it was minted.
- The refusal of a selected profile that is not stored trims `BLOCKS_PROFILE`
  (cli/cmd/root.go:793-798), and the store is then asked for the name as it stands
  (cli/internal/profiles/profiles.go:182-199). So what cli/cmd/root.go:814-823 rules out can
  still happen: a command told to use a profile runs with none. `AdmittedHasItsProfile` says
  exactly when.
- That the pin a login writes into `.env` always names the deployment its key was minted at
  (cli/cmd/login.go:1238-1239) holds of every login but the blind ones: `PinDescribesTheMint`
  and, in the file, `PairedUnlessBlind`.
- A bare login to stock Blocks Network discards cached keys that
  cli/cmd/login.go:776-778 says it keeps: `ReloginKeepsKeys` is the exact condition.
- Removing a profile can leave in `.env` the pin or the key that the loader uses. Where names
  are case-sensitive, a line in another spelling in front of it hides it from the reader that
  decides, contrary to cli/internal/auth/login.go:1050-1057: `LoaderKeepsHiddenPin`,
  `LoaderKeepsHiddenCdmPin` and `LoaderKeepsHiddenKey` are the exact conditions, and `HiddenPin`
  builds such a file for any of the three.
- A batch applied again can move lines: `IdempotentExactly` says which batches do, and
  `RepeatedNameIsNotIdempotent` gives the shortest.
- A refused refresh erases whatever session its partition holds, even one that a later sign-in
  stored after the refreshing manager was signed out (embed-auth/src/refresh.ts:194-206):
  `WhatErasesASession` and `LateRefusalErasesNewSession`.
- The `try` around a resume also covers the start of its clients, each of which fetches a
  configuration and asks the manager for a token (embed-auth/src/api.ts:205-253,
  sdks/node/src/runtime/task-client.ts:563-588). If the page signs out meanwhile and then signs
  in again, the first call erases the second's session and unregisters its live manager:
  `SignOutOvertakesResume` and `LateClientErasesNewSession`.
- In both cases the later sign-in's manager keeps serving when the page signs out, against
  embed-auth/src/manager-registry.ts:5-12: signOut goes by the stored sessions and the registry.
  `SignOutReachesListedOnly` says that it clears a live registered manager if and only if its
  partition has a session, and `SignOutIsFinal` that it touches no unregistered one.
- Two differences can be reported as one text. `SameTextExactly` says which paths are: those
  with the same keys once each key is split at its dots and empty ones in front are dropped.
  `RepeatsExactly` is the condition on two cards, `ShapeDecides` that on the keys of one, and
  `DottedFieldReportedTwice` an input.
- Between its two writes `setSession` leaves a blob that no index entry leads to; a storage
  where the second write failed is found that way by the next backend, and the backend is made
  anew on every call (embed-auth/src/api.ts:47-49): `BlobWrittenAlone`.

## Model

| member | source | states |
|---|---|---|
| EnvFile.SameEnvVariableIsEquivalence | cli/internal/auth/login.go:1021-1027 | naming one variable is an equivalence, though the test looks at one side's prefix only |
| EnvFile.SameEnvVariableCases | cli/internal/auth/login.go:1000-1027 | spellings are folded inside the CLI's own namespace and not outside it |
| EnvFile.AssignsExactly | cli/internal/auth/login.go:974-984 | a line is an assignment exactly if, space aside, it has an "=" and begins with no "#" |
| Text.AsciiSpaces | cli/internal/auth/login.go:974-984 | of ASCII, the blank, the tab and the four marks behind it are trimmed |
| EnvFile.ValueExactly | cli/internal/auth/login.go:517-526 | one pair of quotes of either kind comes off a value, and nothing else does |
| EnvFile.OneVariableExactly | cli/internal/auth/login.go:1000-1027 | two names are one variable if they are equal, or equal but for case behind the CLI's prefix |
| EnvFile.AsciiFolds | cli/internal/auth/login.go:992-1019 | ASCII letters fold to upper case and other ASCII stays |
| EnvFile.WrittenExactly | cli/internal/auth/login.go:470-499 | a value of harmless characters is written as it is and any other in single quotes |
| EnvFile.CheckIsAcceptable | cli/internal/auth/login.go:556-569 | a mutation is refused exactly when its name is no variable name or it sets a value with a newline, return, NUL or single quote |
| EnvFile.RefusedExactly | cli/internal/auth/login.go:556-583 | which refusal a mutation gets: of its name, or of the first in order of the four characters |
| EnvFile.EncodedIsTight | cli/internal/auth/login.go:492-526 | taking one pair of quotes off an encoded value gives the value back, and trimming cannot touch it |
| EnvFile.AssignmentRoundTrip | cli/internal/auth/login.go:633-634 | parsing a written line returns the name and the value, for every valid name and every value |
| EnvFile.SplitGivesLines | cli/internal/auth/login.go:701-705 | no line that is read holds a newline or a return |
| EnvFile.LinesRoundTrip | cli/internal/auth/login.go:701-705 | joining lines with newlines and splitting them again changes nothing |
| EnvFile.LineEndsExactly | cli/internal/auth/login.go:701-705 | a file is split at newlines, returns and pairs of both, a pair counting once, and nowhere else |
| EnvFile.WrittenLineIsALine | cli/internal/auth/login.go:423-451 | an accepted assignment stays on one line |
| EnvFile.DropEnvAssignments | cli/internal/auth/login.go:658-666 | exactly the assignments of the variable go, and the report says whether there was one |
| EnvFile.SetEnvAssignment | cli/internal/auth/login.go:633-650 | the new line stands where the first assignment stood, or last, and no other assignment is left |
| EnvFile.CheckAll | cli/internal/auth/login.go:585-590 | the refusal reported is the first refused mutation's |
| EnvFile.ApplyEnvMutations | cli/internal/auth/login.go:585-604 | a batch with one refused mutation changes nothing; an accepted one is the fold of its mutations, and reports what it assigned and what it found to remove |
| EnvFile.EnvFileValue | cli/internal/auth/login.go:1063-1074 | the value, not empty, of the first line that gives the variable one under any spelling, and the empty one exactly if none does |
| EnvBatch.BatchRefinesMapUpdate | cli/internal/auth/login.go:585-666 | a variable whose last mutation sets it stands on one line with that value, one whose last removes it on none, and any other on the lines it stood on |
| EnvBatch.ReadersAgreeAfterBatch | cli/internal/auth/login.go:614-621 | first-wins, last-wins and this CLI's reader agree on every variable a batch named, and read the others as before |
| EnvBatch.BatchSparesUnmentioned | cli/internal/auth/login.go:606-612 | every comment, blank and foreign assignment survives verbatim and in order |
| EnvBatch.NothingReportedNothingChanged | cli/internal/auth/login.go:377-379 | a batch that reports nothing left every line alone, so the file may be left unwritten |
| EnvBatch.NothingToCreate | cli/internal/auth/login.go:399-415 | no file is called for by removals alone |
| EnvRepeat.BatchIsIdempotent | cli/internal/auth/login.go:585-604 | a batch that only sets or only removes each variable, however often, can be applied again without effect |
| EnvRepeat.IdempotentExactly | cli/internal/auth/login.go:585-666 | a batch can be applied again to every file without effect if and only if it never removes a variable, sets it for good, and only then first mentions one that it never removes |
| EnvRepeat.OvertakingIsSeen | cli/internal/auth/login.go:633-666 | any batch that does so swaps the two variables the second time, on a file that was absent |
| EnvRepeat.OnlyTheRestMatters | cli/internal/auth/login.go:585-666 | two files that differ only in lines the batch removes become the same file |
| EnvRepeat.RepeatedNameIsNotIdempotent | cli/internal/auth/login.go:585-604 | a batch that removes and sets one of two variables swaps their lines when applied again |
| EnvBatch.ShellReadsWrittenLine | cli/internal/auth/login.go:478-499 | a POSIX shell that sources a written line, and this program, get the name and value that were written |
| EnvBatch.InertIsPlain | cli/internal/auth/login.go:470-476 | no byte written without quotes means anything to a shell |
| EnvDisk.NewContentReadsBack | cli/internal/auth/login.go:380-416 | the bytes of a rewrite split into the batch's lines, and a created file ends in a newline |
| EnvDisk.RemovedExactly | cli/internal/auth/login.go:1083-1106 | a removal reports the variables that had a line, in the order asked for |
| EnvDisk.RewriteMeansTheBatch | cli/internal/auth/login.go:364-421 | the file a rewrite leaves means what the batch says, variable by variable, and keeps the lines about nothing in it, verbatim and in order, with at most two blank ones behind them |
| EnvDisk.PlanRewrite | cli/internal/auth/login.go:364-421 | a rejected batch is written nowhere; a batch is left unwritten exactly if it assigns nothing and would remove nothing, or has no file to remove it from; otherwise the content to write means the batch |
| EnvDisk.Disk.FillTemp | cli/internal/auth/login.go:747-774 | until the rename the target's entry is untouched, and only a temporary that is complete, synced and of the right mode, in memory and on disk, may be renamed |
| EnvDisk.Disk.ReplaceEnvFile | cli/internal/auth/login.go:736-776 | after a crash at any call the target holds the whole old file or the whole new one under mode 0600; no other file changes; a temporary stays exactly if a rewrite that made one fails and it cannot be removed |
| EnvDisk.Disk.ApplyEnvAt | cli/internal/auth/login.go:364-421 | all of a batch or none of it, and no other file; it fails exactly where the file cannot be read, a mutation is refused or a call of a needed rewrite fails, and says which; crash-safe throughout; where there is nothing to write no call is made |
| EnvDisk.Disk.RemoveEnvKeys | cli/internal/auth/login.go:1083-1106 | the keys go together or not at all, no file is created, it fails exactly where the rewrite does, and the report is what had a line |
| Deployments.SameDeploymentIsEquivalence | cli/internal/profiles/profiles.go:284-291 | the comparison behind every theorem about keys is an equivalence of deployments |
| Deployments.SameBaseURLExactly | cli/internal/profiles/profiles.go:284-291 | what cannot be compared is the same as nothing; any other URL is the same as what compares alike |
| Deployments.FindDefaultOrgKey | cli/internal/profiles/profiles.go:329-343 | the key found is the default organization's, else the only one, and is one the profile holds |
| CliContext.TargetIsDescribed | cli/internal/clictx/clictx.go:246-270 | while the active profile is the target it describes the deployment requests reach, an empty base URL only a Network that nothing redirected |
| CliContext.RequestsGoTo | cli/internal/clictx/clictx.go:203-244 | a backend in the environment decides where requests go, whatever the profile, the build and the remote configuration are; then the profile's base URL, then the build's default, then the remote configuration |
| CliContext.TargetExactly | cli/internal/clictx/clictx.go:264-273 | exactly when the active profile is what an invocation targets |
| CliContext.RedirectsExactly | cli/internal/clictx/clictx.go:358-364 | exactly which values of the variable count as a redirect |
| CliContext.ActiveExactly | cli/internal/profiles/profiles.go:182-199 | the flag, the variable and the saved name, in that order, select the profile |
| CliContext.Context.constructor | cli/internal/clictx/clictx.go:203-244 | the resolved target fields follow from the environment, the profile and the build, and nothing has been read or fetched |
| CliContext.Context.RemoteBackendURL | cli/internal/clictx/clictx.go:322-342 | the remote configuration is fetched at most once and its first answer, or failure, is final |
| CliContext.Context.EffectiveBackendURL | cli/internal/clictx/clictx.go:307-316 | the origin all requests use, tier by tier; a local tier never causes a fetch |
| CliContext.Context.ResolveCredential | cli/internal/clictx/clictx.go:517-572 | the tiers in order, and a stored key only while the active profile is the target |
| CliContext.Context.EffectiveCredential | cli/internal/clictx/clictx.go:484-495 | a key on the command line decides, then stdin if it is to be read, then the variable, whatever else there is; every caller gets the same credential; stdin is read at most once and only then; and over a store with every key at home a profile's key was minted at the target |
| CliContext.StoredTiers | cli/internal/clictx/clictx.go:538-567 | without a supplied key, a usable key of the default or only organization decides, and else the legacy key; both are withheld from a target the profile is not |
| CliContext.LegacyTier | cli/internal/clictx/clictx.go:553-572 | without a key in the profile the legacy file decides |
| CliContext.Context.SelectOrg | cli/internal/clictx/clictx.go:513-515 | a selected organization's key is what later calls return, and one minted at the target keeps every key at home |
| CliContext.ContextAsksTheTarget | cli/internal/clictx/clictx.go:246-270 | the resolved context answers the target question as the theorems about histories pose it |
| CliContext.AdmittedHasItsProfile | cli/cmd/root.go:793-843 | past the refusal an invocation has the profile it was told to use unless only the variable names one, and not as it stands |
| Login.BareExactly | cli/cmd/login.go:366-407 | exactly which invocations log in without naming a deployment: login where there is no instance and no --network and the target is settled, a key was supplied or nobody can be asked; init where its offer is taken and it was not refused its profile |
| Login.NamedIsChosen | cli/cmd/login.go:366-407 | an instance, --network and an answer to the prompt are what the login runs with, and no login comes of --no-input where one is needed |
| Login.SettledExactly | cli/internal/clictx/clictx.go:465-467 | exactly when a login does not ask where to go |
| Login.LoginGoesTo | cli/cmd/login.go:838-897 | a login reaches, records and mints at what it was pointed at: the instance, Blocks Network, the environment's backend whatever the profile is, or the profile's |
| Login.LoginPointedNowhere | cli/cmd/login.go:838-859 | pointed nowhere it mints at the build's default, the stock network or a redirect, and records only the redirect, and only with an active profile |
| Login.LoginLands | cli/cmd/login.go:1018-1057 | which profile a login writes to, from what it was told and the profiles alone |
| Login.FindProfileDescribing | cli/cmd/login.go:1067-1085 | the least name among the profiles that describe the deployment, in whatever order they are visited |
| Login.ProfileStore.ResolveProfileName | cli/cmd/login.go:1018-1057 | the profile a login writes to |
| Login.ProfileStore.MergeDiscovery | cli/cmd/login.go:1101-1139 | the base URL recorded is the deployment reached, metadata is taken only for the login's own deployment, and keys are not touched |
| Login.RepointedMetadataIsItsOwn | cli/cmd/login.go:738-755 | metadata found in a repointed profile was reported by the login's own deployment |
| Login.ProfileStore.Updated | cli/cmd/login.go:722-764 | a repointed profile keeps no key and no metadata of the deployment it described |
| Login.ProfileStore.LoginToProfile | cli/cmd/login.go:690-770 | one profile changes and becomes active, and it is the selected one, Blocks Network's own on --network, the instance's, or the one that describes the deployment; its keys stay exactly if it described that deployment already, beside the new one, and no other deployment's metadata is left |
| Login.ProfileStore.ClearActiveProfileKeys | cli/cmd/logout.go:176-201 | the selected profile loses its keys and default and keeps its deployment; no other changes |
| Login.ProfileStore.ResolveOrgPublishKey | cli/cmd/publish_org.go:152-183 | a usable cached key is returned and nothing stored; otherwise the minted one is returned and cached |
| Login.ProfileStore.SetProfileDefaultOrg | cli/cmd/publish_org.go:216-228 | only the default organization of an existing profile changes |
| Login.ProfileStore.SetActive | cli/internal/profiles/profiles.go:202-216 | only an existing profile becomes active |
| Login.ProfileStore.Remove | cli/internal/profiles/profiles.go:236-252 | the default stays, and an active profile that goes leaves the default active |
| Login.ProfileStore.Rename | cli/internal/profiles/profiles.go:258-282 | a profile keeps its data under a free name and the active selection follows it |
| CredentialHistory.MisfilingIsBlind | cli/cmd/helpers.go:114-122 | in a stock build the logins that misplace a key are the bare ones naming a new profile under a redirect |
| CredentialHistory.HowALoginMisfiles | cli/cmd/login.go:332-407 | exactly which invocations of login and init misplace a key; init only where BLOCKS_PROFILE has space around it |
| CredentialHistory.BlankProfileMisfiles | cli/cmd/init.go:838-861 | a blank BLOCKS_PROFILE on the first run is such an input of init |
| CredentialHistory.MintedWhereRecorded | cli/cmd/login.go:838-897 | a login mints its key at the deployment its profile will describe if and only if it is not blind |
| CredentialHistory.KeptKeysStayAtHome | cli/cmd/login.go:726-737 | a login that repoints a profile first empties its keys |
| CredentialHistory.ReloginKeepsKeys | cli/cmd/login.go:772-796 | exactly which logins keep cached keys |
| CredentialHistory.LoginKeepsHomeExactly | cli/cmd/login.go:642-770 | a login leaves every key at the deployment its profile describes if and only if it is not blind |
| CredentialHistory.PickKeepsHome | cli/cmd/publish.go:172-211 | the organization picker mints only into a profile that describes where it mints |
| CredentialHistory.KeysStayAtHome | cli/cmd/login.go:726-733 | from any store with every key at home, every history without a blind login reaches only such stores |
| CredentialHistory.MigrationKeepsHomeExactly | cli/internal/profiles/profiles.go:99-120 | the store that the first load makes is one of those exactly if it files no legacy key, or one minted at Blocks Network |
| CredentialHistory.StoresStaySafe | cli/cmd/login.go:726-733 | the same for every build, up to profiles without a base URL in a build that never targets them |
| CredentialHistory.StoredKeysGoHome | cli/internal/clictx/clictx.go:538-551 | after any such history, in any environment, a stored key goes only to the deployment it was minted at |
| CredentialHistory.PickedKeyGoesHome | cli/cmd/publish.go:192-206 | so does the key of an organization that was picked, cached or minted |
| CredentialHistory.AnyRedirectMisfiles | cli/cmd/helpers.go:114-122 | every stock build allows such a login, with any new name and any redirect |
| CredentialHistory.MisfiledKeyGoesAstray | cli/cmd/login.go:1018-1039 | a misplaced key is offered to Blocks Network by the next plain invocation |
| OrgPicker.TargetHoldsItsOwn | cli/cmd/login.go:726-733 | after any history without a misfiling login, a profile that is the target holds only its deployment's keys |
| OrgPicker.HomeIsTheDestination | cli/internal/clictx/clictx.go:538-551 | a key that a context knows to be at home goes, in a request, to where it was minted |
| OrgPicker.ApplyOrgPicker | cli/cmd/publish.go:172-211 | the picker leaves the store that a PickOrg command leaves; a supplied key is sent as it is, any other call sends the picked organization's, minted at the target; it ends without exactly where there is no credential or no profile |
| OrgPicker.Resolve | cli/internal/clictx/clictx.go:203-244 | a context resolved after any such history is one that knows its keys to be at home |
| OrgPicker.Publish | cli/cmd/publish.go:302-313 | a publish sends a key exactly where it has a destination and a credential, and the key from the profile, cached or minted for the picked organization, was minted where its requests go |
| LoginEnv.PinDescribesTheMint | cli/cmd/login.go:1230-1255 | the pin names the deployment the key was minted at if and only if the login was not blind |
| LoginEnv.TargetingIsRead | cli/cmd/login.go:1225-1229 | whatever the file held, the CLI, its loader and a reader that takes the last assignment all find the pin, its endpoint and the key |
| LoginEnv.PairedUnlessBlind | cli/cmd/login.go:1186-1229 | the file pairs the key with pins of the deployment it was minted at if and only if the login was not blind |
| LoginEnv.MaybeWriteEnv | cli/cmd/login.go:1208-1230 | the same of the file on disk, or the file is as it was, exactly where it cannot be read or written or a value is refused |
| ProcessEnv.LoadLines | cli/cmd/root.go:343-393 | each variable reads as the shell left it, or, if empty there and on the allowlist, as the file's first value; the record has exactly the assignments that count, in every spelling |
| ProcessEnv.AcceptsExactly | cli/cmd/root.go:267-284 | seven names, in any case, and no other can be set by a project file |
| ProcessEnv.FileValueExactly | cli/cmd/root.go:343-393 | what the file gives a variable is its first value that is not empty |
| ProcessEnv.IsKnownDeployment | cli/cmd/root.go:627-637 | a deployment is known exactly when some profile describes it |
| ProcessEnv.WithoutReads | cli/cmd/root.go:136-144 | a withdrawal empties the variable and every recorded spelling, and no other |
| ProcessEnv.Process.constructor | cli/cmd/root.go:343-393 | as the process starts, what the shell supplied and what the file supplied are told apart |
| ProcessEnv.Process.EnvFileSuppliedCLIVar | cli/cmd/root.go:208-219 | names the file exactly when one of its entries is the variable this platform reads |
| ProcessEnv.Process.DropProjectEnvValue | cli/cmd/root.go:136-144 | the value leaves the process and the record, and no variable the shell exported changes |
| ProcessEnv.Process.DeclineForeignBackendPin | cli/cmd/root.go:598-609 | a backend that only the file supplied is withdrawn exactly if no profile describes it |
| ProcessEnv.Process.DeclineForeignCDMPin | cli/cmd/root.go:735-747 | a CDM endpoint that only the file supplied is withdrawn exactly if it is not the chosen target's own |
| ProcessEnv.Process.PreRun | cli/cmd/root.go:479-518 | refused with nothing changed exactly if the command may not name a new profile and was told to use one; otherwise, for every file, shell and store, a surviving backend is the shell's or one some profile describes, a surviving CDM endpoint the shell's or the chosen target's, exactly the foreign pins go, from the process and from what a child is handed, and no exported value changes |
| ChildEnv.SetDefaultReads | cli/cmd/run.go:271-286 | a default shows only where a variable was absent or empty, and no other variable changes |
| ChildEnv.SetEnvDefault | cli/cmd/run.go:271-286 | the scan overwrites an empty entry in place or appends |
| ChildEnv.WithCLIVersion | cli/cmd/run.go:217-227 | the version is what the child reads, whatever stood there |
| ChildEnv.ProjectEnv | cli/cmd/root.go:101-111 | exactly the entries on record, sorted by name |
| ChildEnv.WithProjectEnv | cli/cmd/run.go:309-314 | the file's value stands where the environment has none |
| ChildEnv.WithTargetRuntimeEnv | cli/cmd/run.go:247-255 | the chosen deployment's two pointers, where nothing else set them |
| ChildEnv.WithAPIKey | cli/cmd/run.go:261-266 | the resolved key, where nothing else set one |
| ChildEnv.BuildChildEnv | cli/cmd/run.go:321-344 | what the child reads under every name |
| ChildEnv.WithdrawnPinStaysOut | cli/cmd/run.go:307-308 | the child reads a withdrawn pin under no spelling: only the shell's own value or the chosen target's pointer |
| ChildEnv.ProjectFileReachesChild | cli/cmd/run.go:288-300 | every entry on record reaches the child in its own spelling, taken by the CLI or not, with the process's value or one of the file's |
| ChildEnv.ShellWinsInChild | cli/cmd/run.go:303-305 | an exported value is what the child reads |
| ChildEnv.RunTargetExactly | cli/cmd/run.go:247-255 | an exported backend, else one the file pins and no decline took, else the selected profile's |
| ChildEnv.DefaultsReachChild | cli/cmd/run.go:217-266 | where nobody else gives them a value, the child gets the key, the target's origin and its endpoint; and always the version |
| ChildEnv.RunAgent | cli/cmd/run.go:307-344 | from the shell, the file and the profiles to the child: refused exactly for a profile that is not stored; an exported backend is the target; a foreign pin chooses none and reaches the child under no spelling; key, origin, endpoint and version reach it where nobody else gives them; where names are case-sensitive every exported value, and every variable of the file that no decline took, reaches it |
| ProfileRemoval.IsDescribedByAnother | cli/cmd/profile.go:230-240 | whether the deployment outlives the removal |
| ProfileRemoval.KeysOnlyHeldBy | cli/cmd/profile.go:252-269 | exactly the keys of this profile that no other holds |
| ProfileRemoval.PlanProfileRemoval | cli/cmd/profile.go:201-219 | refuses what the store would refuse, and otherwise describes what would be forgotten |
| ProfileRemoval.RemovingBoundKeysForgets | cli/cmd/profile.go:389-401 | afterwards no pin names the deployment; the API key is gone exactly when the backend pin went or only the removed profile held it; everything else stands |
| ProfileRemoval.ForgetsExactly | cli/cmd/profile.go:201-269 | what a removal does to the two pins and the key, from the file and the profiles alone |
| ProfileRemoval.RemoveDeploymentFromProjectEnv | cli/cmd/profile.go:303-345 | the file is cleaned, with exactly the variables reported that had to go and had a line, or left untouched, exactly where it cannot be read or rewritten; crash-safe, and not touched at all while the deployment survives |
| ProfileRemoval.RunProfileRemove | cli/cmd/profile.go:132-168 | it fails exactly where a step that it needs does; the profile is gone only if the file names its deployment no more or another profile describes it |
| ProfileRemoval.LoaderKeepsHiddenPin | cli/internal/auth/login.go:1050-1057 | the loader is still sent to the removed deployment exactly if it was before and the deciding reader saw another value; never where names fold |
| ProfileRemoval.LoaderKeepsHiddenCdmPin | cli/internal/auth/login.go:1050-1057 | the same of the endpoint the loader reads |
| ProfileRemoval.LoaderKeepsHiddenKey | cli/internal/auth/login.go:1050-1057 | the loader still hands out a key that only the removed profile held exactly if it did before, the deciding reader saw another key and no pin of the deployment; never where names fold |
| ProfileRemoval.HiddenPin | cli/internal/auth/login.go:1063-1074 | two spellings make the deciding reader and the loader disagree |
| ProfileRemoval.LowerCaseIsAnotherSpelling | cli/internal/auth/login.go:1000-1027 | the lower-case name is such a second spelling |
| AgentSet.InclusionOneWayIsEnough | embed-auth/src/popup.ts:157-170 | equal length, no repetition and inclusion one way make one list a permutation of the other |
| AgentSet.CheckAgentSetMatch | embed-auth/src/popup.ts:141-172 | accepts exactly when names are distinct, the returned ones a non-empty subset of those asked for, and agentIds a permutation of the agents' distinct ids |
| Popup.Orchestrator.Cleanup | embed-auth/src/popup.ts:108-116 | no timer or listener stays live, and the table loses the record's own entry only |
| Popup.Orchestrator.Settle | embed-auth/src/popup.ts:206-267 | a promise that was waiting is settled once, and the records still match the reference |
| Popup.Orchestrator.Open | embed-auth/src/popup.ts:174-202 | an earlier popup of the origin is rejected as replaced, even when the new window is blocked |
| Popup.Orchestrator.OnClosePoll | embed-auth/src/popup.ts:214-226 | a close only starts the grace |
| Popup.Orchestrator.OnGraceOver | embed-auth/src/popup.ts:221-224 | the grace cancels a promise still waiting |
| Popup.Orchestrator.OnTimeout | embed-auth/src/popup.ts:206-209 | the timeout cancels a promise still waiting or closing, and touches no other |
| Popup.Orchestrator.OnMessage | embed-auth/src/popup.ts:230-262 | an answer from the right window and origin with the call's nonce resolves, or rejects for a mismatched agent set or with its error; anything else does nothing |
| Popup.Orchestrator.SettledLeavesNothing | embed-auth/src/popup.ts:106-116 | a promise is settled at most once; then no timer or listener is live; until then it is listened for, timed out, and polled or in its grace; and the table holds exactly the unsettled records |
| Popup.RunKeepsOnePerOrigin | embed-auth/src/popup.ts:70-76 | over all orderings of events at most one popup per origin is unsettled |
| Popup.SettledForGood | embed-auth/src/popup.ts:206-262 | nothing that follows changes how a promise was settled |
| Popup.ValidSuccessWins | embed-auth/src/popup.ts:216-224 | a valid success within the close grace resolves the promise, whatever follows |
| Popup.SettledByTheFirst | embed-auth/src/popup.ts:196-267 | how a promise ended is the doing of the first event that had a say |
| Popup.OnlyAnAnswerResolves | embed-auth/src/popup.ts:230-254 | a resolved envelope was posted by the call's own window, from the backend, with its nonce and for its agents |
| SessionStorage.Migrate | embed-auth/src/storage.ts:154-165 | the in-memory copy has every named key |
| SessionStorage.BlobWrittenAlone | embed-auth/src/storage.ts:212-222 | between setSession's writes the storage agrees exactly if the partition was indexed under the same origin before |
| SessionStorage.LiveEntriesListExactly | embed-auth/src/storage.ts:268-288 | under agreement, the index entries with a blob are the sessions of the origin, each once |
| SessionStorage.StorageBackend.constructor | embed-auth/src/storage.ts:126-137 | an empty storage replaces exactly one whose probe throws; another is left as it was |
| SessionStorage.StorageBackend.SafeSet | embed-auth/src/storage.ts:148-169 | the value is written to the same storage exactly if that does not throw; else everything readable and the value are in memory |
| SessionStorage.StorageBackend.ReadIndex | embed-auth/src/storage.ts:179-191 | the entries; only an index that does not parse is dropped, and everything with it exactly if that throws |
| SessionStorage.StorageBackend.SetSession | embed-auth/src/storage.ts:198-223 | agreement holds afterwards whichever write throws, with every other session kept and this one stored and indexed once; it is lost exactly if a corrupt index could not be removed; where nothing throws the same storage has it |
| SessionStorage.StorageBackend.GetSession | embed-auth/src/storage.ts:225-240 | the stored session with nothing changed, or none with what stood there dropped, and everything with it exactly if that throws |
| SessionStorage.StorageBackend.UpdateScope | embed-auth/src/storage.ts:242-258 | scope and token change in the same storage unless that throws, the index and other sessions do not, agreement holds |
| SessionStorage.StorageBackend.Clear | embed-auth/src/storage.ts:260-266 | where nothing throws the same storage loses this session's blob and entry and nothing else; everything goes exactly if the first removal throws |
| SessionStorage.StorageBackend.ListActiveSessions | embed-auth/src/storage.ts:268-289 | exactly the partitions with a session under the origin, each once; the index loses that origin's entries without a blob and no others; no session is lost and agreement holds |
| RefreshManager.EmbeddedAuthSessionManager.SeedFromEnvelope | embed-auth/src/refresh.ts:111-117 | a seed makes the manager live with the envelope's token |
| RefreshManager.EmbeddedAuthSessionManager.Clear | embed-auth/src/refresh.ts:132-138 | no token stays in memory |
| RefreshManager.EmbeddedAuthSessionManager.RefreshDeduped | embed-auth/src/refresh.ts:162-192 | a refresh under way is shared; otherwise one begins with the stored token |
| RefreshManager.EmbeddedAuthSessionManager.TokenProvider | embed-auth/src/refresh.ts:88-105 | refuses when cleared, joins what is under way, else hands out a fresh token or begins a refresh |
| RefreshManager.EmbeddedAuthSessionManager.ForceRefresh | embed-auth/src/refresh.ts:120-125 | the same whatever the token's age |
| RefreshManager.EmbeddedAuthSessionManager.OnAnswer | embed-auth/src/refresh.ts:171-250 | network errors and refusals of the protocol change nothing and say so; a 401 clears; a cleared manager takes no token and stores none, another takes and stores both; onAuthError has been called at most once since the last seed |
| RefreshManager.EmbeddedAuthSessionManager.Finally | embed-auth/src/refresh.ts:164-168 | the next refresh may begin |
| EmbedProtocol.StepKeepsInv | embed-auth/src/refresh.ts:162-250 | every step of every caller keeps flights, registry and tokens in agreement |
| EmbedProtocol.EveryManagerRefreshesInTurn | embed-auth/src/refresh.ts:162-250 | over all interleavings a manager has one request outstanding, never submits again a token answered with success, and is denied at most once |
| EmbedProtocol.ClearedStaysSignedOut | embed-auth/src/refresh.ts:222-231 | a cleared manager refuses for ever and a success that arrives late changes no manager and no session |
| EmbedProtocol.SignOutIsFinal | embed-auth/src/signout.ts:60-66 | a manager registered at a partition with a stored session of the page's origin, when signOut is called, refuses every later request; no other manager is touched |
| EmbedProtocol.SignOutReachesListedOnly | embed-auth/src/manager-registry.ts:5-12 | a live registered manager is cleared and unregistered if and only if its partition has such a session; otherwise it hands out its token as before |
| EmbedProtocol.SignOutForgets | embed-auth/src/signout.ts:67-85 | a signed-out session is gone once its sign-out has settled, unless a new popup stored another |
| EmbedProtocol.ResumesShareOneRequest | embed-auth/src/api.ts:177-206 | any number of resumes of a partition, whenever begun, share one manager and one request until one of the steps comes that end it |
| EmbedProtocol.WhatEndsSharing | embed-auth/src/api.ts:205-275 | exactly which steps those are |
| EmbedProtocol.FirstResumeOpens | embed-auth/src/api.ts:188-206 | the first resume sends the stored token, once |
| EmbedProtocol.WhatErasesASession | embed-auth/src/api.ts:205-253 | exactly which steps take a stored session away: a refused refresh, a settled revoke, and a resume that gives up at its own token or at a client's |
| EmbedProtocol.SignOutLeavesRefreshWaiting | embed-auth/src/signout.ts:60-84 | a sign-out leaves the answer to a refresh under way still to come |
| EmbedProtocol.LateRefusalErasesNewSession | embed-auth/src/refresh.ts:194-206 | such an answer can erase the session of a later sign-in that succeeded |
| EmbedProtocol.SignOutOvertakesResume | embed-auth/src/api.ts:205-235 | a page that signs out while a resume starts its clients leaves that call with a cleared manager |
| EmbedProtocol.LateClientErasesNewSession | embed-auth/src/api.ts:237-248 | such a call erases and unregisters what a later sign-in stored and registered |
| ProtocolOutcomes.RunKeepsCallsAgree | embed-auth/src/api.ts:188-206 | in every reachable state a call waits on a manager of its own partition |
| ProtocolOutcomes.HowAResumeEnds | embed-auth/src/refresh.ts:171-250 | from the answer alone: network errors, error statuses, unreadable bodies and protocol refusals fail the call and keep the session; a 401, a success for a signed-out manager and one that covers no agent erase it; any other stores the next refresh token and starts one client per billing mode |
| ProtocolOutcomes.HowAClientEnds | embed-auth/src/api.ts:232-252 | the same of a client's token, in a resume and after a popup |
| ProtocolOutcomes.WhatACallerGets | embed-auth/src/refresh.ts:88-160 | a token with more than ten seconds to go is handed out with the seconds it has; any other makes a request with the stored refresh token |
| ProtocolOutcomes.WhatAForcedCallerGets | embed-auth/src/refresh.ts:120-125 | a forced refresh makes that request whatever the token's age |
| ProtocolOutcomes.WhoIsNotServedAtOnce | embed-auth/src/refresh.ts:88-101 | a signed-out manager refuses and a refresh under way is joined, fresh token or not |
| ProtocolOutcomes.RotationServes | embed-auth/src/refresh.ts:233-250 | the token of a refresh is handed out until ten seconds before it expires, and then the refresh token it came with is sent |
| ProtocolOutcomes.GrantServes | embed-auth/src/api.ts:262-287 | the same of a popup's token, whose session is stored |
| ProtocolOutcomes.HowASignInBegins | embed-auth/src/api.ts:177-206 | at the popup without a session; else with the registered manager, or a new one that is registered, which is asked for a token |
| ProtocolOutcomes.HowAClientAsks | sdks/node/src/runtime/task-client.ts:563-588 | a client is refused, joins the refresh under way, gets the token in memory or begins a refresh, as the manager then stands |
| ProtocolOutcomes.HowAHeldResultEnds | embed-auth/src/api.ts:206-253 | a resume that had its token or refusal at once ends as one that waited for it |
| ProtocolOutcomes.HowASignOutBegins | embed-auth/src/signout.ts:60-78 | exactly the sessions stored under the page's own origin are signed out of, their managers cleared and unregistered at once |
| ProtocolOutcomes.HowARevokeEnds | embed-auth/src/signout.ts:79-84 | a settled revoke takes its session and no other |
| ProtocolOutcomes.HowAClientFails | embed-auth/src/api.ts:249-252 | a client without a configuration fails its call and nothing else |
| ProtocolOutcomes.HowAPopupFails | embed-auth/src/api.ts:255-260 | a popup that fails fails its call and nothing else |
| Page.EmbedAuth.constructor | embed-auth/src/manager-registry.ts:18 | a page starts with no manager registered, over whatever sessions are stored |
| Page.EmbedAuth.SignIn | embed-auth/src/api.ts:177-206 | the code up to the first wait is the protocol's step |
| Page.EmbedAuth.AfterToken | embed-auth/src/api.ts:206-253 | the code from a resume's token to its first client, or to the popup, is the protocol's step |
| Page.EmbedAuth.ClientAsks | sdks/node/src/runtime/task-client.ts:563-588 | a client with its configuration asks the call's manager, and that is the protocol's step |
| Page.EmbedAuth.AfterClientToken | embed-auth/src/api.ts:322-341 | the code from a client's token to the next client, to the end, or into the catch around a resume is the protocol's step |
| Page.EmbedAuth.ClientFails | embed-auth/src/api.ts:237-252 | a client without a configuration fails the call and leaves its session |
| Page.EmbedAuth.AfterPopup | embed-auth/src/api.ts:255-287 | the code from the envelope to the first client is the protocol's step |
| Page.CountClients | embed-auth/src/api.ts:315-339 | as many clients are started as the agents have billing modes |
| Page.EmbedAuth.SignOut | embed-auth/src/signout.ts:60-86 | clearing and unregistering entry by entry is signing out of all listed partitions at once |
| Page.EmbedAuth.AfterRevoke | embed-auth/src/signout.ts:80-84 | the partition is cleared however its revoke ended |
| Partition.ValidateAgents | embed-auth/src/api.ts:74-108 | accepts exactly 1 to 25 distinct names of letters, digits and underscores |
| Partition.SamePartition | embed-auth/src/storage.ts:99-107 | two accepted requests share a partition text exactly when backend, page origin and set of names are equal |
| Registry.ListAllAgents | mcp/src/registry-list.ts:118-152 | a stretch of the server's list from the cursor on, as long as cap or total allow when it ends by either, asking for 1 to 100 at a time |
| Registry.FilterOnlineAgents | mcp/src/tools.ts:566-588 | the batches pass the status query's checks and filter as one query would |
| Registry.ValidNamesAreQueryable | mcp/src/agent-status.ts:63-74 | up to 50 valid names satisfy the checks |
| CardDrift.Diff | cli/internal/carddrift/carddrift.go:12-17 | every difference once, rendered and sorted, whatever the order of iteration |
| Text.LeIsLexical | cli/internal/carddrift/carddrift.go:12-17 | the order of the report, and of profile names, is the dictionary's |
| CardDrift.DiffObjects | cli/internal/carddrift/carddrift.go:19-33 | the paths appended are an enumeration of the differences |
| CardDrift.DiffValues | cli/internal/carddrift/carddrift.go:35-45 | objects are descended into, anything else is reported whole |
| CardDrift.DiffsAreMinimal | cli/internal/carddrift/carddrift.go:19-45 | a path is reported exactly if the cards differ there, are both objects above it and not both at it |
| CardDrift.EmptyMeansEqual | cli/internal/carddrift/carddrift.go:10-17 | nothing is reported exactly when the cards are deeply equal |
| CardDrift.ExpectedIsSymmetric | cli/internal/carddrift/carddrift.go:12-17 | it does not matter which card is the local one |
| CardDrift.ExpectedReadsBack | cli/internal/carddrift/carddrift.go:47-52 | with keys that are not empty and have no dot the texts are distinct and split back into the paths |
| CardCollisions.TextTellsSegments | cli/internal/carddrift/carddrift.go:47-52 | what a reader who splits a reported text at its dots gets, for any keys |
| CardCollisions.SameTextExactly | cli/internal/carddrift/carddrift.go:47-52 | exactly which paths are reported as one text |
| CardCollisions.DottedOrEmptyKeysCollide | cli/internal/carddrift/carddrift.go:47-52 | without such keys two paths can be reported as one text |
| CardCollisions.RepeatsExactly | cli/internal/carddrift/carddrift.go:12-17 | a report repeats a text exactly if the cards differ at two paths with the same keys, split at dots and without empty ones in front |
| CardCollisions.UnambiguousKeysNeverRepeat | cli/internal/carddrift/carddrift.go:12-17 | if no two key paths of the two cards are alike in that way, no text is repeated |
| CardCollisions.ShapeDecides | cli/internal/carddrift/carddrift.go:12-45 | some card of the same shape gets a report with a repeated text if and only if two leaves of this one are alike in that way |
| CardCollisions.DottedFieldReportedTwice | cli/internal/carddrift/carddrift.go:19-52 | cards that differ in a field with a dotted name and in the field of a field it names report one text twice |
| CardDrift.GraftSettlesOne | cli/internal/carddrift/carddrift.go:19-45 | replacing the local part at one difference settles that one and no other |
| CardDrift.GraftingTheReportYieldsRegistered | cli/internal/carddrift/carddrift.go:10-17 | replacing it at every reported path yields the registered card |
| SearchCommand.QuotedLineReadsBack | cli/cmd/search.go:169-180 | any words, quoted and joined, are split by a POSIX shell into those words |
| SearchCommand.Command | cli/cmd/search.go:131-160 | the words in the order the flags are added, or the hint when one cannot be quoted |
| SearchCommand.IntendedExactly | cli/cmd/search.go:131-160 | the words flag by flag, without those that were not given or are the default |
| SearchCommand.CommandReadsBack | cli/cmd/search.go:131-180 | a POSIX shell given the printed line runs exactly the intended words |
| SearchCommand.CommandRepeatsTheSearch | cli/cmd/search.go:112-118 | those words ask for the same search from the following page's cursor |

## Left out

- Symlinked `.env` files: `envWriteTarget` and its checks of where a link may lead.
- Upper-casing of letters whose upper case is not an ASCII letter, and bytes that are not UTF-8:
  names and values are sequences of Unicode scalar values.
- Processes that change contexts.json, `.env` or localStorage at the same time, among them a
  store that changes between a removal's two plans; the code does not close these races either.
- The legacy credential file: a key read from it after the first load is not claimed to go
  where it was minted.
- Resolution of instance arguments, prompts, OAuth and every HTTP request: their results are
  parameters. SHA-256 and JSON texts: the partition property is about the text that is hashed,
  and stored values are what they parse as.
- Reads of localStorage that throw, which start over in memory; in the middle of a migration
  they can separate sessions from their index.
- EmbedProtocol.SignOutIsFinal: speaks of managers registered when signOut is called, at
  partitions with a stored session, because signOut looks at no others and a sign-in that
  finishes during its revokes registers a new one; and the storage of all calls is one, because
  backends that have fallen back to memory separately do not see each other.
- EmbedProtocol.EveryManagerRefreshesInTurn: a page seeds a manager only when it is made, so no
  step of the protocol seeds one again; RefreshManager covers that for a single manager.
- A success is one step from status to body, because nothing changes between its two awaits.
- Page: managers are values numbered in the order they were made; aliasing of the objects is
  the numbering.
- Where names fold, the child can get an entry under the file's spelling beside the process's
  own; which of the two the system then uses.
- LoginEnv.MaybeWriteEnv: begins once it is settled that the file is to be written.
- A umask that takes owner permissions away: a temporary file is made with mode 0600.
- CliContext.Context.constructor: a login for an explicit target unsets BLOCKS_CDM_URL while
  its context stands; what that context would answer afterwards is not modelled.
- OrgPicker.Publish: everything between the picked organization and the request, and a store
  that cannot be written after a key was minted.
- The configuration a client fetches, and what its SDK does once it is started, apart from
  asking the manager for tokens.
- The order among several assignments of one name that the CLI does not import: the sort by
  name leaves it open.
- The totals that a registry page reports, which a listing passes on.
- Windows quoting, terminal output, messages, the deploy registry, billing and upgrades.
