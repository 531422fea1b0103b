# Verified models of BoxLite's crash-prone and concurrent code

A Dafny model of the parts of BoxLite whose correctness depends on interleavings, on stops at
any point, or on an exact format, with proofs of what each of them promises:

- **The MCP configurator** (`apps/infra/bootstrap/auth0-mcp.ts`). It plans writes against an
  Auth0 tenant, journals each one before sending it, and can roll a run back. The tenant is a
  map of documents, the journal a list of entries on disk, and a fault can strike at every
  save and every request. (`McpTenant`, `McpPlan`, `McpRun`, `McpRecovery`, `McpApply`,
  `McpPlanned`, `McpConvergence`, `McpHistory`, `McpFinished`, `McpFaultless`, `McpGoal`, `McpRestored`,
  `McpConfigurator`)
- **Async operations of the Go SDK** (`sdks/go/runtime.go`, `bridge_callback.go`,
  `archive.go`). Callers, abandon goroutines, the drain goroutine and `Runtime.Close` race
  over handles, result channels and native payloads. One step is one atomic action, and the
  steps carry no guard that the code does not have: a second `Delete`, a `Value` after it, a
  blocking send, a drain after the free and a submission after the free are possible steps,
  recorded as faults. No run reaches the first four; runs do reach the last one, and when
  they can is stated exactly. (`HandleProtocol`, `HandleSafety`, `HandleRaces`,
  `HandleResults`, `HandleProgress`)
- **Universal Login branding** (`apps/infra/auth0/universal-login.ts`). The checks of the
  branding files, JSON projection, the canonical printer, the digest check between preview and apply, and the report of an apply
  that stops midway. (`JsonTree`, `JsonCanonical`, `JsonText`, `JsonSorted`, `JsonDigest`,
  `Branding`, `BrandingPreview`, `BrandingSource`, `BrandingApply`)
- **Runner artifact publication** (`apps/infra/artifacts/runner-build.ts`): any number of
  builders, conditional puts, crashes and lost answers. (`RunnerArtifact`)
- **Execution streams** (`sdks/go/exec.go`): delivery of output and what `Wait` guarantees.
  (`ExecStreams`)
- **Sequential code with sharp specifications**: the tar writer (`Tar`), topological layers
  with the `up` and `down` loops (`Topo`, `TopoRun`), the copy-in loop (`CopyIn`), pruning of
  policy versions (`PolicyVersions`) and dotenv updates (`Dotenv`).

`dafny verify dfyconfig.toml` checks everything.

## How the code is represented

Code that changes state step by step is a class with methods and loops; each method is proved
equal to a function of the old state, and the properties are proved of that function. The two
Go protocols, and the concurrent builders, are step machines over values: a run is any
sequence of enabled steps, and the theorems speak of every run. A request to a remote service
carries a fate: it is answered, refused, or lost with or without having landed.

The results are stated twice where it matters: once about the functions that specify the code,
and once on the data itself, without those functions: on the fields of the tenant (`McpGoal`,
`McpRestored`), on what became of a payload (`HandleResults`), on what the remote holds
(`Branding.InState`), on the list of events (`ExecStreams.WaitReturnsResult`), on the services
and what they name (`Topo.Sorted`), on bytes (`Tar.HeaderFields`) and on lines (`Dotenv.LineBinds`).

Six properties do not hold without a condition, and the condition is exact:

- No native call is made on a freed runtime when, at the free, every caller that has begun has
  made its native call and no operation begins afterwards; a caller that has begun and not
  called yet can still do so
  (`HandleRaces.LateSubmitExactly`; a run that breaks it is `LateSubmitHappens`). Nothing else
  goes wrong in those runs: `HandleSafety.RunIsSafe` and the results on claims, deletes and
  payloads hold in them too.
- The native payload of a Create or Get meets exactly one end, unless its abandon goroutine
  has left through the closing branch and a completion with a payload is sent all the same;
  then it is lost (`HandleRaces.BoxPayloadLostExactly`; a run that loses one is
  `BoxPayloadIsLost`). The branch is taken only while the runtime is closing.
- When `Wait` returns without an error a writer has all its output exactly when nothing of its
  stream was still to be dispatched at a close of the execution
  (`ExecStreams.WriterIsComplete`).
- Equal remote digests mean equal writes exactly when the branding files are not *exposed*:
  the theme declares no object equal to the printer's missing marker in a place where the
  remote's absence of it would go unnoticed (`BrandingPreview.PreviewHoldsExactly`). What the
  remote holds does not matter. The loader accepts such files (`BrandingSource.ExposedFilesLoad`).
- A tar archive reads back as the files given exactly when every name is plain: at most 100
  characters, all ASCII, none NUL (`Tar.TarRoundTrip`). Any other name is cut short, since
  the writer bounds the *bytes* it writes by the number of UTF-16 units.
- A dotenv value that was set reads back exactly when no later line spelling the key another
  way decides, or that line already binds the value (`Dotenv.SetReadsBack`).

Where the repository's prose and its code differ, the model follows the code. The comment at
`sdks/go/exec.go:82-88` says the stream handle is never deleted; `dispatchExit`
(`sdks/go/bridge_callback.go:63-73`) deletes it, and so does the model. The dotenv docstring
promises to set the key; that holds only up to the shadowing above.

## Model

| member | source | states |
|---|---|---|
| McpPlanned.StoppedRunRollsBack | apps/infra/bootstrap/auth0-mcp.ts:102-147 | Wherever a run of `apply` stops, and after any number of rollbacks that fail or die partway, one rollback without a failure restores the tenant |
| McpRestored.RollbackPutsBack | apps/infra/bootstrap/auth0-mcp.ts:102-147 | Restored means: every old field has its old value, a field that was absent is absent, null or at its default; each revoked grant has a new one with its client, audience, scope and subject type; nothing else is there; no two grants are for one client, audience and subject type |
| McpRestored.EveryEntryHasItsTurn | apps/infra/bootstrap/auth0-mcp.ts:130-141 | In a rollback, an entry whose own undo succeeds is undone at the end, whatever became of the others |
| McpRestored.StopsForGood | apps/infra/bootstrap/auth0-mcp.ts:111-123 | A run stops at one entry: those before it are marked sent, those after it are as planned |
| McpFaultless.AlwaysRestorable | apps/infra/bootstrap/auth0-mcp.ts:133-147 | From every such stop, and after any failed rollbacks, there is a rollback without a failure, and it restores the tenant |
| McpRestored.RevokedGrantWhole | apps/infra/bootstrap/auth0-mcp.ts:206-270 | After a stopped run and a rollback without a failure, a revoked grant is there again with its client, audience, scope and subject type; it is there as it was exactly when it had no other field |
| McpRecovery.UndoKeepsAccount | apps/infra/bootstrap/auth0-mcp.ts:239-253 | Undoing any one entry, in any order and with any outcome, keeps every difference between the tenant and its state before the run explained by the journal |
| McpRecovery.CleanRollbackUndoes | apps/infra/bootstrap/auth0-mcp.ts:132-146 | A rollback that collected no failure has undone every entry, and later undos did not redo it |
| McpRecovery.AllUndoneRestores | apps/infra/bootstrap/auth0-mcp.ts:127-147 | When every entry of an accounted journal is undone the tenant is restored |
| McpApply.RunIsAccounted | apps/infra/bootstrap/auth0-mcp.ts:111-123 | However far a run got, the journal on disk accounts for every difference it made, requests that landed without an answer included |
| McpPlanned.PlanIsRunning | apps/infra/bootstrap/auth0-mcp.ts:150-230 | Every plan is one that a run can start from: entries carry true previous values, posted keys are free, no two entries undo each other's work |
| McpFinished.FinishedRunConverges | apps/infra/bootstrap/auth0-mcp.ts:149-156 | After a run that finished, the plan is empty |
| McpGoal.FinishedRunIsInPlace | apps/infra/bootstrap/auth0-mcp.ts:149-233 | After a run that finished: the three settings are on; the API for the resource has every scope with its description and its policies; each listed URL is registered, with a user grant of all scopes; each connection is domain-level; every user grant on the resource of a CIMD client is of a listed URL |
| McpGoal.NewApiIsNamed | apps/infra/bootstrap/auth0-mcp.ts:170-180 | An API the run had to make is for the resource and is named BoxLite MCP |
| McpGoal.NothingToDoExactly | apps/infra/bootstrap/auth0-mcp.ts:149-233 | The plan is empty exactly when all of that is in place |
| McpGoal.RunTouchesOnly | apps/infra/bootstrap/auth0-mcp.ts:102-233 | However far a run gets, it removes nothing but user grants on its resource of CIMD clients, changes no field but those it is for, and adds nothing but what its configuration lists |
| McpGoal.RevokesAre | apps/infra/bootstrap/auth0-mcp.ts:206-220 | Exactly the user grants on the resource of CIMD clients off the list are revoked, and each is journaled with its four fields |
| McpGoal.PlannableMeans | apps/infra/bootstrap/auth0-mcp.ts:150-195 | What a plan is refused for: enabled Rules, a rejected document of an unregistered URL, a missing connection |
| McpFaultless.FaultFreeRunConverges | apps/infra/bootstrap/auth0-mcp.ts:102-156 | A run all of whose requests are answered gets to its end: what it patches is still there, each grant's client is registered by then; planning again is then empty |
| McpGoal.FaultFreeRunIsInPlace | apps/infra/bootstrap/auth0-mcp.ts:102-156 | And all that a run is for is then in place |
| McpFaultless.FaultFreeExists | apps/infra/bootstrap/auth0-mcp.ts:111-123 | From any state of a run there is a fault-free way on: the condition of the previous row can be met |
| McpHistory.RunsKeepOthersGrants | apps/infra/bootstrap/auth0-mcp.ts:102-220 | Over runs and rollbacks in any order, each stopping anywhere, any journal rolled back at any time: a grant keeps all its fields if, for every run, its audience is absent or is not the run's resource, or its subject type is not `user`, or its client is not marked `cimd` |
| McpConvergence.OthersGrantKept | apps/infra/bootstrap/auth0-mcp.ts:206-220 | One run, wherever it stops, leaves each such grant as it was |
| McpConfigurator.Apply | apps/infra/bootstrap/auth0-mcp.ts:102-125 | Leaves the tenant and the journal on disk as the recovery theorem's run does; a plan that is refused writes nothing; if it gets to its end, all that it is for is in place |
| McpConfigurator.SendWrites | apps/infra/bootstrap/auth0-mcp.ts:111-123 | The loop amounts to the specified run |
| McpConfigurator.SendWrite | apps/infra/bootstrap/auth0-mcp.ts:111-123 | One turn: mark, save, resolve the client id, save, send, record what was created, save, cut at any of these |
| McpConfigurator.Rollback | apps/infra/bootstrap/auth0-mcp.ts:127-147 | Undoes all entries, last first, whatever fails; with no failure every resource is put back |
| McpConfigurator.Remote.Undo | apps/infra/bootstrap/auth0-mcp.ts:239-270 | Deletes what a `post` made, found by key if its answer was lost; creates a revoked grant again only if it is gone; patches old values back |
| McpConfigurator.Remote.Prepare | apps/infra/bootstrap/auth0-mcp.ts:114-118 | A grant planned for a metadata URL is sent for the client registered under it, or not at all |
| McpConfigurator.MakePlan | apps/infra/bootstrap/auth0-mcp.ts:150-156 | Plans exactly the specified writes; refuses exactly while Rules run, an unregistered URL's document is rejected or a connection is missing; plans nothing exactly when all is in place |
| McpConfigurator.ClientWrites | apps/infra/bootstrap/auth0-mcp.ts:185-222 | Registrations, grants and revocations as specified, with the set of listed ids built by the loop |
| McpConfigurator.RevokePass | apps/infra/bootstrap/auth0-mcp.ts:206-220 | Revokes, in listing order, exactly the user grants on the resource of CIMD clients whose id is not listed |
| McpConfigurator.ConnectionEntries | apps/infra/bootstrap/auth0-mcp.ts:224-230 | One patch for each connection that is not domain-level yet; fails exactly when one is missing |
| HandleSafety.RunIsSafe | sdks/go/runtime.go:429-554 | In every interleaving, submissions to a freed runtime included, no handle is deleted twice or read after its delete, no send blocks the drain goroutine, the drain is not called after the free, and at most one drain goroutine starts |
| HandleRaces.LateSubmitExactly | sdks/go/runtime.go:106-120 | Once the runtime is freed, operations already begun can still call into it exactly when one of them has not made its native call |
| HandleRaces.LateSubmitHappens | sdks/go/runtime.go:154-179 | For each kind of operation there is a run in which `Close` gets to its free between registration and native call, and the call is made |
| HandleRaces.CleanCloseIsSafe | sdks/go/runtime.go:106-120 | If at some point after the free no such call was made and no begun operation still has one to make, then as long as nothing new begins no fault of any kind occurs |
| HandleRaces.NoFaultBeforeFree | sdks/go/runtime.go:353-554 | Until the runtime is freed there is no fault of any kind |
| HandleSafety.SettledHandles | sdks/go/runtime.go:439-469 | When everything has settled the registry is empty and every handle was claimed and deleted exactly once |
| HandleSafety.OwnedPayloadConserved | sdks/go/archive.go:42-186 | A settled Export or Import has its native payload handed over, disposed of, or dropped with the native queue: exactly one of these, once, also when cancel and close race the dispatch (which of them: the rows of `HandleResults`) |
| HandleResults.ReceivedIsHanded | sdks/go/runtime.go:180-184 | A caller that received its result and has returned: a Create, Get or Import that succeeded handed its payload over once and disposed of nothing; an Export freed its path once; a failed result handed nothing over |
| HandleResults.ReceivedWasCompleted | sdks/go/bridge_callback.go:96-151 | What a caller receives, success or failure, is what its native task completed with |
| HandleResults.GivenUpIsDisposed | sdks/go/archive.go:42-113 | A caller that gave up is handed nothing, and once settled its payload has been disposed of, unless the runtime was closing; for Export and Import it was disposed of or dropped in any case |
| HandleProgress.ResultComes | sdks/go/runtime.go:353-400 | While the runtime is not closing, from any state in which a caller waits for a completed operation the drain goroutine's own steps lead to its result being there to receive |
| HandleProgress.CloseGetsThrough | sdks/go/runtime.go:106-120 | `Close` never gets stuck: from wherever it is, steps of its own, of the drain goroutine and of the lock's holder lead to its end |
| HandleSafety.OwnedAbandonerIsServed | sdks/go/archive.go:42-52 | The goroutine that waits without watching for close always has its result coming |
| HandleSafety.PayloadAtMostOnce | sdks/go/bridge_callback.go:96-151 | No payload is handed over, disposed of or dropped twice |
| HandleSafety.GivingUpHandsNothing | sdks/go/archive.go:100-113 | A caller that gave up on its context or on close is never handed a payload, and nothing is dropped before the runtime is freed |
| HandleSafety.BoxPayloadConserved | sdks/go/runtime.go:154-195 | Create and Get conserve their payload in every run in which the runtime is not closed: it meets exactly one end (which one: the rows of `HandleResults`) |
| HandleRaces.BoxPayloadLostExactly | sdks/go/runtime.go:508-528 | A settled operation lost its payload exactly when its goroutine left through the closing branch at some point of the run and a completion with a payload was sent all the same |
| HandleRaces.BoxPayloadIsLost | sdks/go/runtime.go:508-528 | A run, free of faults, at whose end a Create is settled and its payload is neither handed over nor disposed of nor dropped |
| HandleRaces.LeavingTakesClosing | sdks/go/runtime.go:522-526 | The closing branch is left through only in a runtime that is closing, and it stays so |
| HandleSafety.NoStartAfterRelease | sdks/go/runtime.go:353-412 | Once `stopDrain` has released the lock no drain goroutine is started any more |
| HandleSafety.StepKeepsInv | sdks/go/runtime.go:353-554 | Every step of every goroutine keeps the invariant of all operations, the lock, the drain goroutine and the closer |
| JsonText.RenderInjective | apps/infra/auth0/universal-login.ts:149-157 | No rendered value is the beginning of another one, so the text of a value without missing parts determines it |
| JsonSorted.DeepEqualIsSameNorm | apps/infra/auth0/universal-login.ts:149-157 | Deep equality, key order aside, is having the same form with all keys sorted |
| JsonSorted.CanonicalIsSortedText | apps/infra/auth0/universal-login.ts:149-157 | The canonical text is the plain text of the sorted form |
| JsonDigest.CanonicalTells | apps/infra/auth0/universal-login.ts:149-157 | Two values have the same canonical text exactly when they are deeply equal once the marker stands for everything missing |
| JsonDigest.CanonicalUpToKeyOrder | apps/infra/auth0/universal-login.ts:149-157 | On values that never hold the marker the text is independent of key order and tells everything else |
| JsonDigest.MarkerCollides | apps/infra/auth0/universal-login.ts:150 | A missing value and the marker object render alike though they differ |
| JsonDigest.DigestTells | apps/infra/auth0/universal-login.ts:159-163 | Lists of NUL-free parts feed the hash the same input only if they are the same list |
| JsonDigest.CanonicalNulFree | apps/infra/auth0/universal-login.ts:149-163 | Canonical text holds no NUL, so its digests tell the parts apart |
| Branding.ProjectIsIdempotent | apps/infra/auth0/universal-login.ts:488-496 | Projecting a projection changes nothing |
| Branding.ProjectFixesDesired | apps/infra/auth0/universal-login.ts:488-496 | The desired tree is its own projection |
| Branding.ProjectRecoversDesired | apps/infra/auth0/universal-login.ts:488-496 | The projection of any replacing, shallow or deep merge of desired onto remote is desired |
| Branding.ChangesAreNeeded | apps/infra/auth0/universal-login.ts:548-580 | Each change is planned for a resource that reads as its `before` and does not match its `after` |
| Branding.ChangesAreComplete | apps/infra/auth0/universal-login.ts:548-580 | The theme, the tenant and each prompt are planned exactly when the remote does not hold what the files declare |
| Branding.NoChangesExactly | apps/infra/auth0/universal-login.ts:548-580 | Nothing is planned exactly when all of them are held |
| Branding.ThemeChangeId | apps/infra/auth0/universal-login.ts:550-561 | A theme is created exactly when there is none with an id, and otherwise updated under its id |
| Branding.NeverBothSides | apps/infra/auth0/universal-login.ts:695-713 | No readback matches both the before and the after of one change |
| BrandingPreview.DigestTellsRemotes | apps/infra/auth0/universal-login.ts:531-546 | Two remotes have the same digest exactly when theme id, managed parts and prompts agree, the marker standing for missing values |
| BrandingPreview.PreviewHolds | apps/infra/auth0/universal-login.ts:613-620 | Unless the files are exposed, equal digests mean that the changes write the same things to the same resources |
| BrandingPreview.PreviewHoldsExactly | apps/infra/auth0/universal-login.ts:531-580 | Equal digests promise equal writes, for all pairs of remotes, if and only if the files are not exposed |
| BrandingSource.LoadIsOk | apps/infra/auth0/universal-login.ts:243-348 | Whatever files the loader accepts have the shape that the other branding results ask for |
| BrandingSource.ThemeIsTheFile | apps/infra/auth0/universal-login.ts:253-268 | The loaded theme is the file without comments, its assets resolved, and these are paths under /auth0/ |
| BrandingSource.NoCommentsLeft | apps/infra/auth0/universal-login.ts:255 | No name beginning with an underscore is left at any depth |
| BrandingSource.TenantIsTheFile | apps/infra/auth0/universal-login.ts:274-281 | The tenant file may hold nothing but a picture's path under /auth0/, and is loaded as that asset |
| BrandingSource.PromptsAreTheFiles | apps/infra/auth0/universal-login.ts:283-336 | Each prompt is its file without comments, and no screen is empty and no text blank |
| BrandingSource.ExposedFilesLoad | apps/infra/auth0/universal-login.ts:253-281 | Files the loader accepts that are exposed, with two remotes that have one digest and get different writes |
| BrandingApply.AppliesThePreview | apps/infra/auth0/universal-login.ts:613-620 | When both digests agree with those of the preview, the writes are the previewed ones |
| BrandingApply.FinishedRunSettles | apps/infra/auth0/universal-login.ts:613-668 | When every change matches and nothing else was touched, the remote holds the declared theme, tenant and prompts, and no change is left |
| BrandingApply.AppliedIsHeld | apps/infra/auth0/universal-login.ts:695-700 | What the report calls applied is what the remote holds |
| BrandingApply.NamesTell | apps/infra/auth0/universal-login.ts:506-508 | Two changes have one name in the report exactly when they are of one resource |
| BrandingApply.ChangesFor | apps/infra/auth0/universal-login.ts:548-580 | Lists the theme, the tenant and each prompt that differ, in that order: all of them and no other |
| BrandingApply.PromptChangesFor | apps/infra/auth0/universal-login.ts:566-579 | The loop over the prompts lists those that differ |
| BrandingApply.UniversalLogin.Prepare | apps/infra/auth0/universal-login.ts:600-611 | Fails exactly on a bad theme id, and otherwise gives the changes and both digests |
| BrandingApply.UniversalLogin.Apply | apps/infra/auth0/universal-login.ts:613-668 | Refuses without a write exactly when a digest differs or the theme id is bad; otherwise applied, unknown and pending list every planned resource once and in order, applied ones match, pending ones are as before, at most one is unknown, nothing else is touched; after a finished run the remote holds the declared theme, tenant and every prompt, and a server that takes every write lets the run finish |
| BrandingApply.UniversalLogin.ClassifyAfterFailedWrite | apps/infra/auth0/universal-login.ts:715-723 | Never both applied and pending; unknown only if the readback fails or matches neither side |
| RunnerArtifact.ChecksumMeansOneBuild | apps/infra/artifacts/runner-build.ts:172-233 | Whenever a checksum object exists its archive exists and both came out of the same build |
| RunnerArtifact.PublishedVerifies | apps/infra/artifacts/runner-build.ts:167-183 | If each build's checksum is that of its own archive, every published pair verifies |
| RunnerArtifact.StoredBytesNeverChange | apps/infra/artifacts/runner-build.ts:167-172 | No run of any builders changes or removes a stored object |
| RunnerArtifact.PartialStaysPartial | apps/infra/artifacts/runner-build.ts:174-183 | An archive left without a checksum is never completed by another build |
| RunnerArtifact.SuccessMeansPublished | apps/infra/artifacts/runner-build.ts:184-233 | A builder that reports success has both objects in the bucket |
| RunnerArtifact.StepKeeps | apps/infra/artifacts/runner-build.ts:184-233 | Every step of every builder keeps the invariant and only adds objects |
| RunnerArtifact.Bucket.Stage | apps/infra/artifacts/runner-build.ts:184-233 | The code with other builders' requests in between is one of the runs; undisturbed: both keys there, it succeeds and changes nothing; one of them, it refuses and changes nothing; neither, it stores both objects |
| RunnerArtifact.KeysTellBuildsApart | apps/infra/artifacts/runner-build.ts:184-190 | One key means one version of one commit |
| ExecStreams.WaitMeansComplete | sdks/go/exec.go:346-394 | When `Wait` returns no error on an execution with streams, each sink got every chunk of its stream, in order, and nothing else; only what was still to be dispatched at a close of the execution is missing |
| ExecStreams.WaitReturnsResult | sdks/go/exec.go:360-393 | With and without streams, a `Wait` that returned has the code and the error of the one result that came while it awaited it, and keeps that code when a closing runtime adds an error; if no result came it returned an error |
| ExecStreams.WaitGetsThrough | sdks/go/exec.go:376-393 | Once its result came and the exit is queued, dispatching the queue is all it takes for a `Wait` to return that result; without streams, not even that |
| ExecStreams.CallbacksAreComplete | sdks/go/exec.go:122-161 | After such a `Wait` each callback was called with each chunk that is not empty, in order |
| ExecStreams.WriterIsComplete | sdks/go/exec.go:346-394 | After such a `Wait` a writer has all bytes of its stream if and only if none of them was still to be dispatched at a close |
| ExecStreams.WaitAfterCloseFails | sdks/go/exec.go:346-349 | Every `Wait` called on a closed execution returns an error, so only a close during `Wait` can lose output unnoticed |
| ExecStreams.OutputIsAPrefix | sdks/go/exec.go:122-161 | At any time, closed or not, a writer has a prefix of its stream's bytes |
| ExecStreams.NeverPanics | sdks/go/bridge_callback.go:63-73 | The exit channel is closed once and no callback uses the deleted handle |
| ExecStreams.ClosingLosesOutput | sdks/go/exec.go:505-516 | Closing while `Wait` is under way, before the output is dispatched, loses it; if the native side still gives a result without an error, so does `Wait` |
| ExecStreams.ExecutionStreamState.Dispatch | sdks/go/bridge_callback.go:744-763 | An empty chunk is skipped, another one reaches the sinks of its stream unless released, the exit releases and drains |
| ExecStreams.ExecutionStreamState.DispatchAll | sdks/go/exec.go:122-157 | Dispatching a queue in order leaves in each sink exactly what was queued for it |
| Tar.TarRoundTrip | examples/node/cp_tmpfs_workaround.js:26-71 | A reader of the interchange format gets back exactly the names and data given, checksums right, if and only if every name is plain; for sizes below 8^11 |
| Tar.ArchiveReads | examples/node/cp_tmpfs_workaround.js:26-71 | For any names, the reader finds each file's data in order, under the part of its name that fits |
| Tar.NameSurvives | examples/node/cp_tmpfs_workaround.js:36 | A name reads back whole if and only if it is plain |
| Tar.HeaderReads | examples/node/cp_tmpfs_workaround.js:33-58 | The header's checksum is right and its size field gives the size |
| Tar.HeaderFields | examples/node/cp_tmpfs_workaround.js:33-51 | Byte for byte: mode 0644, owner and group 0, time 0, a regular file, the name closed by NULs, eleven octal digits of size, six of the checksum |
| Tar.NameIsCut | examples/node/cp_tmpfs_workaround.js:36 | The name field holds as many whole characters as its bound in bytes lets through |
| Tar.Utf8CharReads | examples/node/cp_tmpfs_workaround.js:35 | A character's bytes stand for it, and only ASCII takes one byte |
| Tar.NulsFollow | examples/node/cp_tmpfs_workaround.js:60-70 | Data is followed by NULs up to the next multiple of 512, and the archive by 1024 of them |
| Tar.ArchiveIsBlocks | examples/node/cp_tmpfs_workaround.js:60-70 | The length is a multiple of 512 |
| Tar.MakeHeader | examples/node/cp_tmpfs_workaround.js:33-58 | The field writes and the checksum loop give the specified header |
| Tar.MakeTar | examples/node/cp_tmpfs_workaround.js:26-71 | The loop over the files gives the specified archive |
| Topo.TopoSort | apps/infra-local/compose/orchestrator.py:51-69 | Fails exactly when services name each other in a circle; otherwise every named service is in one layer, behind all services it names, and past the first layer behind one in the layer right before |
| Topo.CyclicMeansCycle | apps/infra-local/compose/orchestrator.py:60 | What makes sorting fail is exactly a chain of dependencies that returns to its start |
| Topo.OneLayerEach | apps/infra-local/compose/orchestrator.py:61-69 | Every service is in one layer only |
| Topo.LayerIsDepth | apps/infra-local/compose/orchestrator.py:51-69 | A service's layer index is the length of its longest dependency chain |
| Topo.FewestLayers | apps/infra-local/compose/orchestrator.py:51-69 | No grouping with dependencies first has fewer layers |
| TopoRun.Up | apps/infra-local/compose/orchestrator.py:304-314 | Under any `only` filter: a service starts behind the chosen ones it names, nothing starts after a failed batch, it fails exactly on a circle or when a chosen service is not configured or does not start, and otherwise starts them all and reports whether any changed |
| TopoRun.Down | apps/infra-local/compose/orchestrator.py:324-330 | Under any `only` filter: a service stops behind the chosen ones that name it, and every chosen service is stopped |
| TopoRun.OrderSurvives | apps/infra-local/compose/orchestrator.py:305-308 | Selecting from the layers keeps the order and the services apart |
| CopyIn.CopyInStream | sdks/go/copy.go:234-306 | A started stream is ended by exactly one close or abort and then freed; it is closed only if the source ended and every byte of it was accepted in order, and aborted only for a failed write, a failed read or a hundred empty reads in a row; always after finitely many reads |
| CopyIn.Transfer | sdks/go/copy.go:258-287 | The loop passes on exactly the bytes it reads and ends within a hundred reads of the last data |
| PolicyVersions.RunsKeepGood | apps/infra/bootstrap/aws.ts:138-186 | Over any runs, each stopping anywhere, there are at most five versions and exactly one default |
| PolicyVersions.PrunesOnlyOldest | apps/infra/bootstrap/aws.ts:160-173 | A run deletes no default version, nothing younger than what it could have deleted instead, and no more than makes room for one |
| PolicyVersions.PrunesInNumbers | apps/infra/bootstrap/aws.ts:160-173 | Below five versions a run deletes nothing; at five at most one, and exactly one if it completes |
| PolicyVersions.CompletesInNumbers | apps/infra/bootstrap/aws.ts:163-185 | It completes exactly when its one request, or at five versions its two, and the reads are answered |
| PolicyVersions.CompletesUnlessARequestFails | apps/infra/bootstrap/aws.ts:138-186 | A run completes exactly when its requests are answered: the limit never refuses the new version |
| PolicyVersions.LastLandedIsDefault | apps/infra/bootstrap/aws.ts:138-186 | Over any runs, completed or stopped anywhere, the default is the document of the last run whose creation landed, answered or not, and the earlier default if none did |
| PolicyVersions.LastCompletedRunWins | apps/infra/bootstrap/aws.ts:175-185 | When the last of any runs completes its document is the default |
| PolicyVersions.EnsureRuntimeBoundary | apps/infra/bootstrap/aws.ts:138-186 | The pruning loop and the creation leave the policy as the specified run does |
| Dotenv.SetThenParse | apps/infra-local/compose/native.py:550-561 | After a plain key is set every other key parses as before; the key parses as the cleaned value unless another spelling decides |
| Dotenv.SetReadsBack | apps/infra-local/compose/native.py:550-561 | A clean value reads back if and only if no other spelling decides or it already binds that value |
| Dotenv.ExportLineShadows | apps/infra-local/compose/native.py:206-223 | After a key line and an `export` line for the same key, setting it leaves the exported value in force |
| Dotenv.OnlyPlainBinds | apps/infra-local/compose/native.py:206-223 | A written line binds its own key and value exactly when the key is plain and the value clean |
| Dotenv.SetIsIdempotent | apps/infra-local/compose/native.py:550-561 | Setting the same value again leaves the same text |
| Dotenv.SetsCommute | apps/infra-local/compose/native.py:550-561 | Settings of two plain keys commute, as parsed |
| Dotenv.LinesRoundTrip | apps/infra-local/compose/native.py:552-561 | Lines without breaks read back as written |
| Dotenv.CrlfReads | apps/infra-local/compose/native.py:211 | Lines ended by carriage return and newline read alike |
| Dotenv.LineBinds | apps/infra-local/compose/native.py:212-222 | A line binds its plain key to the cleaned text behind the `=`, whatever spaces are around the key |
| Dotenv.ExportedLineBinds | apps/infra-local/compose/native.py:216-220 | So it does behind `export` and spaces |
| Dotenv.BindsNothing | apps/infra-local/compose/native.py:213-214 | A line without `=`, a comment, and a line with nothing before its `=` bind nothing |
| Dotenv.QuotesComeOff | apps/infra-local/compose/native.py:222 | A value in double or in single quotes is what is between them |
| Dotenv.InnerQuotesStay | apps/infra-local/compose/native.py:222 | Double quotes inside single ones stay |
| Dotenv.SetKeepsLines | apps/infra-local/compose/native.py:550-561 | Lines that begin with the key and `=` are replaced where they stand, all others stay, and a line is added at the end only if there was none |
| Dotenv.ParseDotenv | apps/infra-local/compose/native.py:206-223 | The loop over lines gives the specified bindings |
| Dotenv.SetEnvKv | apps/infra-local/compose/native.py:550-561 | The loop with its `found` flag gives the specified file |

## Left out

- Goroutines, channels and the lock of the Go SDK: steps of a machine over values, not classes; what a goroutine does between two shared accesses is one step.
- A second concurrent `Runtime.Close`, and data races on the `handle` fields: the code does not serialise them. A late call that already finds `r.handle` nil is recorded as the same fault as one that finds the freed runtime; an execution is closed between two steps of `Wait`, not within its check of the field.
- HandleProgress.ResultComes: the steps are there to be taken; that the scheduler takes them, and that the native side completes an operation, is assumed of neither.
- Operations that a cleanup starts itself (removing an orphaned box): they are further operations of the same protocol.
- The native library, Auth0, IAM, S3, the file system and git: small abstract states; handle ids are never reused, a request lands whole or not at all, undispatched queue items are reclaimed by the native free, saving the journal replaces the file whole.
- McpPlanned.StoppedRunRollsBack: assumes no other writer between run and rollback, distinct metadata URLs, and at most one grant per client, audience and subject type; the reset of a field that was absent leaves null, as the code does.
- McpHistory.RunsKeepOthersGrants: speaks of grants the tenant has before the first run; what else stays untouched is stated for one run (`McpGoal.RunTouchesOnly`).
- Listings longer than one page, the text of messages, the preview output and the credentials of the MCP configurator: no decision depends on them.
- `-0` against `0`, lone surrogates and keys of `Object.prototype` in JSON values: a number is its text, a string a list of characters, and an object has only its own keys.
- SHA-256: the digest is the text fed to it, that is, the hash is taken as injective. Loading the branding files is taken as a function of their contents.
- Reading the stage configuration and the files from disk, fetching assets over HTTP, and their validation: a failure there stops before any write. Of the loader, the checks of the parsed theme, tenant and prompt documents are modelled; resolving an asset's URL is a parameter.
- BrandingApply.AppliesThePreview: asks that no part fed to the source digest holds a NUL (`AllNulFree`). A part is a file's name and the text of a JSON file that was parsed; JSON text cannot hold a raw NUL, nor can a file name.
- BrandingApply.UniversalLogin.Apply: assumes no other writer while it runs and readbacks that tell the truth; a write that is refused or accepted may leave anything in its own resource.
- Deleting artifacts by hand: it is how a partial publication is repaired, and outside every run.
- ExecStreams.WaitMeansComplete: assumes that the native side queues one exit, after every chunk, and that a writer takes what it is given.
- Tar.TarRoundTrip: sizes of 8^11 bytes and more are outside the format's size field; the writer's own handling of them is in the specification.
- Layers of services are sets: members of a layer start together, so the sorted order within one is not modelled. Health probes, `doctor` and the bucket set-up after `up` are left out.
- The wait for the guest at the end of a copy-in follows the handle protocol and is not repeated.
- Timeouts and the wall clock: a timeout is a cancel or a failed request.
- The other Go wrappers (images, info, metrics, volumes, ssh): they repeat the claim pattern.
