# MikroTunnel's reconciliation engine, verified

MikroTunnel keeps the tunnels an operator wants in a table and has a controller turn them into GRE
interfaces, addresses and firewall rules. This project models that engine in Dafny as one state
machine and proves what it keeps: who may touch what on the host, what a success means, that it
converges, that it recovers from a crash at any moment, and how long it backs off.

## How it is built

- `Domain`: tunnels, operations, endpoint and address texts, the ownership marker.
- `Kernel`: the host. Links with an interface index (so "unchanged" includes "never recreated"),
  the ordered rule list, and the netlink and iptables primitives. Every primitive of the host and
  every statement of the store takes its outcome and its duration from a *plan*, a function from
  the number of the primitive to a fault and an elapsed time. A statement about all plans is a
  statement about every combination of failures; a crash after primitive n is the plan under which
  everything fails from n on (nothing then changes any more). "Fault-free" means that no primitive
  reports an error and that iproute2 keeps the alias it is given; netlink may still drop aliases,
  as some kernels do, when a link is made and when one is set.
- `Provider`, `Store`, `Controller`, `Api`: the components. Each routine appears twice: as a
  method of a class that changes the host or the tables in place, in the order of the original, and
  as a function on values that the method is proved equal to. The theorems are about the functions.
- `Healing`, `Goal`: the central idea. The outcome of a fault-free reconcile has a closed form,
  the *goal*; every partial run, wherever and however it stops, leaves the goal as it was.
- `Frames`, `QuietSteps`, `Failures`, `Causes`: what a controller step and a pass may change, under
  every plan; exactly what a step does when nothing fails; what it records; and what stops it.
- `ErrorTexts`: which failing primitive is reported in which words.
- `Punctual`: when a step is made and when it is not.
- `Truth`: what a success vouches for, to the last rule.
- `Convergence`, `FullConvergence`: two-pass convergence of links and rows, and in full.
- `Dying`, `Recovery`, `PassRecovery`, `Refusal`: crash recovery of one step and of whole passes, and
  what becomes of a tunnel whose link is not claimed.
- `Backoff`, `BackoffRuns`: the time that failures in a row take, for one tunnel's own steps and
  for whole runs.
- `Runs`, `Settlement`, `CleanDeletion`: whole runs of handlers, passes, restarts and outside
  changes, each one atomic step.
- `Interleaving`, `Refinement`: the store under every interleaving of single statements, stale
  write-backs included, and the proof that the atomic steps are sequences of such statements.
- `Edits`, `Limits`: from a request to the host; and where the guarantees end, as exact conditions.

## Where the code and its documents differ

The model follows the code.

- `docs/architecture.md:35` says every state transition creates an operation record. The handlers
  ignore an error from the insert (`internal/api/server.go:354-356`), so a request can be accepted
  without one (`Api.Logged`).
- `README.md:20` calls deletes durable. A write-back from a snapshot taken before the delete
  undoes it (`Interleaving.DeleteCanBeUndone`); with atomic steps deletes are durable
  (`Runs.DeletionIsForGood`).
- `docs/architecture.md:39` promises convergence for enabled tunnels. A disabled tunnel whose link
  is absent fails on every attempt (`Limits.DisabledAndAbsentNeverSucceeds`), an interface left
  unmarked by a crash is refused ever after (`Refusal.RefusedForGood`), and an operation
  left open after its row was dropped is never settled (`Limits.OrphanIsForGood`).
- An update is checked less than a create: neither the peer address nor a clash with an existing
  interface (`internal/api/server.go:219-223` against `262-281`).

## Model

| member | source | states |
|---|---|---|
| `Kernel.Host.LinkAdd` | internal/provider/gre/provider_linux.go:180-193 | the primitive as the code relies on it: EEXIST for a taken name and for a taken (local, remote) pair alike, a new interface index otherwise, and an alias that may be dropped |
| `Kernel.Host.LinkSetAlias` | internal/provider/gre/provider_linux.go:215-229 | an alias set through netlink may be acknowledged and not kept |
| `Kernel.Host.IPLinkSetAlias` | internal/provider/gre/provider_linux.go:227-240 | the fallback through iproute2, which may drop the alias too, in a plan of its own kind |
| `Domain.MarkerInjective` | internal/provider/gre/provider_linux.go:20 | two tunnels with the same marker are the same tunnel |
| `Provider.OwnershipMarked` | internal/provider/gre/provider_linux.go:215-242 | under every plan only the named link's alias changes; success means the marker reads back |
| `Provider.MarkOwnership` | internal/provider/gre/provider_linux.go:215-242 | the routine on the host in place, equal to `OwnershipMarked` |
| `Provider.Created` | internal/provider/gre/provider_linux.go:180-213 | an existing link is never altered; a new one has the stored endpoints, TTL, MTU and no alias but the marker; success means an owned link is there |
| `Provider.Create` | internal/provider/gre/provider_linux.go:180-213 | the routine on the host in place, equal to `Created` |
| `Provider.Acquire` | internal/provider/gre/provider_linux.go:70-91 | a link without the marker is spared on every path; getting through means an owned link with the stored endpoints and TTL |
| `Provider.AddressEnsured` | internal/provider/gre/provider_linux.go:244-265 | nothing but the addresses of the named link changes |
| `Provider.EnsureAddress` | internal/provider/gre/provider_linux.go:244-265 | the deletion loop in place, equal to `AddressEnsured` |
| `Provider.MasqueradeEnsured` | internal/provider/gre/provider_linux.go:130-154 | rules that do not carry the tunnel's marker keep their content and order, links are untouched; success with masquerading wanted means both rules are there |
| `Provider.RemoveRule` | internal/provider/gre/provider_linux.go:154 | check, then delete, ignoring the outcome |
| `Provider.EnsureMasquerade` | internal/provider/gre/provider_linux.go:130-152 | the routine on the host in place, equal to `MasqueradeEnsured` |
| `Provider.Reconciled` | internal/provider/gre/provider_linux.go:69-110 | ownership frame on every success and error path; success means the link is as stored, or disabled and absent |
| `Provider.ReconcilePlatform` | internal/provider/gre/provider_linux.go:69-110 | the routine on the host in place, equal to `Reconciled`, with the same promises |
| `Provider.Removed` | internal/provider/gre/provider_linux.go:112-128 | ownership frame on every path; success means the name is absent |
| `Provider.RemovePlatform` | internal/provider/gre/provider_linux.go:112-128 | the routine on the host in place, equal to `Removed`, with the same promises |
| `Provider.Observed` | internal/provider/gre/provider_linux.go:52-67 | up and down are reported exactly of the tunnel's own link, missing exactly of an absent one, unknown exactly when the read failed; the host is not changed |
| `Provider.ObservePlatform` | internal/provider/gre/provider_linux.go:52-67 | the routine, equal to `Observed` |
| `Provider.DiscoveredFrom` | internal/provider/gre/provider_linux.go:22-35 | every item describes a GRE link with both endpoints set, whose texts parse back to the link's endpoints |
| `Provider.Discover` | internal/provider/gre/provider_linux.go:22-35 | the listing loop: on success every link of the host is met exactly once, and the items are `DiscoveredFrom` of that order |
| `Provider.Adopted` | internal/provider/gre/provider_linux.go:44-50 | only the alias of a previously managed GRE link may change; success means it is the new marker |
| `Provider.Adopt` | internal/provider/gre/provider_linux.go:44-50 | the routine on the host in place, equal to `Adopted` |
| `Healing.AddressRepair` | internal/provider/gre/provider_linux.go:244-265 | from any address list a successful repair leaves exactly the stored address, recognised before or not; a broken one leaves a list whose repair ends in the same place |
| `Healing.DriftDroppedKeeps` | internal/provider/gre/provider_linux.go:253-260 | wherever the loop stops, the wanted address is neither lost nor gained |
| `Healing.QuietMasquerade` | internal/provider/gre/provider_linux.go:130-152 | fault-free, the rules become their closed form |
| `Healing.GoalRulesTwice` | internal/provider/gre/provider_linux.go:130-154 | that form is a fixpoint and has the tunnel's rules exactly if wanted, the old form never |
| `Healing.RuleGoesIff` | internal/provider/gre/provider_linux.go:154 | a rule is gone after its removal if and only if it was absent, or there once and both calls worked |
| `Healing.MasqueradeIff` | internal/provider/gre/provider_linux.go:130-154 | the same for the whole rule routine, wanted or not, under every plan |
| `Healing.GoalRulesFixpointIff` | internal/provider/gre/provider_linux.go:130-154 | a fault-free change of the rules changes nothing if and only if they are as wanted |
| `Healing.UnmasqueradeHeals` | internal/provider/gre/provider_linux.go:140-145 | a withdrawal broken anywhere, in any way, does not move the goal of the rules |
| `Healing.DyingMasquerade` | internal/provider/gre/provider_linux.go:146-151 | neither does a placement cut off by a crash |
| `Goal.ReconcileHeals` | internal/provider/gre/provider_linux.go:69-110 | under every plan an error leaves the goal of the links where it was unless an unmarked link is left; success has reached it |
| `Goal.ReconcileReachesGoal` | internal/provider/gre/provider_linux.go:69-110 | fault-free, on kernels that drop aliases as on others, the goal is reached: links, interface indexes, addresses, ordered rules |
| `Goal.SuccessIsTruthful` | internal/provider/gre/provider_linux.go:69-110 | success under any plan: link, endpoints, TTL, MTU, administrative state and exactly the stored address |
| `Goal.SuccessAppliesIff` | internal/provider/gre/provider_linux.go:69-154 | under every plan: after a success with a link there the desired state holds in full, rules included, if and only if each rule to go was absent, or there once and its calls worked |
| `Goal.QuietSuccessApplies` | internal/provider/gre/provider_linux.go:69-154 | fault-free and with no own rule doubled, success also vouches for the rules, present exactly if wanted |
| `Goal.Idempotence` | internal/provider/gre/provider_linux.go:69-154 | a reconcile that succeeded under any plan, repeated fault-free: it succeeds, never takes the recreate branch, and keeps every link, index and address; the ordered rules stay if and only if they were as wanted |
| `Goal.QuietIdempotence` | internal/provider/gre/provider_linux.go:69-154 | after a fault-free success with no own rule doubled, the second run leaves the whole host as it was |
| `Goal.DyingReconcileHealsRules` | internal/provider/gre/provider_linux.go:69-154 | a crash anywhere in a reconcile leaves the goal of the rules as it was |
| `Goal.RemoveHeals` | internal/provider/gre/provider_linux.go:112-128 | the same for a removal under every plan; fault-free it leaves no link and no rule |
| `Store.Db.UpdateTunnel` | internal/store/sqlite.go:95-105 | keeps names distinct and the set of ids; touches no other row |
| `Store.Db.CreateTunnel` | internal/store/sqlite.go:90-93 | keeps names distinct; touches no other row |
| `Store.SQLiteStore.CreateTunnel` | internal/store/sqlite.go:35-46 | the insert in place: refused exactly for a taken id or name |
| `Store.SQLiteStore.UpdateTunnel` | internal/store/sqlite.go:95-105 | the whole row but the creation time; never inserts |
| `Store.SQLiteStore.DeleteTunnel` | internal/store/sqlite.go:107-117 | the row goes, or is reported missing |
| `Store.SQLiteStore.ListTunnels` | internal/store/sqlite.go:122-137 | every row exactly once |
| `Store.SQLiteStore.MarkOperationsRunning` | internal/store/sqlite.go:189-192 | the update loop in place: afterwards nothing of the tunnel is queued; an operation either stays as it was or was the tunnel's and queued, and then only its status changed |
| `Store.SQLiteStore.CompleteOperations` | internal/store/sqlite.go:194-198 | the update loop in place: afterwards nothing of the tunnel is open; an operation either stays as it was or was the tunnel's and open, and then status, message and end are the given ones |
| `Store.SQLiteStore.RequeueInterruptedOperations` | internal/store/sqlite.go:200-209 | nothing is left running and no retry time is left; the second statement is not reached if the first breaks |
| `Controller.ComputeRetryDelay` | internal/controller/reconciler.go:111-123 | the doubling loop returns 0 below 1 and else min(300, 5·2^(n−1)) s; the values on its way double at most six times and never pass 320 s |
| `Controller.RetryDelayShape` | internal/controller/reconciler.go:111-123 | monotone, at most 300 s, and at the cap exactly from 7 failures on |
| `Controller.Reconciler.MarkTunnel` | internal/controller/reconciler.go:88-97 | equal to `Mark`: the snapshot's row with the outcome fields set |
| `Controller.Reconciler.FailTunnel` | internal/controller/reconciler.go:99-109 | equal to `Fail`: count, retry time, row, then the operations |
| `Controller.Reconciler.ReconcileTunnel` | internal/controller/reconciler.go:53-87 | equal to `ReconcileOne` |
| `Controller.Reconciler.ReconcileAll` | internal/controller/reconciler.go:41-52 | one listing, then a step per row, equal to `Pass` |
| `Controller.Reconciler.Restart` | internal/controller/reconciler.go:28-30 | equal to `Restarted` |
| `Frames.ReconcileOneFrame` | internal/controller/reconciler.go:53-109 | one step under every plan: only the tunnel's own link, rules, row and operations change, the row keeps its intent, operations move forward only |
| `Frames.PassOwnership` | internal/controller/reconciler.go:41-87 | a pass over any rows under every plan: links under other names, other owners' links and other owners' rules stay, in order |
| `Frames.StaysCurrent` | internal/controller/reconciler.go:41-52 | the listing stays current for the tunnels not yet visited |
| `Frames.PassKeepsIntent` | internal/controller/reconciler.go:41-109 | surviving rows keep every field the operator set and the creation time; no row is made |
| `Frames.VerdictSpeaksForOps` | internal/controller/reconciler.go:53-109 | an operation turns to success only in a step whose verdict says so |
| `Truth.VerdictIsExact` | internal/controller/reconciler.go:53-87 | under every plan the verdict "success" means the current desired state holds in host and table, down to the rules not wanted if and only if each was absent, or there once and its calls worked |
| `Truth.TruthfulSuccess` | internal/controller/reconciler.go:53-87 | whenever an operation turns to success it is the tunnel's and the above holds |
| `Truth.QuietSuccessIsFull` | internal/controller/reconciler.go:53-87 | fault-free and with no own rule doubled, success means the desired state in full |
| `Truth.SuccessMayLeaveRule` | internal/provider/gre/provider_linux.go:154 | a concrete plan: one check fails, the delete is a success, the row is gone, the rule is not |
| `Frames.OnlyDeletedRowsGo` | internal/controller/reconciler.go:64-72 | a row goes only if it was to go and its removal returned without error in the same step |
| `QuietSteps.QuietApply` | internal/controller/reconciler.go:73-86 | fault-free: goal reached, row healthy with the observed state, every open operation a success |
| `QuietSteps.QuietDelete` | internal/controller/reconciler.go:64-72 | fault-free: link, rules and row gone, every open operation a success |
| `Failures.FailureIsRecorded` | internal/controller/reconciler.go:99-109 | a step that reports failure, under any plan: the row shows the very error of the provider, or what was amiss on the host afterwards, one failure more, and a retry one delay after the row was written; every open operation of the tunnel failed with that same error and delay, at the last moment of the step |
| `Failures.SuccessIsRecorded` | internal/controller/reconciler.go:64-87 | a step that reports success, under any plan: the row up or down as desired with no failures, error or retry, or gone; every open operation a success with its message, at the last moment of the step |
| `Failures.StepTakesUp` | internal/store/sqlite.go:189-192 | a step that starts leaves none of its tunnel's operations queued, however it ends |
| `Causes.CauseIsRecorded` | internal/controller/reconciler.go:53-109 | faults aside, a due step fails if and only if the host gives a cause, told from the host: an unmarked link under the name, a disabled tunnel without a link, endpoints that do not parse or that another link has, an address that does not parse, no default route; that cause is what row and operations say, and the links left behind are told exactly |
| `Causes.ReconcileCause` | internal/provider/gre/provider_linux.go:69-110 | the provider's half: which error, in which order, and what it has done by then; a stopped reconcile never comes to the rules |
| `Causes.RemoveCause` | internal/provider/gre/provider_linux.go:112-128 | the same for a removal; rules are withdrawn before the link is looked for |
| `Causes.RemovalNeedsRoute` | internal/provider/gre/provider_linux.go:112-113 | without a default route a removal touches nothing, under every plan |
| `Causes.StepConcludes` | internal/controller/reconciler.go:53-109 | while the store works a step either is skipped or settles its operations, whatever the host does |
| `Causes.StaleStepSettlesNothing` | internal/store/sqlite.go:95-117 | a step from a row that is no longer stored settles no operation and makes no row, under every plan |
| `ErrorTexts.MarkTexts` | internal/provider/gre/provider_linux.go:215-242 | marking told from the plan alone: which failure is which error, and that an alias that took is not set a second way |
| `ErrorTexts.CreateTexts` | internal/provider/gre/provider_linux.go:180-213 | which failing primitive of a creation is which error |
| `ErrorTexts.AddressTexts` | internal/provider/gre/provider_linux.go:244-265 | the same for the address |
| `ErrorTexts.EnsureFailsIff` | internal/provider/gre/provider_linux.go:149-150 | a rule is appended if and only if its check did not find it, failed or not, and the addition works; it fails exactly if the addition was called for and failed |
| `ErrorTexts.SwitchTexts` | internal/provider/gre/provider_linux.go:98-109 | which failing primitive of the last part is which error; an enabled link comes up before the rules, a disabled one goes down after them |
| `ErrorTexts.RemoveTexts` | internal/provider/gre/provider_linux.go:112-128 | the same for a removal |
| `ErrorTexts.AdoptTexts` | internal/provider/gre/provider_linux.go:44-50 | the same for an adoption |
| `Punctual.SkippedIff` | internal/controller/reconciler.go:54-56 | a step is skipped if and only if the row has a retry time that has not come, and then nothing happens at all |
| `Punctual.RetriedInTime` | internal/controller/reconciler.go:99-108 | after the n-th failure the row is skipped exactly until 5, 10, 20, 40, 80, 160 and from the seventh on 300 seconds after the failure was recorded |
| `Punctual.PassIsPunctual` | internal/controller/reconciler.go:41-56 | while the store works a pass takes up every tunnel whose time has come when it begins, and leaves alone every one whose time has not come when it ends |
| `Punctual.EveryPassIsPunctual` | internal/controller/reconciler.go:25-56 | so does every pass of every such run |
| `Convergence.PassCleans` | internal/controller/reconciler.go:41-87 | one pass frees every stale pair of endpoints even when targets are still taken, and removes what is to go |
| `Convergence.PassConverges` | internal/controller/reconciler.go:41-87 | a pass that starts clean converges |
| `Convergence.TwoPassConvergence` | internal/controller/reconciler.go:41-87 | two due passes, in any orders, bring every enabled tunnel to its stored state and remove every deleted one, even when tunnels swap or cycle endpoints |
| `FullConvergence.DueAfterCap` | internal/controller/reconciler.go:53-56 | five minutes after a pass over due rows every row is due again |
| `FullConvergence.TwoPassesSuffice` | internal/controller/reconciler.go:41-87 | two-pass convergence in full, told from the world before: with the second pass five minutes after the first, firewall rules included, for enabled, for deleted and for disabled tunnels whose link would do |
| `Convergence.SwapIsWellPosed` | internal/provider/gre/provider_linux.go:182-193 | two tunnels that swap endpoints meet the hypotheses, though neither's endpoints are free at first |
| `Limits.OnePassIsNotEnough` | internal/provider/gre/provider_linux.go:83-91 | a tunnel that comes first and finds its endpoints taken has no link after that pass |
| `Recovery.StepCutShort` | internal/controller/reconciler.go:53-87 | a step that reports no failure leaves each open operation open or closed as a success |
| `Recovery.CrashKeepsGoal` | internal/controller/reconciler.go:53-109 | the host a crash leaves has the goal of the host before the step, links and rules |
| `Recovery.UnclaimableIsRefused` | internal/provider/gre/provider_linux.go:81-82 | a link under the name without the marker is never changed and no step succeeds, under any plan |
| `Refusal.RefusedForGood` | internal/provider/gre/provider_linux.go:81-82 | over every run, deletes and imports included, such a link stays as it is, the tunnel stays in the table, and no operation of it becomes a success, until it is renamed or somebody else sees to the link |
| `Recovery.StepCut` | internal/controller/reconciler.go:53-109 | a step cut off by a crash reports no failure |
| `Recovery.CrashRecoversIff` | internal/provider/gre/provider_linux.go:182-212 | of one step alone: with the row still there, crash, restart and one fault-free step give what the step would have given, interface index and ordered rules included, if and only if the crash left no unmarked link |
| `Recovery.StepKeepsClaim` | internal/provider/gre/provider_linux.go:180-213 | on kernels that keep aliases no step, under any plan, leaves an unmarked link under the name |
| `Recovery.CleanCrashRecovers` | internal/store/sqlite.go:200-209 | so there the crash of a step is mended by one step after the restart, indexes and ordered rules included, whenever the row is still there; an enabled tunnel's is |
| `PassRecovery.StepAlike` | internal/controller/reconciler.go:53-109 | a step for another tunnel, under any plan, leaves a tunnel its link, row, operations and rules |
| `PassRecovery.PassArrives` | internal/controller/reconciler.go:41-87 | a fault-free pass over any table gets through to every tunnel that can be got through to |
| `PassRecovery.CrashedPass` | internal/controller/reconciler.go:41-109 | a crash anywhere in a pass loses nothing of a tunnel's goal unless it leaves an unmarked link |
| `PassRecovery.CrashedPassRecoversIff` | internal/store/sqlite.go:200-209 | crash at any primitive of a pass, restart, one fault-free pass over the new listing: the same link up to the index of an interface made anew, the same rules, row and operations as after an uninterrupted pass, if and only if the crash left no unmarked link under the name, and the row is still there or nothing of the tunnel is open |
| `Backoff.StepMoves` | internal/controller/reconciler.go:53-109 | a step keeps the retry state, resets it, or counts one failure and waits its delay |
| `Backoff.DelaySumClosed` | internal/controller/reconciler.go:111-123 | the sum of the delays: 5·(2^n−1) s up to six, 315+300·(n−6) s from there |
| `Backoff.ConsecutiveFailures` | internal/controller/reconciler.go:99-109 | over any run, n failures in a row take at least the sum of the first n−1 delays |
| `Backoff.BackoffTakesTime` | internal/controller/reconciler.go:99-123 | the same in closed form |
| `BackoffRuns.Trace` | internal/controller/reconciler.go:25-52 | what a tunnel's row sees of a run of passes, other tunnels' edits and outside changes is a run of its own steps |
| `BackoffRuns.RunTakesTime` | internal/controller/reconciler.go:53-123 | so in every such run reaching n failures in a row takes at least 5·(2^(n−1)−1) s up to seven, 315+300·(n−7) s from there |
| `Api.TunnelCreated` | internal/api/server.go:199-232 | only its own new row and one operation; a refusal leaves the tables as they were; the row is in bounds and due |
| `Api.TunnelUpdated` | internal/api/server.go:233-287 | only its own row and one operation; a refusal leaves the tables as they were; the desired state stays, the row is in bounds and due; never of a tunnel that is to go |
| `Api.TunnelDeleted` | internal/api/server.go:288-314 | likewise; the row is to go, keeps its name and is due |
| `Api.StateSet` | internal/api/server.go:315-345 | likewise; never brings back a tunnel that is to go |
| `Api.ValidateIff` | internal/provider/gre/provider.go:12-40 | validation passes if and only if the request is proper: a name of 1 to 15 letters, digits, _ or - that begins with a letter; two different endpoints that are addresses; an address that parses; MTU 0 or 576..9000; TTL 0 or 1..255 |
| `Api.Logged` | internal/api/server.go:354-356 | at most one queued operation more, and one if the store works |
| `Api.Server.CreateTunnel` | internal/api/server.go:199-232 | the handler in place, equal to `TunnelCreated` |
| `Api.Server.UpdateTunnel` | internal/api/server.go:233-287 | the handler in place, equal to `TunnelUpdated` |
| `Api.Server.DeleteTunnel` | internal/api/server.go:288-314 | the handler in place, equal to `TunnelDeleted` |
| `Api.Server.SetTunnelState` | internal/api/server.go:315-345 | the handler in place, equal to `StateSet` |
| `Api.Server.ImportInterface` | internal/api/server.go:97-112 | the handler in place, equal to `Imported` |
| `Api.ImportMirrors` | internal/api/server.go:97-112 | an import that answers 201 stored a row that says of the link what the link is, and changed its alias only |
| `Api.MirrorKept` | internal/provider/gre/provider_linux.go:69-110 | reconciling an owned link its row mirrors keeps the interface, its index, endpoints, TTL and MTU under every plan |
| `Api.ImportKeepsLink` | internal/api/server.go:97-112 | so the first reconcile after an import never recreates the link and keeps its MTU, under every plan, and if it succeeds keeps the first address |
| `Api.FailedImportLeavesTableIff` | internal/api/server.go:108-109 | an import that fails leaves the tables as they were, unless its row went in, the adoption failed and the compensating delete broke; in exactly that case the row stays |
| `Edits.CreateStores` | internal/api/server.go:199-232 | an accepted create stores the request field by field with its defaults, at the time of the insert, and its last statement logs one queued operation with action, message and time, unless that statement broke; faults aside every answer is told from the request, the host and the table, in the order of the checks |
| `Edits.UpdateStores` | internal/api/server.go:233-287 | the same for updates; id, desired state and creation time stay; a broken read answers 500 |
| `Edits.StateChangeStores` | internal/api/server.go:288-345 | deletes and state changes set the desired state, clear the outcome and change nothing else; log and answers likewise |
| `Edits.WorkingStoreLogs` | internal/api/server.go:354-356 | while the store works the log of an accepted request is the old one and that operation |
| `Edits.CreateReachesHost` | internal/api/server.go:199-232 | an accepted create and one fault-free step: link, address and rules on the host are those of the request |
| `Edits.UpdateReachesHost` | internal/api/server.go:233-287 | the same for an accepted update, up or down as the tunnel was set |
| `Edits.DiscoveredExactly` | internal/provider/gre/provider_linux.go:22-35 | the listing has an item for a name if and only if its link has both endpoints set, and the item an address if and only if the link has one |
| `Edits.ImportAcceptsIff` | internal/api/server.go:97-112 | faults aside, an import answers 404 if the host has no GRE link of that name with two real endpoints, 409 if it was not managed before, has no address or its name is taken in the table, and else 201 |
| `Edits.ImportBroken` | internal/api/server.go:98-105 | it answers 500 if and only if the links or the tunnels could not be listed |
| `Edits.ImportStores` | internal/api/server.go:97-112 | an accepted import stores what the link is and, of what a link does not say, nothing: no masquerading, peer address, description, failure, error or retry; its last statement logs one queued operation, unless it broke |
| `Edits.ImportReachesHost` | internal/api/server.go:97-112 | an accepted import and one fault-free step: the very interface that was found, marked and up, with its endpoints, TTL, MTU and first address, and none of the tunnel's rules |
| `Runs.StepSound` | internal/store/sqlite.go:35-46 | every handler, pass and restart keeps rows under their ids and names distinct |
| `Runs.OnlyDeletedRowsLeave` | internal/controller/reconciler.go:64-72 | in every run a row goes only in a pass and only if it was to go |
| `CleanDeletion.RowsGoWhenRemoved` | internal/controller/reconciler.go:64-72 | and its removal returned without error at its turn in that pass, after which no link has its name |
| `Runs.DeletionIsForGood` | internal/api/server.go:243-246 | in every run a tunnel to go stays so until its row goes, and never comes back |
| `Settlement.StepSettles` | internal/controller/reconciler.go:53-109 | a due step closes all its tunnel's operations; one that is not due has none to close |
| `Settlement.RunStaysPrompt` | internal/api/server.go:276-285 | in every run in which the store works, a tunnel waiting for a retry has nothing open and every open operation names a row |
| `Settlement.EveryPassSettlesAll` | internal/controller/reconciler.go:41-109 | so every pass of every such run closes every operation there is; backoff delays no request |
| `CleanDeletion.RunKeepsHome` | internal/provider/gre/provider_linux.go:180-242 | in runs without renames every link with a stored tunnel's marker has that tunnel's name |
| `CleanDeletion.OneLinkOneTunnel` | internal/provider/gre/provider_linux.go:20 | so no two tunnels manage one link, nor one tunnel two |
| `CleanDeletion.FinishedDeleteLeavesNothing` | internal/controller/reconciler.go:64-72 | when a pass finishes a delete no link anywhere carries the tunnel's marker |
| `Interleaving.ActKeepsLaw` | internal/controller/reconciler.go:88-109 | every store statement from every snapshot keeps the row law: up or down means no failures and no retry time, a retry time means a failure, TTL in a byte, type GRE, and for rows not imported a name, endpoints, address, MTU and TTL as a request must have them; names distinct |
| `Interleaving.HistoryIsLawful` | internal/store/sqlite.go:90-209 | so does every history |
| `Interleaving.TtlCastIsExact` | internal/provider/gre/provider_linux.go:272 | comparing a link's TTL with the byte is comparing it with the stored number |
| `Interleaving.RemovedForGood` | internal/store/sqlite.go:95-117 | in every history a removed id never reappears, stale write-backs or not |
| `Interleaving.LogOverHistory` | internal/store/sqlite.go:161-209 | in every history the log only grows, identity never changes, an end is an end with its time, and running becomes queued only by a requeue |
| `Interleaving.LostUpdate` | internal/controller/reconciler.go:88-97 | a write-back keeps the stored intent if and only if the snapshot carries it |
| `Interleaving.DeleteCanBeUndone` | internal/controller/reconciler.go:88-97 | for every enabled row there is a history in which its accepted delete is undone |
| `Refinement.ReconcileOneIsActs` | internal/controller/reconciler.go:53-109 | a controller step from any row ever read is a sequence of single statements |
| `Refinement.StepIsActs` | internal/api/server.go:97-356 | so is every step of a run; only a restart requeues |
| `Refinement.RunIsLawful` | internal/controller/reconciler.go:25-109 | so every run keeps the row law of all interleavings |
| `Refinement.RunRows` | internal/controller/reconciler.go:88-109 | the law spelled out for runs from empty tables; a row is as a request must have it if its tunnel was never imported, and from its last accepted update on if it was |
| `Refinement.LogOverRun` | internal/store/sqlite.go:161-209 | the life of operations over every run |
| `Limits.QuietVerdict` | internal/controller/reconciler.go:53-87 | faults aside, a due step succeeds if and only if there is a default route, the name is free or owned, and, to stay, the address parses and the link will do or its endpoints are free; disabled also needs the link there |
| `Limits.QuietReconcile` | internal/provider/gre/provider_linux.go:69-110 | the same condition for the provider alone |
| `Limits.DisabledAndAbsentNeverSucceeds` | internal/controller/reconciler.go:83-85 | a disabled tunnel without a link fails on every attempt |
| `Limits.OtherEgressRuleStays` | internal/provider/gre/provider_linux.go:135-150 | a rule for a former egress survives every reconcile and removal, under every plan |
| `Limits.RemovalLeavesNoRuleIff` | internal/provider/gre/provider_linux.go:112-154 | a fault-free removal leaves no rule of the tunnel's if and only if it had none but for the present egress and name |
| `Limits.RenameLeavesOldLink` | internal/api/server.go:266 | after a rename no later step of a run touches the interface under the former name, until a row is given that name again |
| `Limits.DeleteLeavesNoMarkIff` | internal/controller/reconciler.go:64-72 | a finished delete leaves no marked link if and only if none was under another name |
| `Limits.OrphansMadeIff` | internal/controller/reconciler.go:68-71 | once the row is dropped the operations are settled if and only if the last statement works |
| `Limits.OrphanIsForGood` | internal/controller/reconciler.go:68-71 | an open operation whose row is gone stays open in every run |

## Left out

- FullConvergence.TwoPassesSuffice: promises nothing to a disabled tunnel whose link has to be recreated and finds its endpoints taken; it has no link after the first pass (`Limits.OnePassIsNotEnough`) and never succeeds again (`Limits.DisabledAndAbsentNeverSucceeds`). `Convergence.TwoPassConvergence` tells the condition after the first pass.
- PassRecovery.CrashedPassRecoversIff: compares everything of a tunnel but update and finishing times and the index of an interface made anew, which differ; of the rules, which of the tunnel's own are there, the order among tunnels being the listing's.
- Recovery.CrashKeepsGoal: is for enabled and deleted tunnels; a disabled one that loses its link to a crash between delete and create never gets it back.
- CleanDeletion.RunKeepsHome: is for runs without renames; `Limits.DeleteLeavesNoMarkIff` is the general condition.
- Store.SQLiteStore.ListTunnels: says nothing of the order of rows, which the text times do not keep.
- Kernel.Host.LinkAdd: assumes that an endpoint that is no IP to `net.ParseIP` (a zoned IPv6 address passes validation) makes the primitive fail; what the netlink library and the kernel do with a missing endpoint is not in the sources.
- Limits.QuietVerdict: that such endpoints never succeed rests on this assumption; for endpoints that parse it does not.
- Limits.QuietReconcile: likewise.
- Texts of errors: the fixed part of each, without the name and the wrapped cause the code adds.
- IPv6 tunnel addresses on the host: the code lists IPv4 addresses only; a stored IPv6 address counts as "no IPv4 address".
- The default route: its interface is fixed within a statement; its lookup is one primitive.
- Packet marks: they are determined by the tunnel's id, as is the rule comment, and are not shown apart; collisions of CRC32 are not considered.
- `exec` of `ip link set alias`: the same primitive as setting the alias through netlink.
- Ids: fresh by assumption, as random 128-bit ids are.
- Time: one clock that does not run backwards; text storage of times is not modelled.
- Outside changes within a step: the host is changed by others between steps only; between the reads and writes of the store they are in `Interleaving`.
- The interface check of a create reads the host's links as the provider does.
- Deleting a discovered interface (`internal/api/server.go:92-96`): bypasses ownership by design; in `Runs` it is an outside change.
- Listing routes, host inspection, IPv4 forwarding, the ping probe, authentication, HTTP, JSON, the dashboard, the command line and the installer.
- Schema migration and API keys in the store.
- The provider for other systems, which refuses everything.
