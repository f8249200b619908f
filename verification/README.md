# KubeNeuron: verified protocols

KubeNeuron remediates GPU faults: agents detect them, a controller walks incidents
along playbooks, and janitors clean up what a crash leaves behind. This project
models the parts where correctness depends on interleaving (crashes, failed writes,
redelivery, reloads, stale caches, expiring leases) and proves what they keep over
whole runs. Durations and instants are integers. Every outcome the code does not
control is an argument or an event, so a statement about a run covers every behaviour
of the network, the disk, the store and the platform.

`dafny verify dfyconfig.toml` checks the whole project.

| files | component |
|---|---|
| `ActionJournal`, `AgentProtocol`, `AgentSafety`, `AgentExactness`, `AgentProcess` | the agent's action journal and loop: at-most-once execution |
| `PciAddress`, `DetectionKeys`, `DetectionWindow`, `DetectionMeaning` | the detection deduplication window |
| `CheckpointPolicy`, `CheckpointStamp`, `CheckpointCoordinator` | checkpoint coordination before a disruption |
| `Admission`, `Escalation` | admission under reloads, dry-run, the escalation ladder, action identities |
| `RuntimeVersion`, `RuntimeReport`, `UniqueSelection`, `RuntimeProfiles`, `ResetGate`, `RuntimeCoverage` | runtime contracts and the reset gate |
| `StackJanitor`, `StackProtocol` | accelerator-stack quiesce, restore and their janitor |
| `CordonReason`, `CordonJanitor`, `CordonHistory` | cordon ownership and its janitor |
| `DegradedTaint` | the degraded-node mark and its janitor |
| `LogOnce` | the bounded suppression set |
| `Common`, `Text`, `Sequences`, `Selectors` | shared values, strings, sequences and label selectors |

Code written as mutation is modelled as classes and methods with loops, each proved
against a specification function; the run-level theorems are about those functions.
`AgentProcess`, for example, proves that the loop's methods perform exactly the events
of `AgentProtocol`, about which `AgentSafety` proves at-most-once execution.

## Where the code falls short of its promise

Each of these is a lemma with a concrete input or run, beside one that says, for all
inputs, exactly when the promise does hold.

- **At-most-once execution** (`OverlappingLeasesRunTwice`, `LateRedeliveryRunsTwice`).
  A lease that replaces the current one of a waiting entry, and whose claim line
  survives a failed fsync, makes the reopened journal drop the running marker written
  under the first lease. An executed action delivered again after its acknowledged
  entry was compacted looks new. `OwedIff` shows that these two events are the whole
  exception: from every state of a run, each of them can be followed by a second
  execution, and a run without them enters the executor at most once per action
  (`AtMostOnce`).
- **Sleeping past the latest deadline** (`SlowReadsOvershoot`). The next sleep is
  computed from a clock reading taken before the observations. `NapInTimeIff`: it ends
  after the latest deadline, inside the budget, exactly when those observations took
  longer than what a poll interval left of the time to it.
- **The stamp of one incident** (`OverwrittenStampIsRegranted`). It is the least of the
  incident's proposals since it took the object (`StampIsLeastProposal`). Once another
  incident has overwritten an expired stamp, the first is granted a new window.
- **Reading a cordon reason back** (`ParenthesisMisreads`). The source relies on ids
  without a closing parenthesis; what matters is that they hold no opening one
  (`ReasonRoundTrip`).
- **The quiesce marker** (`OverlapLosesMarker`). When one incident restores a node's
  stack while another quiesces it, the node can lose its marker after its host was
  changed. `MarkedIffApart`: that is so exactly when a step begins beside one of the
  opposite kind; any number of quiesces, or of restores, may share the node.
- **A marked cordon hold** (`StaleListingDropsHeldHold`). It is dropped when its
  incident's row has been pruned and the cached listing predates the mark
  (`MarkedHoldDroppedIff`).
- **Finishing a playbook while evaluating** (`ShortenedReloadStalls`). The transition
  from evaluating to verifying is not in the state machine's table. An incident found
  past the end of its playbook, as after a reload that shortened it, stays where it is
  (`AutoEndsIff`).
- **A fresh identity per dispatch** (`LostOutcomeKeepsIdentity`,
  `HandedBackKeepsIdentity`). Reusing an identity is meant for the replay after a
  crash. A step that ran to its end, and whose outcome the store did not take, is also
  dispatched again under the identity it had; so is one a human hands back, an edge of
  the state machine that no caller takes. `ReturnIff`: these two and a crash in flight
  are exactly what lets an identity be dispatched twice; otherwise two dispatches
  differ (`DispatchesDiffer`).
- **Which refusal an overlap gets** (`OverlapRefusals`). With an invalid profile and two
  valid ones selecting the node, the order decides between "ambiguous" and "invalid"
  (`OrderDecidesIff`). Exact selection never depends on the order.
- **Ignoring a build suffix** (`ReleaseCandidateRefused`). A suffix that holds a dash
  moves the vendor prefix, so the version is refused; `SuffixIgnoredIff` says exactly
  which suffixes are ignored.
- **Unattributed faults on a multi-GPU node** (`VagueAfterAddressed`). One without a bus
  address is suppressed by one with any bus address, same node and native code
  (`SuppressionMeaning`).

## Model

| member | source | states |
|---|---|---|
| ActionJournal.MarkerSurvives | internal/agent/actionjournal/actionjournal.go:506-560 | a durable running marker survives every later reopen if and only if its claim is the one the file last recorded |
| ActionJournal.CompactionReplays | internal/agent/actionjournal/actionjournal.go:332-397 | a compacted file replays to exactly the surviving entries |
| AgentProcess.JournalStore.AppendEntry | internal/agent/actionjournal/actionjournal.go:464-504 | the table changes only when the line and its fsync succeeded; the file as the write left it |
| AgentProcess.JournalStore.Receive | internal/agent/actionjournal/actionjournal.go:181-209 | an existing id is never reset; a different intent under a known id is refused |
| AgentProcess.JournalStore.Claim | internal/agent/actionjournal/actionjournal.go:219-247 | a lease is recorded on its entry alone; a reported action cannot be claimed |
| AgentProcess.JournalStore.Move | internal/agent/actionjournal/actionjournal.go:399-449 | only the table's transitions, only well-formed entries, only that entry |
| AgentProcess.JournalStore.ListRecoverable | internal/agent/actionjournal/actionjournal.go:302-318 | every unacknowledged entry exactly once, in the order of the action ids |
| AgentProcess.AgentLoop.Report | internal/agent/agent.go:1249-1266 | sends under the recorded lease and acknowledges, or stops; done only after the post |
| AgentProcess.AgentLoop.ReportUnknown | internal/agent/agent.go:1235-1240 | the unknown outcome is durable before it is reported |
| AgentProcess.AgentLoop.SettleAndReport | internal/agent/agent.go:1220-1242 | a result is recorded before it is reported; one that cannot be recorded becomes unknown |
| AgentProcess.AgentLoop.Execute | internal/agent/agent.go:1208-1243 | the executor is entered only after the running marker is durable |
| AgentProcess.AgentLoop.Resume | internal/agent/agent.go:1177-1195 | an outcome left behind is reported without executing again |
| AgentProcess.AgentLoop.ResumeInterrupted | internal/agent/agent.go:1185-1195 | an execution found unfinished is recorded as unknown before it is reported |
| AgentProcess.AgentLoop.Process | internal/agent/agent.go:1165-1202 | performs exactly the protocol's events for the entry's state, touching that entry alone |
| AgentProcess.AgentLoop.RunQueuedAction | internal/agent/agent.go:1123-1146 | performs exactly: journal the intent, journal the lease, process |
| AgentProcess.AgentLoop.ClaimAndProcess | internal/agent/agent.go:1136-1146 | performs exactly: journal the lease, process |
| AgentProcess.AgentLoop.RecoverOne | internal/agent/agent.go:1148-1168 | performs exactly the recovery of one entry, whose lease is held against a second reading of the clock |
| AgentProcess.AgentLoop.RecoverQueuedActions | internal/agent/agent.go:1148-1160 | recovers, in id order, the entries whose lease is current when they are reached, up to the first that does not settle |
| AgentSafety.RunKeeps | internal/agent/agent.go:1098-1284 | the invariant of the journal, its file and the process over every run of deliveries, failed writes, lost posts and crashes |
| AgentSafety.AtMostOnce | internal/agent/agent.go:1123-1266 | over every run without the two events below: at most one execution per action, and an OK post only for what that execution returned |
| AgentExactness.SupersededRunsTwice | internal/agent/actionjournal/actionjournal.go:506-560 | from every state: a lease replacing the current one of a waiting entry, left on file by a failed write, can be followed by two executions |
| AgentExactness.RedeliveredRunsAgain | internal/agent/actionjournal/actionjournal.go:181-209 | from every state: an executed action delivered anew can be executed again |
| AgentExactness.OwedIff | internal/agent/agent.go:1098-1284 | in every state of a run, an event leaves all further runs at-most-once if and only if it is neither of those two |
| AgentExactness.OverlappingLeasesRunTwice | internal/agent/agent.go:1123-1146 | a run that executes twice: a superseding lease whose record outlives its failed fsync |
| AgentExactness.LateRedeliveryRunsTwice | internal/agent/actionjournal/actionjournal.go:325-360 | a run that executes twice with clean writes: redelivery after compaction |
| PciAddress.NormalizesToCanonical | pkg/types/pci.go:30-51 | every spelling of a slot normalizes to its four-digit-domain form |
| PciAddress.SameDeviceIff | pkg/types/pci.go:30-51 | two spellings normalize equal if and only if they denote one domain, bus and device |
| PciAddress.NormalizeIdempotent | pkg/types/pci.go:30-51 | normalizing twice changes nothing and the domain has four digits |
| DetectionKeys.FormatInjective | internal/agent/agent.go:906-991 | formatted keys of all four families never collide |
| DetectionWindow.Window.Expire | internal/agent/agent.go:995-1005 | exactly the keys older than the window go |
| DetectionWindow.Window.Probe | internal/agent/agent.go:803-861 | a hit if and only if one of the event's probed keys was seen within the window |
| DetectionWindow.Window.Note | internal/agent/agent.go:881-901 | exactly the event's written keys are stamped now |
| DetectionWindow.Window.Duplicate | internal/agent/agent.go:795-861 | whatever the order of the instants, a duplicate only if an accepted event under a window old wrote a probed key; in order, if and only if |
| DetectionWindow.Window.Remember | internal/agent/agent.go:874-902 | the accepted event joins the history; in order, no key of an event under a window old is lost |
| DetectionWindow.Window.Handle | internal/agent/agent.go:730-787 | suppressed only if covered, and in order if and only if; only posted or spooled events are remembered; what is settled |
| DetectionWindow.SeenIffStamped | internal/agent/agent.go:1009-1012 | a key is seen if and only if an accepted event inside the window wrote it |
| DetectionMeaning.SuppressionMeaning | internal/agent/agent.go:795-902 | suppression in terms of devices: same fault, other encoding on that GPU, or an indistinguishable node fault, and nothing else |
| DetectionMeaning.OtherGpuNeverSilences | internal/agent/agent.go:795-861 | on a multi-GPU node no event about another GPU suppresses an attributed one |
| DetectionMeaning.DistinctXidsStaySeparate | internal/agent/agent.go:795-815 | different XIDs never suppress each other, whatever their class |
| DetectionMeaning.DistinctSlotsStaySeparate | internal/agent/agent.go:917-945 | unattributed events at different normalized addresses stay separate |
| DetectionMeaning.PromotionAlwaysDelivered | internal/agent/agent.go:806-861 | no run of unattributed events suppresses an attributed one with a bus address |
| DetectionMeaning.RepeatCollapses | internal/agent/agent.go:795-861 | a repeat inside the window is always suppressed |
| DetectionMeaning.VagueAfterAddressed | internal/agent/agent.go:881-901 | a fault without an address, after one with an address: suppressed on a multi-GPU node too |
| LogOnce.Suppressor.Report | internal/controller/logonce.go:35-52 | the two generations after a call, and whether the key was new |
| LogOnce.RunIsBounded | internal/controller/logonce.go:35-52 | at most twice the capacity; disjoint generations that are exactly a suffix of the recorded keys |
| LogOnce.NewKeyIsReported | internal/controller/logonce.go:35-52 | a key never seen is always reported |
| LogOnce.StaysSuppressed | internal/controller/logonce.go:35-52 | a recorded key stays suppressed through capacity further new keys |
| CheckpointPolicy.EligibleOfExact | internal/checkpoint/checkpoint.go:299-323 | the result holds exactly the eligible workloads |
| CheckpointPolicy.EligibleWorkloads | internal/checkpoint/checkpoint.go:315-323 | the loop yields exactly those, in order |
| CheckpointPolicy.Clamp | internal/checkpoint/checkpoint.go:378-386 | between zero and the limit, and unchanged inside it |
| CheckpointPolicy.GrantIsBounded | internal/checkpoint/checkpoint.go:328-351 | a workload may shorten its wait and never lengthen it past policy, budget or its own request |
| CheckpointPolicy.LongestGrant | internal/checkpoint/checkpoint.go:345-375 | an attained upper bound of the per-workload waits |
| CheckpointPolicy.SharedWait | internal/checkpoint/checkpoint.go:361-375 | bounding the longest wait is the maximum of the bounded waits |
| CheckpointPolicy.StampRoundTrip | internal/checkpoint/checkpoint.go:409-444 | a stamp reads back as the request if and only if its incident is nonblank and trimmed; no other key changes |
| CheckpointPolicy.ObservedWaitIsBounded | internal/checkpoint/checkpoint.go:495-517 | no stamp moves the observed wait out of its range |
| CheckpointStamp.NeverPastOwnProposal | internal/controller/checkpoint.go:526-594 | after any history of rewrites a step never honours a deadline past its own proposal, and keeps an earlier one of its own |
| CheckpointStamp.StampIsLeastProposal | internal/platform/kubernetes/checkpoint.go:50-118 | without rewrites the stamp is the least proposal of its incident since it took the object |
| CheckpointStamp.SoleIncidentStamp | internal/checkpoint/checkpoint.go:467-475 | for one incident over restarts and changing budgets the stamp is the least proposal written |
| CheckpointStamp.StampNeverLater | internal/platform/kubernetes/checkpoint.go:50-118 | one more request of the incident never moves its deadline later |
| CheckpointStamp.OverwrittenStampIsRegranted | internal/platform/kubernetes/checkpoint.go:50-118 | a run in which an overwritten, expired stamp is granted anew |
| CheckpointCoordinator.Candidates | internal/controller/checkpoint.go:115-137 | one loop yields the eligible among the workloads the disruption touches |
| CheckpointCoordinator.LatestIsMaximum | internal/controller/checkpoint.go:364-373 | the latest deadline is an attained maximum |
| CheckpointCoordinator.LatestDeadline | internal/controller/checkpoint.go:364-373 | the loop finds it |
| CheckpointCoordinator.NapAgainstDeadline | internal/controller/checkpoint.go:482-500 | a sleep passes the latest deadline by at most the time of the reads before it, and exactly when they outlast the slack |
| CheckpointCoordinator.NapInTimeIff | internal/controller/checkpoint.go:386-425 | each sleep of the loop ends by the latest deadline if and only if the observations of its round took no longer than the slack, or the budget ends no later |
| CheckpointCoordinator.SlowReadsOvershoot | internal/controller/checkpoint.go:386-425 | a whole phase in which a slow observation makes a sleep outlast the latest deadline, inside the budget |
| CheckpointCoordinator.Coordinator.RequestOne | internal/controller/checkpoint.go:526-583 | one retry on a conflict while the window is open; what the reply that counts leads to |
| CheckpointCoordinator.Coordinator.RequestNextCandidate | internal/controller/checkpoint.go:332-353 | one candidate: asked while the window is open, else counted unreachable |
| CheckpointCoordinator.Coordinator.RequestAll | internal/controller/checkpoint.go:329-354 | performs exactly the requests of the step, in order |
| CheckpointCoordinator.RequestsOk | internal/controller/checkpoint.go:329-354 | every candidate is tracked or counted once, and no deadline passes request time plus bounded wait |
| CheckpointCoordinator.Coordinator.ObservePass | internal/controller/checkpoint.go:388-409 | performs exactly one look at every open request against one clock reading |
| CheckpointCoordinator.LooksOk | internal/controller/checkpoint.go:388-409 | settled answers stand; while the window is open, whatever is left open has not reached its deadline |
| CheckpointCoordinator.Coordinator.ObserveRound | internal/controller/checkpoint.go:387-425 | one pass and the sleep after it, or the decision to stop |
| CheckpointCoordinator.RoundOk | internal/controller/checkpoint.go:387-425 | stopping leaves nothing open or the window over; a sleep is within poll, deadline and budget |
| CheckpointCoordinator.Coordinator.ObserveUntilSettled | internal/controller/checkpoint.go:386-426 | terminates, performing exactly the rounds until everything settled or the window is over |
| CheckpointCoordinator.ObservesOk | internal/controller/checkpoint.go:386-426 | ends only settled or with the window over, every sleep within its bounds, requests otherwise unchanged |
| CheckpointCoordinator.Coordinator.SettleRest | internal/controller/checkpoint.go:439-452 | every request settled and counted; expired only past its own deadline with the step alive |
| CheckpointCoordinator.CountAllTally | internal/controller/checkpoint.go:441-449 | counting gives each outcome its tally and the total one per request |
| CheckpointCoordinator.SettledKeeps | internal/controller/checkpoint.go:439-448 | settling keeps every bound and leaves nothing open |
| CheckpointCoordinator.Coordinator.WaitFor | internal/controller/checkpoint.go:358-459 | waits for, settles and counts exactly the requests in force |
| CheckpointCoordinator.Coordinator.AskAndWait | internal/controller/checkpoint.go:329-459 | asks every candidate, then waits; never past the budget |
| CheckpointCoordinator.WaitsOk | internal/controller/checkpoint.go:329-459 | counts sum to the candidates, none pending; expired only past its deadline; acknowledged only when a look at that workload showed the answer to the request in force; within the budget |
| CheckpointCoordinator.Coordinator.ListCandidates | internal/controller/checkpoint.go:291-315 | the workloads to ask, or what the step counts when there are none |
| CheckpointCoordinator.Coordinator.CoordinateWithin | internal/controller/checkpoint.go:285-459 | with a budget: exactly the listing, the requests, the wait and the counts |
| CheckpointCoordinator.CoordinatedIsOk | internal/controller/checkpoint.go:244-459 | so for every behaviour of the outside the pre-phase conserves its candidates and keeps its bounds |
| CheckpointCoordinator.Coordinator.Coordinate | internal/controller/checkpoint.go:244-459 | the whole pre-phase: no call and no time without a budget, else the reserve plus the grace left afterwards |
| Escalation.QuiesceIndex | internal/controller/acceleratorstack.go:188-199 | the first step that stands the stack down, or none |
| Escalation.ApplyIsLegal | internal/playbook/statemachine.go:30-64 | every move of an incident is an edge of the state machine |
| Escalation.IncidentRow.Quarantine | internal/controller/execution.go:784-793 | to a human, with position and playbook untouched; unchanged when the write fails |
| Escalation.IncidentRow.Escalate | internal/controller/execution.go:740-766 | a higher rung below the cap, else a human; unchanged when the write fails |
| Escalation.IncidentRow.RunStep | internal/controller/execution.go:196-284 | success advances, the last one to verification; a failed idle guard never escalates; a failed write leaves the row executing at its old position, with nothing in flight |
| Escalation.ActionTextInjective | internal/controller/execution.go:797-800 | the identity text is injective even when the id contains the separator |
| Escalation.PositionGrows | internal/controller/execution.go:266-266 | attempt and step never move back, and grow exactly when something progressed |
| Escalation.IdentityIffNoProgress | internal/controller/execution.go:797-800 | two instants share an action identity if and only if nothing progressed between them |
| Escalation.DispatchesDiffer | internal/controller/execution.go:797-800 | two dispatches of one run share an identity only with a crash in flight, a lost outcome or a handing back by a human between them |
| Escalation.ReturnIff | internal/controller/reconcile.go:747-753 | once a step is dispatched, an event that does not move the incident lets the same identity be dispatched again if and only if it is one of those three |
| Escalation.ReplayKeepsIdentity | internal/controller/execution.go:797-800 | the replay after a crash carries the identity of the dispatch it replays |
| Escalation.LostOutcomeKeepsIdentity | internal/controller/execution.go:274-277 | so does the dispatch after a step ran and its outcome write failed, without a crash |
| Escalation.HandedBackKeepsIdentity | internal/playbook/statemachine.go:37-37 | so does a dispatch after a failed idle guard is handed back |
| Escalation.IncidentsNeverShare | internal/controller/execution.go:797-800 | two incidents never share one |
| Escalation.LadderIsFinite | internal/controller/execution.go:740-766 | for any graph, cyclic or reloaded, the moves of a run without rewinds are bounded by rungs and steps left |
| Escalation.AutoEnds | internal/controller/reconcile.go:216-321 | the automatic walk reaches verification or a human within a known number of looks |
| Escalation.PastTheEndStalls | internal/controller/reconcile.go:291-298 | an incident evaluated past the end of its playbook never moves |
| Escalation.ShortenedReloadStalls | internal/controller/reconcile.go:291-298 | a run whose configuration is reloaded one step shorter, after which the incident never moves |
| Escalation.AutoEndsIff | internal/controller/reconcile.go:216-321 | the walk of an evaluated incident ends if and only if its index names a step |
| Selectors.LabelsMatchSelector | internal/controller/admission.go:193-200 | the loop decides matchLabels |
| Admission.StepRunner.InstallRuntimeConfig | internal/controller/runtimeconfig.go:127-200 | one new generation becomes current; absent limits keep the current ones |
| Admission.StepRunner.StartStep | internal/controller/execution.go:30-92 | admits only a pass whose pinned snapshot is current and whose step is confined |
| Admission.StepRunner.ExecuteStep | internal/controller/execution.go:426-473 | the last check: a newly installed dry-run stops it, a newly enabled one never starts it |
| Admission.LiveEffectsWereAdmitted | internal/controller/execution.go:30-202 | over any interleaving, a live effect was admitted under a snapshot current then, not dry-run, whose own selector matched; the current one is not dry-run either |
| Admission.CompensationNeedsItsQuiesce | internal/controller/execution.go:302-327 | under dry-run only a compensating step runs, for an owner of a pin whose node is still marked |
| Admission.EffectsAreDispatched | internal/controller/execution.go:426-473 | every effect of a run was dispatched by one of its executions |
| RuntimeVersion.SatisfiesIff | internal/config/runtimeversion.go:27-70 | a pin is satisfied exactly by the same runtime, major and minor |
| RuntimeVersion.SuffixIgnoredIff | internal/config/runtimeversion.go:23-70 | a suffix of a satisfying version is ignored if and only if it has no dash and extends no component the pin names |
| RuntimeVersion.ReleaseCandidateRefused | internal/config/runtimeversion.go:23-70 | a dashed suffix is not ignored |
| RuntimeReport.CheckScopes | internal/config/accelerator_profiles.go:144-164 | the inner loop accepts exactly admissible scopes not seen before |
| RuntimeReport.CheckGrants | internal/config/accelerator_profiles.go:133-165 | the nested loop with its seen map decides validity and absence of duplicates |
| RuntimeReport.CheckEachDevice | pkg/types/types.go:872-891 | every device is well formed |
| RuntimeReport.IndexDevices | pkg/types/types.go:871-892 | an index exists exactly when no id repeats, and maps each id to its device |
| RuntimeReport.CheckParents | pkg/types/types.go:893-901 | every partition lies on a physical device of its family |
| RuntimeReport.CheckDevices | pkg/types/types.go:871-908 | decides the topology rules |
| RuntimeReport.CheckHeader | pkg/types/types.go:825-869 | decides the identity, topology and readiness rules |
| RuntimeReport.ValidateReport | pkg/types/types.go:825-935 | accepts exactly the valid reports |
| RuntimeProfiles.CheckLabels | internal/config/accelerator_profiles.go:106-113 | decides the selector's keys and values |
| RuntimeProfiles.Validate | internal/config/accelerator_profiles.go:93-166 | accepts exactly the valid profiles |
| RuntimeProfiles.MatchesLabels | internal/config/accelerator_profiles.go:171-181 | matches a nonempty selector only |
| RuntimeProfiles.FindGrant | internal/config/accelerator_profiles.go:186-216 | whether some grant permits the action, and the precondition of the first that does |
| RuntimeProfiles.ResetAsksForVerified | internal/config/accelerator_profiles.go:153-163 | validation makes every allowed reset physical and dependent on a verified topology |
| RuntimeProfiles.ResolveProfile | internal/config/accelerator_profiles.go:282-301 | the selection loop equals its declarative result |
| RuntimeProfiles.SelectedIsUnique | internal/config/accelerator_profiles.go:282-301 | an exact selection is valid, occurs once, and nothing else selects the node |
| RuntimeProfiles.SelectionIgnoresOrder | internal/config/accelerator_profiles.go:282-301 | exact selection and none are invariant under permutation |
| RuntimeProfiles.OverlapRefusals | internal/config/accelerator_profiles.go:282-301 | three profiles, refused as ambiguous in one order and as invalid in another |
| UniqueSelection.Resolve | internal/config/accelerator_profiles.go:282-301 | the loop with its early returns, for any validity and match test |
| UniqueSelection.ExactIff | internal/config/accelerator_profiles.go:282-301 | exact if and only if all are valid and one alone applies |
| UniqueSelection.UniqueIsExact | internal/config/accelerator_profiles.go:282-301 | among valid elements the only one that applies is selected |
| UniqueSelection.OrderKeepsExact | internal/config/accelerator_profiles.go:282-301 | any order selects the same element |
| UniqueSelection.OrderDecidesIff | internal/config/accelerator_profiles.go:282-301 | which refusal is given depends on the order if and only if one is invalid and two valid ones apply |
| ResetGate.FindGpu | internal/controller/admission.go:348-353 | finds exactly a physical GPU of that identity |
| ResetGate.Evidence.Take | internal/controller/acceleratorstack.go:69-81 | a pin within the age bound, or the pin is dropped |
| ResetGate.Decide | internal/controller/admission.go:286-354 | admitted exactly on live authority and evidence that passes |
| ResetGate.Evidence.AllowReset | internal/controller/admission.go:235-279 | the pin stands in for the stored report, and only for that |
| ResetGate.PinnedEqualsLive | internal/controller/admission.go:252-278 | a pinned verdict is the verdict of the same report read live |
| ResetGate.PassingHasGrounds | internal/controller/admission.go:286-354 | evidence that passes has a unique profile, physical scope, verified topology, matching revision and versions, a fresh ready report and the device |
| ResetGate.AdmittedIff | internal/controller/admission.go:305-354 | a reset is admitted if and only if it names node and device and has those grounds under a valid profile set |
| RuntimeCoverage.AssessInput | internal/config/runtime_contract_coverage.go:236-257 | exactly the findings about the input and the heartbeat |
| RuntimeCoverage.AssessSelection | internal/config/runtime_contract_coverage.go:259-283 | exactly the finding about the selection |
| RuntimeCoverage.Discrepancies | internal/config/runtime_contract_coverage.go:345-389 | every discrepancy, and the two summaries of them |
| RuntimeCoverage.ChecksAsCompared | internal/config/runtime_contract_coverage.go:345-396 | the gate accepts exactly what the comparisons clear |
| RuntimeCoverage.NoFindingIffAttests | internal/config/runtime_contract_coverage.go:334-397 | no finding if and only if name and UID match and the gate accepts |
| RuntimeCoverage.AssessAttestation | internal/config/runtime_contract_coverage.go:334-397 | fresh and compatible if and only if the gate accepts; stale and missing exactly; never merely rejected |
| RuntimeCoverage.OrderReasons | internal/config/runtime_contract_coverage.go:399-410 | the set, without duplicates, in canonical order |
| RuntimeCoverage.Assess | internal/config/runtime_contract_coverage.go:219-308 | selection, attestation, depth and findings; full if and only if there is no finding |
| StackJanitor.Janitor.RewindIncidents | internal/controller/acceleratorstack.go:121-183 | the rows after rewinding, and whether every rewind committed |
| StackJanitor.Janitor.InspectOwners | internal/controller/acceleratorstack.go:331-353 | held by some pin; driven by a running or unreadable owner |
| StackJanitor.Janitor.RestoreNode | internal/controller/acceleratorstack.go:331-394 | one node of a pass, with every failure that may have landed |
| StackJanitor.Janitor.Pass | internal/controller/acceleratorstack.go:302-400 | a changed host keeps its marker; without faults every undriven node is restored and unpinned incidents rewound |
| StackJanitor.PassMeans | internal/controller/acceleratorstack.go:302-400 | the same as a statement about any such pass |
| StackProtocol.LosesIff | internal/controller/acceleratorstack.go:208-284 | which single move loses a marker; crashes, failures, late host changes and the janitor never do |
| StackProtocol.ChangedHostsStayMarked | internal/controller/acceleratorstack.go:208-400 | over every run in which no quiesce runs beside a restore on its node, a changed host is marked at every crash point, also when host changes land late |
| StackProtocol.MarkedIffApart | internal/controller/acceleratorstack.go:208-284 | after an event the steps in progress keep changed hosts marked, however they go on, if and only if it began no step beside its opposite |
| StackProtocol.CrashRecovers | internal/controller/acceleratorstack.go:302-400 | after a crash one fault-free pass restores every node and leaves no incident past its quiesce |
| StackProtocol.CrashDrains | internal/controller/acceleratorstack.go:302-400 | after a crash such a pass leaves no marker, no changed host and no host change still to land |
| StackProtocol.OverlapLosesMarker | internal/controller/acceleratorstack.go:265-284 | a run from an empty world in which a restore beside a quiesce loses the marker |
| CordonReason.ReasonRoundTrip | internal/controller/cordonjanitor.go:23-53 | a reason reads back if and only if the id is nonempty and holds no opening parenthesis |
| CordonReason.ParenthesisMisreads | internal/controller/cordonjanitor.go:23-53 | an id that is read back as another one |
| CordonReason.OwnersReadBack | internal/controller/cordonjanitor.go:34-39 | both names of an incident's hold read back as the incident |
| CordonJanitor.Node.ReleaseOwner | internal/platform/kubernetes/kubernetes.go:705-819 | exactly that hold leaves; the node returns to service with the last |
| CordonJanitor.Node.ReconcileOwner | internal/controller/cordonjanitor.go:98-151 | the judgement of one hold, carried out |
| CordonJanitor.Node.Reconcile | internal/controller/cordonjanitor.go:69-96 | one current pass drops exactly the finished or unmarked rowless holds and marks exactly the halted unresolved ones |
| CordonHistory.JanitorDropsOnlyFinished | internal/controller/cordonjanitor.go:98-151 | in every run only holds of resolved or rowless incidents are dropped, after a readable look |
| CordonHistory.HeldHoldsStay | internal/controller/cordonjanitor.go:98-177 | a marked hold outlives other holds, outages, upgrades and pruning while its incident is unresolved and, once rowless, the listings show the mark |
| CordonHistory.MarkedHoldDroppedIff | internal/controller/cordonjanitor.go:98-151 | a marked hold is dropped if and only if resolved, or rowless under a listing without the mark |
| CordonHistory.StaleListingDropsHeldHold | internal/controller/cordonjanitor.go:109-136 | a run from a free node in which a listing older than the mark costs a marked hold its place |
| DegradedTaint.NodesUnderOpenIncidents | internal/controller/degradedtaint.go:306-342 | exactly the nodes with an active incident not opened dry-run, each with one of them |
| DegradedTaint.NodeHasOpenIncident | internal/controller/degradedtaint.go:347-364 | whether the node has such an incident |
| DegradedTaint.OthersOnNode | internal/controller/degradedtaint.go:280-302 | whether another such incident is on the node |
| DegradedTaint.Janitor.RemoveAll | internal/controller/degradedtaint.go:198-203 | switched off, every mark whose removal takes is gone |
| DegradedTaint.Janitor.Unmark | internal/controller/degradedtaint.go:213-238 | a mark comes off only after a read of its own saw the node clear |
| DegradedTaint.Janitor.Mark | internal/controller/degradedtaint.go:237-264 | marks go on only for open, unlisted nodes outside dry-run |
| DegradedTaint.Janitor.Reconcile | internal/controller/degradedtaint.go:181-265 | the whole pass, whatever opens between its reads; in quiet the marks equal the live nodes, or those already marked in dry-run |
| DegradedTaint.Janitor.Sync | internal/controller/degradedtaint.go:88-168 | exactly the marks after the fast path: cleared only when no other live incident was read, placed on first work or unpark |
| DegradedTaint.Janitor.ReconcileTwice | internal/controller/degradedtaint.go:181-265 | of two passes in quiet surroundings the second leaves every mark as it was |

## Left out

- Journal limits (size, entry count, field lengths) and permissions. A rewrite whose directory sync fails is modelled as one that took place and was reported failed; a crash never takes a rename back.
- Timestamps and durations as text: formatting and parsing are an assumed inverse pair (section 5.6 of RFC 3339).
- SHA-256: an action identity is its encoded text; collisions of the truncated digest are out of scope.
- Unicode: case folding and white space follow ASCII plus the two Latin-1 blanks.
- CheckpointStamp.StampIsLeastProposal: the least of the proposals since the incident took the object, because an overwritten stamp is granted anew.
- Audit rows, metrics, notifications and log lines of every component.
- A store restored from a backup (internal/controller/cordonjanitor.go:118): in `CordonHistory` only resolved and expired rows are pruned, a pruned row never returns and an id is never reused.
- The manual takeover annotation of a cordon and the snapshot of the node's prior scheduling state.
- StackProtocol.ChangedHostsStayMarked: asks that no quiesce runs beside a restore on its node, because exactly then the marker can be lost.
- The node's action queue behind the stack steps: that a host restore which landed has every earlier host change behind it is taken from the store, which hands out one action of a node at a time, oldest first (internal/store/sqlcore/core.go:1345-1376).
- DetectionWindow.Window.Duplicate: with instants out of order a repeat may be delivered twice; only that nothing uncovered is suppressed is stated then.
- Races between a stack-restore pass and the incident walk: one node of a pass is atomic.
- The restore action's identity across calls, which depends on whether a discarded queue row still reads as finished.
- Safety-gate slots, cooldowns, the pause override, approvals, maintenance windows, arming holds and the rebuilding of gate occupancy.
- Playbook selection by policy, late binding by vendor, flap detection and the observation thresholds.
- Closing incidents on vanished nodes, and the text of the degraded-node mark.
- Inventory and capability-set validation, the action registry, the actuator chain.
- HTTP, TLS, token review, the Kubernetes and AWS clients, configuration loading, the CLI, the web panel and generated code.
