# Clawbernetes operator: a verified model

The Clawbernetes operator turns ClawAgent resources into running agents on Kubernetes. This
project models the part of it that has real state and proves what that part keeps over every
run:

- the ClawAgent reconciler over the API server's store: create-or-update of its children, the life
  of the home volume with its re-entrant resize, the watches that re-queue agents, and the
  dashboard cache that workers share;
- the generators of openclaw.json and config.yaml against the Deployment builder that must supply
  their credentials;
- the redaction loop of the gateway server, and the deep-copy code as a statement about the heap.

## How the model is built

`Api` holds the custom resources as values, `Cluster` the store as tables keyed by object name,
and each agent's slice of it. The reconciler is a class (`Controller`) whose methods change the
store one API call at a time; every method is proved against a function in `Reconcile` or
`Workspace` that gives the agent's new slice, for every set of failing writes. Theorems are
stated on those functions: single calls in `Workspace`, `Complete` and `Fixpoint`, runs of one agent
in `Runs`, `Modes`, `ResizeRuns`, `Stalls`, `Reclaim` and `Losses`, runs of the whole namespace in
`Independence`, `ClusterRuns`, `Convergence` and `Interleaved`. `Neighbours` looks at the names the
other controllers use. `Watches` says which changes wake an agent,
`Collector` what garbage collection takes, and `Phases` cuts a call at its writes so that other
activity can come in between.
The configuration generators (`OpenClaw`, `ObserveClaw`, `Hermes`), the builder (`Deployment`) and
the contract between them (`Credentials`) follow the same pattern, as do `Redaction`, `Dashboard`
and `DeepCopy`. `Tokens`, `Documents`, `Seeding` and `RedactionPasses` look at the finished results
from outside: names, keys and addresses are spelled out, and what one part writes is followed to
where another part reads it.

Failing API calls are a set of call sites, so a statement for every such set covers every
combination. Go's map iteration order is an explicit choice: OpenClaw documents are proved not to
depend on it, Hermes documents exactly when they do not.

## What the code does not do

Some promises of the comments and documents do not hold; each limit is proved.

- The resized volume has one fixed name, so a second resize deletes its own destination
  (`Workspace.SwitchKeepsVolumeExactly`, `Losses.SecondResizeLosesVolumes`).
- An ephemeral pass leaves the migration pod behind, and a pod that had succeeded is later taken for
  the migration of new volumes (`Modes.NoPrematureDeletion`, `Losses.ModeSwitchLosesFiles`); a clean-up
  that stops half-way leaves a resized volume that is too small (`Losses.HalfCleanUpLeavesSmaller`).
- A Deployment that already exists never gets the agent's owner reference, and over an unowned one
  a resize can stall (`Stalls.StallsExactly`, `Stalls.UnownedDeploymentStalls`).
- The owner sync leaves references to owners that are gone, and the collector then takes a living
  agent's volume (`Reclaim.StaleOwnerExactly`).
- Creating the migration pod restarts the agent on the volume being copied, and a write before the
  switch is lost (`Runs.CopyStartsWithAgentRunning`, `Runs.LateWriteIsLost`).
- When a write that is needed after the switch fails, the stored status names the deleted volume and the next call
  creates an empty one (`Runs.SwitchLastsExactly`, `Reclaim.SwitchedVolumeForgotten`).
- Retained files are found again only under the original name, and a migration that finished before
  the deletion is acted on by the successor (`Reclaim.RecreateAttaches`, `Losses.SuccessorDropsOriginal`).
- A Hermes configuration with two settings on a channel is rewritten again and again
  (`Hermes.PlainDeterministicExactly`, `Fixpoint.TwoSettingsNeverSettle`).
- A direct provider behind a gateway gets a key placeholder and no key
  (`Credentials.PlaceholdersServedExactly`, `Credentials.GatewayLeavesKeyUnserved`).
- Of two channels of one type the section may get the token of the other (`Credentials.ChannelGetsOwnTokenExactly`,
  `Credentials.SectionGetsOtherToken`).
- An agent named like a Deployment of another controller overwrites it (`Neighbours.SafeNameExactly`,
  `Neighbours.FoundIsOverwritten`).
- A policy's warning threshold is passed on unchecked (`ObserveClaw.SafeguardsAlwaysSet`), and a gateway's
  routing switch is never read (`ObserveClaw.RoutingSwitchIgnored`).
- diagnostics-otel is enabled but never allowed (`OpenClaw.PluginListsAgree`).
- docs/clawgateway-internals.md:582 says the catch-all pattern matches the empty string; it needs
  one character (`ObserveClaw.EmptyRequestEscapes`).
- The dashboard digest is recorded before a create succeeds and is not kept per namespace
  (`Dashboard.CacheRefinesExactly`, `Dashboard.SecondNamespaceStarves`).
- With an empty redaction log a user message without content still gains an empty one
  (`Redaction.RedactMessages`).
- The documents under docs/ describe an older, create-only reconciler without watches; the model
  follows the code.

## Model

| member | source | states |
|---|---|---|
| Names.ConfigMapNamesInjective | internal/controller/clawagent_controller.go:649 | the name of an agent's ConfigMap determines the agent and the ConfigMap's role, over all five suffixes |
| Names.VolumeNamesInjective | api/v1/clawagent_types.go:135-138 | the name of a home volume determines the agent and the generation of the volume |
| Names.DashboardIsNoChild | internal/controller/clawagent_controller.go:318 | no agent's ConfigMap, whatever the agent is called, is the shared fleet-dashboard |
| Names.AgentsShareNoName | internal/controller/clawagent_controller.go:544-545 | different agents share no ConfigMap, volume or migration pod name |
| Cluster.GetPutOther | internal/controller/clawagent_controller.go:353-399 | replacing everything one agent owns leaves what every other agent owns as it was |
| Cluster.PutCommutes | internal/controller/clawagent_controller.go:353-399 | replacements of two agents' objects commute on the whole store |
| Resolve.ResolveInput | internal/controller/clawagent_controller.go:94-173 | reads the five kinds of references with their guards, tolerates missing objects, keeps only enabled channels in listed order |
| Resolve.ChannelResolvedExactly | internal/controller/clawagent_controller.go:155-173 | a channel is in the resolved input iff some listed name stands for it and its enabled field is absent or true |
| Resolve.ChannelsInListedOrder | internal/controller/clawagent_controller.go:155-173 | the resolved channels follow the list: a strictly increasing choice of positions hits exactly the listed names of channels that are not switched off |
| Resolve.DisablingIsUnlisting | internal/controller/clawagent_controller.go:170-172 | switching a channel off gives every agent the same input as taking its name out of the agent's list |
| Resolve.ReferencesResolved | internal/controller/clawagent_controller.go:94-153 | policy, gateway, skills and endpoint are those of the named object, and absent exactly when none is named or found |
| Neighbours.GatewayAddressed | internal/controller/clawagent_controller.go:125-140 | the address an agent calls its gateway by is name, namespace and port of the Service the gateway's own controller makes |
| Resolve.FindAgents | internal/controller/clawagent_controller.go:1130-1144 | returns exactly the agents whose spec matches the changed object, each once |
| Resolve.MatchChannel | internal/controller/clawagent_controller.go:1158-1167 | the channel mapper's loop finds a name iff the agent lists it |
| Resolve.MapperIsReadSet | internal/controller/clawagent_controller.go:1146-1179 | for every object that can exist, a mapper returns an agent iff that agent's reconcile reads the object |
| Resolve.UnmappedUnchanged | internal/controller/clawagent_controller.go:94-173 | changing, creating or deleting an object leaves the resolved input of every agent outside its mapper's answer unchanged |
| Independence.UnmappedReconcilesSame | internal/controller/clawagent_controller.go:1130-1179 | such a change also leaves the whole effect of that agent's reconcile unchanged, failures included |
| Controller.ClawAgentReconciler.EnsureResource | internal/controller/clawagent_controller.go:353-399 | create when missing, update on the kind's own notion of drift, for each of the three kinds; the new tables are given in full |
| Reconcile.ServiceAddressKept | internal/controller/clawagent_controller.go:386-395 | the Service ends with the desired ports and selector and keeps the address the API server assigned and its owners |
| Controller.ClawAgentReconciler.SyncPVCOwnerRefs | internal/controller/clawagent_controller.go:509-529 | adds or drops owner references according to the reclaim policy and writes only when something changed |
| Controller.ClawAgentReconciler.ResizePVC | internal/controller/clawagent_controller.go:542-607 | one re-entrant resize step: the resulting slice, the error value and the in-memory status, for every set of failing writes |
| Controller.ClawAgentReconciler.FinishResize | internal/controller/clawagent_controller.go:588-596 | the success branch: a failed pod deletion is ignored, a failed volume deletion is not, the status moves only after both |
| Controller.ClawAgentReconciler.EnsurePVC | internal/controller/clawagent_controller.go:469-507 | creation, owner sync, and the decision to resize, in that order |
| Controller.ClawAgentReconciler.DeleteOrphan | internal/controller/clawagent_controller.go:613-626 | one round of the clean-up: a missing claim is fine, a failed deletion stops it |
| Controller.ClawAgentReconciler.CleanupOrphanedPVC | internal/controller/clawagent_controller.go:609-629 | removes the original volume, then the resized one |
| Reconcile.IdentityReadsBack | internal/controller/clawagent_controller.go:635-654 | the mounted identity files read back as the agent's three texts, none of them is empty, and there are no others |
| Reconcile.IdentityDriftExactly | internal/controller/clawagent_controller.go:356-366 | the identity ConfigMap counts as drifted iff one of the texts changed |
| Controller.ClawAgentReconciler.SkillsConfigMap | internal/controller/clawagent_controller.go:661-676 | the loop leaves the data that SkillKeys and LastSkillWins describe |
| Reconcile.SkillKeys | internal/controller/clawagent_controller.go:661-676 | there is a file for a name iff some skill has that name |
| Reconcile.LastSkillWins | internal/controller/clawagent_controller.go:661-676 | a repeated name keeps the content of its last entry |
| Controller.ClawAgentReconciler.ResolveAgentStatus | internal/controller/clawagent_controller.go:940-958 | Running iff some Available condition is True, then Progressing or Pending |
| Reconcile.PhaseSpelled | internal/controller/clawagent_controller.go:940-958 | Running iff some Available condition is True, Progressing iff not and replicas are unavailable, Pending otherwise, and a pod name only while Running |
| Controller.ClawAgentReconciler.EnsureConfigMaps | internal/controller/clawagent_controller.go:175-195 | the three ConfigMaps in order, stopping at the first error; the harness may visit its config maps in any order |
| Controller.ClawAgentReconciler.EnsureWorkspace | internal/controller/clawagent_controller.go:197-211 | the storage branch for persistent and ephemeral agents, and the volume name it leaves to mount |
| Controller.ClawAgentReconciler.WriteStatus | internal/controller/clawagent_controller.go:234-243 | the status write happens iff phase, pod or volume changed |
| Controller.ClawAgentReconciler.Finish | internal/controller/clawagent_controller.go:213-243 | Deployment, Service and status, stopping at the first error |
| Controller.ClawAgentReconciler.ReconcileAgent | internal/controller/clawagent_controller.go:73-243 | one whole call touches only the agent's own slice and leaves exactly the specified store and outcome, for every set of failing writes |
| Controller.ClawAgentReconciler.UpdateFleetDashboard | internal/controller/clawagent_controller.go:258-347 | rows in list order, then the guarded write; the digest is recorded before a create is known to succeed |
| Controller.ClawAgentReconciler.Reconcile | internal/controller/clawagent_controller.go:73-252 | the call with its dashboard write, which comes only after a complete pass and is never fatal |
| Phases.PhasesAreReconcile | internal/controller/clawagent_controller.go:175-243 | the seven write phases run back to back are the whole Reconcile call |
| Workspace.ReclaimPolicyApplied | internal/controller/clawagent_controller.go:475-529 | after an error-free call without a resize the active volume has owners iff the policy is delete, and its files and size are kept |
| Workspace.VolumesAsRequested | internal/controller/clawagent_controller.go:412-438 | a new volume has the request's size, 5Gi by default, the request's class, no files, and an owner iff the policy is delete; an existing one keeps size, class and files |
| Workspace.DeletionIsGuarded | internal/controller/clawagent_controller.go:547-596 | the active volume is removed only with the resized one present, a succeeded pod, a scaled-down Deployment and a larger request |
| Workspace.SwitchKeepsVolumeExactly | internal/controller/clawagent_controller.go:544-596 | a completed switch leaves the agent a volume iff it was not already on name-home-v2: a second resize deletes its own destination |
| Runs.ReconcileWorkspace | internal/controller/clawagent_controller.go:196-243 | every Reconcile call acts on the volumes either not at all or as ensurePVC does, with the Deployment, status and outcome that follow |
| Runs.StatusStaysOk | internal/controller/clawagent_controller.go:405-410 | the status only ever holds an empty name or one of the two volume names, in every mode and under every failure |
| Modes.RunKeepsUnswitched | internal/controller/clawagent_controller.go:531-629 | until the first switch, in every mode: the status names the original volume, a pod copies original to resized, the resized volume is the larger one, a volume with owners has the agent among them, and the facts about the pod in place mean what they say |
| Modes.NoPrematureDeletion | internal/controller/clawagent_controller.go:547-629 | in every run, under edits of spec and mode, garbage collection, interference with the Deployment and failing writes, name-home is only taken by a reconcile; a persistent one finds name-home-v2 in place and larger, the right pod succeeded and the Deployment absent or at zero, and that pod succeeded after name-home-v2 was made iff no ephemeral pass has left it over |
| Modes.LeftOverExactly | internal/controller/clawagent_controller.go:609-629 | a pod is left over iff some ephemeral pass went through when it had already succeeded, and it has stayed since |
| Modes.PersistentRunsCopy | internal/controller/clawagent_controller.go:547-596 | in a run that stays persistent the first removal is a reconcile in that safe state with a pod that has copied the present name-home-v2 |
| ClusterRuns.RunProjects | internal/controller/clawagent_controller.go:73-252 | a run of any number of agents is, seen from one agent, the run of its own events |
| ClusterRuns.NoPrematureDeletionInCluster | internal/controller/clawagent_controller.go:547-629 | the same in the whole namespace: no other agent's reconcile, dashboard write or collected object can take the volume away |
| Interleaved.NoPrematureDeletionInterleaved | internal/controller/clawagent_controller.go:547-629 | the same when a call is not atomic: workers hold snapshots and write phase by phase while users, pods and the collector go on; the storage phase that takes the volume finds the safe state at its own start, for its snapshot |
| Runs.SwitchLastsExactly | internal/controller/clawagent_controller.go:213-243 | after the switch the stored status names an existing volume iff the Deployment and status writes succeed and the Service write succeeds or is not needed; the call then ends well and the agent is mounted on the new volume |
| Runs.ActiveVolumeExists | internal/controller/clawagent_controller.go:405-410 | after every error-free reconcile of such a run the named volume exists and is no smaller than before |
| Modes.SwitchKeepsFilesExactly | internal/controller/clawagent_controller.go:440-456 | when the agent does not write while the resized volume exists, however often the migration fails and the mode changes, the switch keeps every file iff there are none or the pod was not left over |
| Runs.CopyStartsWithAgentRunning | internal/controller/clawagent_controller.go:573-583 | every error-free reconcile that creates the migration pod also brings the agent back to one replica on the volume being copied |
| Runs.LateWriteIsLost | internal/controller/clawagent_controller.go:561-596 | so a write between the copy and the switch is lost although every call succeeds |
| ResizeRuns.ReconcileProgress | internal/controller/clawagent_controller.go:547-605 | each error-free reconcile of a pending resize lowers the measure by one, polls, clears a failed pod, or switches, and exactly when |
| ResizeRuns.NeverStalls | internal/controller/clawagent_controller.go:1181-1186 | while the agent owns its Deployment, a reconcile that has not switched requeues, errors, or makes a change that a watch reports, whatever fails, and the agent still owns the Deployment |
| ResizeRuns.FinishedPodIsCleared | internal/controller/clawagent_controller.go:588-603 | when the pod has failed or the old volume cannot be deleted, the call returns an error, both volumes stay, and the pod is gone iff its deletion succeeds |
| Stalls.StallsExactly | internal/controller/clawagent_controller.go:353-399 | without that ownership: a reconcile of a pending resize that ends well wakes the agent again iff the Deployment is new or owned, some ConfigMap or the Service is new or both drifted and owned, or the status changes |
| Stalls.UnownedDeploymentStalls | internal/controller/clawagent_controller.go:561-571 | for every agent with a larger request there is a slice in which an error-free reconcile makes the resized volume, wakes nobody and leaves the resize unfinished |
| ResizeRuns.ResizeAccount | internal/controller/clawagent_controller.go:531-607 | over every steady run: reconciles plus remaining progress equals initial progress plus polls plus three per failed migration |
| ResizeRuns.SwitchBound | internal/controller/clawagent_controller.go:531-607 | the switch is at most the sixth reconcile besides polls and three per failure |
| ResizeRuns.SwitchComesExactly | internal/controller/clawagent_controller.go:585-596 | from every start, the next reconcile switches iff the account is spent and the pod has succeeded |
| Reclaim.PolicyDecidesDeletion | internal/controller/clawagent_controller.go:469-529 | over any run of edits, switches, modes, collections and failures: when its last step is an error-free pass with no resize due, deleting the agent and collecting removes the active volume iff that pass ran under delete, and otherwise leaves its files |
| Reclaim.RunKeepsOwners | internal/controller/clawagent_controller.go:509-529 | no run puts another owner on a volume of the agent |
| Reclaim.StaleOwnerExactly | internal/controller/clawagent_controller.go:509-529 | after an error-free pass the collector takes a living agent's active volume, original or resized, iff the policy is delete and the owners the volume came with are all gone |
| Reclaim.EarlierOwnerLosesVolume | internal/controller/clawagent_controller.go:513-517 | for example, a volume that still carries the reference of an earlier agent of that name |
| Reclaim.ChildrenGoWithAgent | internal/controller/clawagent_controller.go:353-365 | every ConfigMap, Deployment and Service that calls make for an agent is collected with it, whatever failed |
| Reclaim.RecreateAttaches | internal/controller/clawagent_controller.go:405-410 | a re-created agent keeps the files under name-home iff no finished migration for a larger request was left behind, and is mounted on them when no resize is due |
| Reclaim.RetainRoundTrip | api/v1/clawagent_types.go:157-161 | when the last pass ran under retain and no resize has completed, even if one was under way: after deletion and collection the original volume and its files are there, the re-created agent keeps them iff no finished migration was left behind, and is mounted on them when its request fits |
| Reclaim.SwitchedVolumeForgotten | internal/controller/clawagent_controller.go:405-410 | after a completed resize, or a status that was never stored, the name leads to a fresh empty volume |
| Losses.SecondResizeLosesVolumes | internal/controller/clawagent_controller.go:588-596 | a run from any persistent agent, running or stopped, whose request grows: only the deletion of the finished pod fails, the request grows again, and the run ends with neither volume, the agent running on the name of the deleted one |
| Losses.SuccessorDropsOriginal | internal/controller/clawagent_controller.go:585-596 | an agent under retain deleted between migration and switch, and re-created with the same spec: the first reconcile deletes the retained original volume |
| Losses.ModeSwitchLosesFiles | internal/controller/clawagent_controller.go:609-629 | a run from any persistent agent whose request grows, in which every call succeeds: the migration finishes, the mode goes to ephemeral and back, the agent writes files, the request grows, and the switch takes the only volume with the files for one nothing was copied to |
| Losses.HalfCleanUpLeavesSmaller | internal/controller/clawagent_controller.go:613-626 | a clean-up that stops between its two deletions, and a return to persistent mode, leave the old resized volume beside a larger original |
| Complete.DoneMountsWhatExists | internal/controller/clawagent_controller.go:972-989 | after every call that ends well the Deployment mounts the volume the stored status names, and that volume and every ConfigMap the pod mounts exist, unless the call was a second switch |
| Neighbours.SafeNameExactly | internal/controller/clawgateway_controller.go:180-352 | an agent shares no Deployment or Service name with the gateway and observability controllers, whatever gateways there are, iff its name is not tempo or grafana and does not end in -gateway or -ollama |
| Neighbours.TextsNeverMeet | internal/controller/clawobservability_controller.go:170-320 | no agent's ConfigMap has the name of one of theirs, whatever agents and gateways are called |
| Neighbours.FoundIsOverwritten | internal/controller/clawagent_controller.go:366-382 | a complete call replaces the spec of whatever Deployment it finds under the agent's name and keeps its owners |
| Independence.ReconcilesCommute | internal/controller/clawagent_controller.go:73-243 | reconciles of two different agents commute on the whole store, with the same outcomes, whatever fails |
| Independence.FullReconcilesCommute | internal/controller/clawagent_controller.go:73-252 | the same with the dashboard writes, on everything but the dashboard |
| Independence.DashboardOnlyWhenDone | internal/controller/clawagent_controller.go:245-252 | a call that finds no agent or does not end well leaves dashboard and digest alone |
| Fixpoint.SecondCallChangesNothing | internal/controller/clawagent_controller.go:175-243 | without a pending resize a second call leaves the slice as it is and succeeds, for every iteration order and every set of failing writes |
| Fixpoint.FixpointExactly | internal/controller/clawagent_controller.go:353-399 | two calls agree for all iteration orders iff the generated configuration does not depend on the order |
| Fixpoint.TwoSettingsNeverSettle | internal/harness/hermes.go:134-136 | a Hermes agent with two plain settings on one channel is rewritten by a second call for some orders in which Go may visit the settings |
| Fixpoint.WholeCallFixed | internal/controller/clawagent_controller.go:73-252 | the same for the whole store and the dashboard digest |
| Convergence.StepTracks | internal/controller/clawagent_controller.go:1181-1195 | every step of workers, users and third parties keeps: queued, delayed, processed on current data, or converged |
| Convergence.Convergence | internal/controller/clawagent_controller.go:73-231 | that invariant for every agent after every run, with references read one at a time and writes made phase by phase |
| Convergence.QuiescentMeansConverged | internal/controller/clawagent_controller.go:353-399 | with an empty queue and idle workers every live agent's ConfigMaps, Deployment spec and Service ports and selector are those of the current objects |
| Dashboard.CacheRefinesExactly | internal/controller/clawagent_controller.go:310-346 | over every interleaving with successful creates the cached page equals the always-written one iff the digest starts faithful |
| Dashboard.FaithfulAfter | internal/controller/clawagent_controller.go:333-339 | a call keeps the digest faithful exactly unless its create was attempted and failed |
| Dashboard.SecondNamespaceStarves | internal/controller/clawagent_controller.go:56 | a page unchanged since another namespace's write is never written to the second namespace |
| Fleet.UpdatedIsCached | internal/controller/clawagent_controller.go:306-346 | the controller's dashboard step is the cached critical section on page and digest and touches nothing else |
| Fleet.RowSpelled | internal/controller/clawagent_controller.go:266-302 | each column of a row is the agent's own field, or its policy's for the budget columns, with the soul cut at 100 characters |
| Fleet.RowsShowListed | internal/controller/clawagent_controller.go:258-305 | a page shows exactly the listed agents that exist, one row each, in the order of the list |
| OpenClaw.BuildConfig | internal/harness/openclaw.go:54-355 | all sections from their parts, each under the generator's own guard |
| OpenClaw.BuildProviders | internal/harness/openclaw.go:154-206 | the gateway provider behind a gateway, then the direct provider, which wins a name clash |
| OpenClaw.CatchAllTargetRegistered | internal/harness/openclaw.go:515-527 | the catch-all's provider and model are registered in the same document unless the agent's provider takes that name |
| Documents.LastEvaluatorProxies | internal/harness/openclaw.go:513-527 | behind a gateway the last evaluator of the finished document is enabled, matches any character, ranks below every positive priority and proxies, to a provider of the same document at the gateway's address with that model iff the agent's own provider does not take that name |
| Documents.RestGoesToGateway | internal/harness/openclaw.go:513-535 | with positive user priorities a non-empty request that no evaluator of the resource matches is proxied to the gateway, and one that some match is decided by them alone |
| Documents.ProvidersSpelled | internal/harness/openclaw.go:154-206 | the providers of the finished document with address, format, key and models of each |
| Documents.PortsAgree | internal/controller/clawagent_controller.go:780-790 | configuration, container, probes and Service use one gateway port, the Service selects the Deployment's pods and has exactly the container's ports |
| Documents.A2AReachable | internal/harness/openclaw.go:262-300 | an agent offering A2A listens where its card says: on the container's and the Service's port, at the address of its own Service |
| Documents.PluginsSpelled | internal/harness/openclaw.go:232-355 | plugin entries, allow list and load path of the finished document by name |
| Documents.DocumentSpelled | internal/harness/openclaw.go:67-152 | agent, default model, telemetry and capture settings of the finished document |
| Documents.HermesSpelled | internal/harness/hermes.go:77-152 | agent, model and telemetry of config.yaml |
| OpenClaw.BuildSection | internal/harness/openclaw.go:211-226 | generated keys overridden by the user's, whatever the order of the config map |
| OpenClaw.LastChannelDecides | internal/harness/openclaw.go:210-227 | the last channel of a type decides the type's section |
| OpenClaw.SectionTypes | internal/harness/openclaw.go:209-229 | the sections present are exactly the types of the channels |
| OpenClaw.UserConfigOverrides | internal/harness/openclaw.go:222-225 | a user's key replaces the generated one and any other key is left alone |
| Tokens.SectionTokens | internal/harness/openclaw.go:211-227 | a deciding channel's section asks for <TYPE>_BOT_TOKEN under botToken and <TYPE>_APP_TOKEN under appToken, for exactly the types that have them, and every user key stands |
| OpenClaw.BuildPlugins | internal/harness/openclaw.go:232-348 | plugin entries, allow list and load path as the loops build them |
| OpenClaw.BuildA2A | internal/harness/openclaw.go:256-336 | the A2A section with its defaults, security token and peers |
| OpenClaw.BuildPeers | internal/harness/openclaw.go:312-330 | one entry per peer in order, with a token placeholder iff the peer has credentials |
| OpenClaw.PluginListsAgree | internal/harness/openclaw.go:232-262 | every entry is enabled and the allow list names all entries but diagnostics-otel, exactly when no channel has that name; it covers all entries iff tracing is off |
| OpenClaw.ObserveConfigSurvives | api/v1/clawchannel_types.go:67 | for admitted channel types the observeclaw and A2A payloads survive the channel entries |
| OpenClaw.A2AEntry | internal/harness/openclaw.go:335-340 | the A2A payload is in the document iff A2A is enabled, for any channel list |
| ObserveClaw.BuildObserveclawConfig | internal/harness/openclaw.go:359-555 | the whole plugin section: defaults, overlays, deny list, evaluators, webhooks |
| ObserveClaw.SafeguardsAlwaysSet | internal/harness/openclaw.go:366-464 | no policy or gateway can switch a limit or an anomaly threshold off: each is positive, and is the resource's own exactly when that is positive; the warning threshold alone is unchecked and is a proper share iff the policy's own is, or there is none |
| ObserveClaw.BaselineSpelled | internal/harness/openclaw.go:359-555 | the whole section of an agent without policy, gateway and credentials, value by value |
| ObserveClaw.OverridesSpelled | internal/harness/openclaw.go:366-464 | each limit, threshold and name of policy and gateway replaces its default exactly where it is usable |
| ObserveClaw.WebhooksReadBack | internal/harness/openclaw.go:537-551 | the webhooks read back in order, an empty severity or header table being left out |
| ObserveClaw.DeniedSpelled | internal/harness/openclaw.go:416-430 | the six commands that read credential files are denied by name |
| ObserveClaw.CredentialsDenied | internal/harness/openclaw.go:404-434 | the user's deny list stays in front, every credential pattern follows it iff a credentials secret is named, and nothing is added otherwise |
| ObserveClaw.AbsentIsEmpty | internal/harness/openclaw.go:366-464 | a missing policy or gateway gives the same document as one that sets nothing |
| ObserveClaw.BuildEvaluator | internal/harness/openclaw.go:471-512 | zero-valued fields left out, routes copied in any order, an empty routes map kept apart from none |
| ObserveClaw.EmittedReadsBack | internal/harness/openclaw.go:466-530 | the emitted evaluators read back as what the requested ones say about routing, in order, plus the catch-all behind a gateway |
| ObserveClaw.EntryForgetsExactly | internal/harness/openclaw.go:471-512 | two evaluators give the same entry iff they agree on everything but their webhooks, two endpoints, nil against empty patterns and non-positive timeouts |
| ObserveClaw.RoutingSwitchIgnored | internal/harness/openclaw.go:529-535 | the gateway's own routing switch makes no difference: routing is enabled iff there is an evaluator or a gateway |
| ObserveClaw.CatchAllKeepsRouting | internal/harness/openclaw.go:513-526 | a user evaluator that would decide a request still does iff its priority is not negative, and the catch-all decides iff no positive one matches, without assuming a tie-break |
| ObserveClaw.RoutingIsTotal | api/v1/clawgateway_types.go:59-61 | behind a gateway every non-empty request is decided; with positive priorities the winners are the resource's own or the catch-all alone |
| ObserveClaw.EmptyRequestEscapes | internal/harness/openclaw.go:515-524 | the catch-all never changes the decision on an empty request, because its pattern needs a character |
| Hermes.BuildConfig | internal/harness/hermes.go:77-152 | the document for some iteration order of every channel's settings |
| Tokens.HermesTokens | internal/harness/hermes.go:120-133 | the same for bot_token and app_token of each channel |
| Hermes.DeterministicExactly | internal/harness/hermes.go:134-136 | the document is the same for all iteration orders iff the setting lines of each channel commute pairwise |
| Hermes.OneKeyCommutes | internal/harness/hermes.go:134-136 | one setting per channel is always enough |
| Hermes.PlainLinesDiffer | internal/harness/hermes.go:134-136 | two different plain settings never commute |
| Hermes.PlainDeterministicExactly | internal/harness/hermes.go:134-136 | with one-line keys and values the document is order-independent iff every channel has at most one setting |
| Harness.BuildConfig | internal/harness/registry.go:22-31 | dispatch to the harness of the agent's type, OpenClaw when unknown |
| Deployment.AgentDeployment | internal/controller/clawagent_controller.go:726-933 | init containers, image, environment, secrets, ports, probes, volumes and restart policy of the agent's Deployment |
| Deployment.EveryMountDeclared | internal/controller/clawagent_controller.go:744-851 | volume names are distinct, every mount of every container names a declared volume, and credentials are declared and mounted iff a secret is named |
| Seeding.SeedFindsItsFiles | internal/controller/clawagent_controller.go:753-830 | after every call that ends well, followed from mount to volume to stored ConfigMap by name: /config-src holds the generated configuration under the name the seed script copies, /identity-src the three identity texts, /skills-src the skills |
| Seeding.NoCopyFails | internal/harness/harness.go:53-66 | no copy on which the seed script insists fails for want of its file |
| Seeding.HomeIsStatusVolume | internal/controller/clawagent_controller.go:972-989 | all containers share, by name, the volume the stored status names, or scratch space |
| Seeding.CredentialsByName | internal/controller/clawagent_controller.go:833-851 | the secret the agent names is mounted read-only below the runtime's home, and nothing is when it names none |
| Documents.ContainerSpelled | internal/controller/clawagent_controller.go:726-800 | image, command, resources, user, restart policy, probes and init containers of each harness |
| Documents.EnvironmentExactly | internal/controller/clawagent_controller.go:769-900 | the entries of the container's environment, exactly |
| Deployment.BuildEnvFrom | internal/controller/clawagent_controller.go:853-883 | the loop with its map of injected secrets gives the specified list |
| Deployment.InjectionExact | internal/controller/clawagent_controller.go:853-887 | that list has no repetition and no empty name, contains exactly the non-empty names asked for, in order of first occurrence |
| Deployment.BuildEnv | internal/controller/clawagent_controller.go:770-900 | fixed variables, then one entry per peer with credentials, in order |
| Text.PeerTokenVarInjective | internal/controller/clawagent_controller.go:888 | peers named with lower-case letters, digits and hyphens never share a variable |
| Text.PeerTokenVarCollides | internal/controller/clawagent_controller.go:888 | with an underscore in a name they can |
| Text.DecimalReadsBack | internal/controller/clawagent_controller.go:951 | rendered numbers read back as themselves |
| Credentials.MountedExactly | internal/controller/clawagent_controller.go:867-883 | a secret is mounted iff it is named and the provider, a channel or A2A asks for it |
| Credentials.PlaceholdersServedExactly | internal/harness/openclaw.go:183-228 | every placeholder of every generated document has a value in the container iff the provider's key is reachable; it is not with a direct provider behind a gateway |
| Tokens.TokenDeliveredExactly | api/v1/clawchannel_types.go:75-80 | a channel's token comes from the channel's own secret under the documented key iff no secret first asked for later holds that key |
| Tokens.TokensDiffer | api/v1/clawchannel_types.go:75-80 | bot and app token of a type are different variables |
| Tokens.ProviderKeySpelled | internal/harness/openclaw.go:194-202 | both documents ask for <PROVIDER>_API_KEY |
| Tokens.PeerTokenSpelled | internal/harness/openclaw.go:312-330 | a peer's token is asked for as PEER_<NAME>_TOKEN and taken from the peer's secret under A2A_TOKEN |
| Credentials.ProviderKeyServedExactly | internal/controller/clawagent_controller.go:868-870 | the provider's key has a value iff no gateway is used or another mounted secret holds it |
| Credentials.GatewayLeavesKeyUnserved | internal/controller/clawagent_controller.go:868-870 | any agent put behind a gateway with a direct provider: the documented secret holds the key, the document asks for it, and the container does not get it |
| Credentials.MountedCredentialsDenied | internal/harness/openclaw.go:416-430 | the builder mounts integration credentials iff the generator extends the deny list, and then everything under the mount path is denied |
| Credentials.OpenClawServed | internal/harness/openclaw.go:302-328 | channel, A2A and peer tokens of openclaw.json are served with or without a gateway |
| Credentials.HermesServed | internal/harness/hermes.go:86-133 | the same for config.yaml |
| Credentials.PeerGetsOwnToken | internal/controller/clawagent_controller.go:886-899 | with distinct label names each peer's variable takes the token of that peer's own secret |
| Credentials.ChannelGetsOwnTokenExactly | internal/controller/clawagent_controller.go:854-877 | a channel's variable takes the token of the channel's own secret iff no secret that is first asked for later holds it too |
| Credentials.NoEntryShadowsToken | internal/controller/clawagent_controller.go:886-900 | no environment entry takes precedence over a channel's token |
| Credentials.SectionGetsOtherToken | internal/controller/clawagent_controller.go:874-877 | for example, with secrets a, b, a on three channels of one type the last channel decides the section and the container has the token of b |
| Redaction.CollectMatches | internal/controller/clawgateway_controller.go:455-460 | one log entry per match of the left-to-right scan |
| Redaction.Substitute | internal/controller/clawgateway_controller.go:461 | the text with exactly those matches replaced |
| RedactionPasses.PassIsComplete | internal/controller/clawgateway_controller.go:455-461 | one pattern's pass is the engine's own chain of finds up to the last: the log has one entry for each, and the output is the text between them with a replacement for each |
| RedactionPasses.FirstFindIsLogged | internal/controller/clawgateway_controller.go:455-460 | a pattern that finds something in the text its pass receives leaves a log entry, and only then |
| Redaction.MatchesOrdered | internal/controller/clawgateway_controller.go:455 | matches lie in the text, in order, without overlap |
| Redaction.PassReversible | internal/controller/clawgateway_controller.go:454-461 | one pattern's input and output are the same gaps woven with the logged originals and replacements |
| Redaction.Redact | internal/controller/clawgateway_controller.go:450-462 | patterns in list order; length is conserved against the log and an empty log means an unchanged text |
| RedactionPasses.RedactIsChained | internal/controller/clawgateway_controller.go:450-462 | redact is a complete pass for every pattern in list order, each on the text the one before left, and its log is theirs in that order |
| Redaction.RedactConserves | internal/controller/clawgateway_controller.go:450-462 | that conservation for every pattern list and text |
| Redaction.RedactBlocks | internal/controller/clawgateway_controller.go:475-484 | text blocks redacted, other blocks kept, in order |
| Redaction.RedactMessage | internal/controller/clawgateway_controller.go:468-488 | user messages only; a missing content is redacted as the empty text |
| Redaction.RedactMessages | internal/controller/clawgateway_controller.go:465-489 | count, order, roles and non-text parts kept, length conserved, and an empty log means an unchanged list iff no user text is missing, although the pattern list may change between texts |
| RedactionPasses.MessagesChained | internal/controller/clawgateway_controller.go:465-489 | the texts of the output are, one by one and in order, complete chains of passes over the texts of the users' messages, and the log is their logs in that order |
| RedactionPasses.MessagesKeepTheRest | internal/controller/clawgateway_controller.go:465-489 | everything that is not the text of a message of a user stays |
| Redaction.PatternStore.Update | internal/controller/clawgateway_controller.go:418-447 | sources the engine rejects are dropped, the rest replaces the list at once |
| RedactionPasses.CompiledExactly | internal/controller/clawgateway_controller.go:418-425 | the list after an update is exactly the entries the engine accepts, in order, with [REDACTED] where none names a replacement |
| Redaction.CompiledScans | internal/controller/clawgateway_controller.go:418-425 | every list redact can copy is one it can scan with |
| DeepCopy.CopyTable | api/v1/zz_generated.deepcopy.go:874-883 | a map is copied entry by entry into a fresh one, nil stays nil |
| DeepCopy.CopySlice | api/v1/zz_generated.deepcopy.go:228-243 | a slice of plain values is copied into a fresh one, nil and empty kept apart |
| DeepCopy.CopyCell | api/v1/zz_generated.deepcopy.go:85-92 | a pointer target is copied into a fresh one, nil stays nil |
| DeepCopy.CopyWebhooks | api/v1/zz_generated.deepcopy.go:449-455 | equal webhooks in a fresh slice, each with its own fresh header table |
| DeepCopy.CopyEvaluator | api/v1/zz_generated.deepcopy.go:818-840 | an equal evaluator all of whose slices and maps, nested ones included, are fresh |
| DeepCopy.CopyEvaluators | api/v1/zz_generated.deepcopy.go:852-861 | equal evaluators in a fresh slice, no two sharing an object and no two webhooks of one sharing a header table |
| DeepCopy.CopyGateway | api/v1/zz_generated.deepcopy.go:445-456 | the whole nested gateway spec: equal, fresh, nothing shared between its evaluators, its webhooks and their header tables |
| DeepCopy.CopyAgentSpec | api/v1/zz_generated.deepcopy.go:228-243 | the agent spec: equal values, fresh slices, maps and pointer targets, nothing shared |

## Left out

- Namespaces: the store is one namespace; only the dashboard digest is looked at across two.
- Reads: a Get finds the object or reports NotFound, and sees the store itself; cache staleness and other read errors are not modelled. In particular resizePVC's treatment of a failed Deployment read is that of an absent one.
- API-server defaulting: a stored spec is the spec that was written, so drift is judged on what the controller wrote. A slow volume deletion (the in-use finalizer) is immediate here. The code compares ConfigMap data with reflect.DeepEqual, so an empty map that the API server returns as nil counts as drift and each later call issues an Update that changes nothing; here nil and empty data are one value.
- Garbage collection: one step takes every object of the slice that has owners, all of them gone; partial sweeps and finalizers are not modelled.
- Text rendering: JSON, YAML and HTML output, the fixed lines of config.yaml, heartbeat and tools texts, and the shell scripts of the containers, which are named by their harness; the files the seed scripts copy are a list. Documents are records and maps; quantities are byte counts; decimal strings are parsed values.
- Upper-casing is ASCII only.
- SHA-256 is a hash function assumed injective where that is needed.
- The regular-expression engine is a search function with the contract of a leftmost scanner, and replacement templates are taken literally. A text block whose text is not a string, and a request body that is not well formed, are not modelled.
- The rest of the gateway script: forwarding, streaming, the classifier.
- The gateway and observability reconcilers: fixed manifests that are created once.
- internal/api, ui, cmd and the manifests: input, output and wiring.
- What the agent runtime does with its configuration, apart from the documented priority order of evaluators.
- hermesProviderName: the identity on every name, so the provider is copied.
- CopySlice: a slice owns its whole backing array; windows into a larger array are not modelled.
- CopyEvaluators: elements are copied in a loop and then placed in the new slice, rather than written through it one by one.
- AgentDeployment: the scripts of the two init containers are named by their harness; pull policies, the optional flags and file modes of volumes, the command of the probe that replaces an empty path, and the security context beyond the user id are constants that are left out.
- NoPrematureDeletion: starts from a slice without a pod whose volumes have no owners or the agent among them (StaleOwnerExactly says what happens otherwise), excludes clean-ups that stop between their two deletions (HalfCleanUpLeavesSmaller shows one), and holds up to and including the first switch; afterwards the fixed name of the resized volume makes it false (SwitchKeepsVolumeExactly).
- NoPrematureDeletionInterleaved: the same limits; users edit the agent's spec but neither its status nor its identity, and others change its volumes and pod only as the pod, the agent and the collector do.
- ResizeAccount: counts reconciles of a stable request with no failing writes and nobody else changing the Deployment's spec.
- Convergence: the storage phase, which makes up to three writes to volumes and the migration pod, is one step; third parties change a watched child only while it carries the agent's owner reference, since no watch reports other changes; a channel listed twice is read once; any number of workers is allowed where the operator runs five.
- QuiescentMeansConverged: says that the desired children are present; the configuration ConfigMap of an earlier harness type is left behind by the code.
- PlaceholdersServedExactly: says that every variable has a value (ChannelGetsOwnTokenExactly and PeerGetsOwnToken say whose); secrets hold the keys that the resource documentation prescribes, and a token the user wrote over in the channel's configuration does not count as a placeholder.
- EmittedReadsBack: compares what an evaluator says about routing; EntryForgetsExactly lists what the generator drops.
- PolicyDecidesDeletion: the reclaim policy is one of the values the resource definition admits, and at the start of the run no other live object owns a volume.
- MountedCredentialsDenied: for the harnesses that write openclaw.json, and channel types that the resource definition admits.
- PlainDeterministicExactly: for settings without line breaks and keys without colons; DeterministicExactly covers the others.
- CacheRefinesExactly: creates succeed and nobody else writes the dashboard ConfigMap.
- FullReconcilesCommute: each worker's agent list is an input, so the dashboard may show either order.
