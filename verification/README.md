# Chat UI operator: protocol model

A Dafny model of the operator that runs one Open WebUI per `ChatUIInstance`, of the gate and the
guard in its pod, and of the script that prepares its releases. `dafny verify dfyconfig.toml`
checks everything.

## What is modelled

**The cluster protocol.** `Cluster.dfy` is the API server as one instance sees it: Secrets, the
instance and its status, a Deployment with the possibly stale spec its controller acts on, its live
and terminating pods, the Ingress, the Service and the probes. One counter hands out UIDs and
resource versions. A request is served atomically; it can be lost on the way, or its reply can. Between
two requests others act: they create, delete and rewrite Secrets under any name, with any owner and
contents, scale the Deployment, take over names, edit routes and specs, and the Deployment
controller syncs its cache, reports status and starts, stops and reaps pods.

`Safety.dfy` says which requests the controller may send in which state (`Allowed`), what holds in
every reachable state (`Good`), and that permission survives what others do before a request
arrives. `Runs.dfy` proves that every permitted request keeps `Good`, so every state of every legal
run has it. `Theorems.dfy` draws the consequences for whole runs, and `Witnesses.dfy` holds runs that show what they leave
open. A pass begins with a read of the instance, and the host that operator configuration selects is noted with it.

The controller itself is imperative: `Server.dfy` holds the API server as an object whose script
decides, for every request, what others do first and what is lost, and whose invariant says that the
history so far is a legal run. `Pinning.dfy`, `History.dfy`, `Access.dfy`, `Workload.dfy`,
`Routes.dfy` and `Reconcile.dfy` are the source's functions with their branches; each request in
them carries a proof that it is permitted, so the run theorems hold for `Reconcile` under every
script. A crash is a script that loses the rest of a pass. `Quiet` scripts have faults but nobody else
acting; an empty script has neither, and there the contracts say exactly when a call succeeds.

**Smaller cores.** `Templates.dfy` (the managed pod template), `Ingresses.dfy` (the managed route),
`Hostnames.dfy` (names from operator policy), `Base64.dfy` (cookie keys), `SocketGuard.dfy` (guarded
Socket.IO calls as a machine that interleaves at every await, and the header filter), `Gate.dfy` (claims,
header rewriting, the timed recheck) and `Release.dfy` (the values rewriter).

## Where the code is subtler than its comments

- Hostname selection marks the status as pending in memory before it patches it. If that patch fails, the
  failure handler finds a memory that already looks closed and writes nothing, so a stored `Ready` stays
  until a later pass. `Reconciling.SlugWriteFailure` gives the exact condition and `Reconcile` reports the case as `unsaved`.
- At most one Secret is deleted beyond the dropped pins only while no other workload and no spec refers to a bundle and no finalizer holds
  one (`solo`). Otherwise a workload can refer again to a bundle that was deleted and is still pinned; it is then
  passed over and another one is deleted. `History.SecondDeletion` says that this happens exactly then,
  `Witnesses.SecondDeletionHappens` is such a run, and `Theorems.DeletionsAreBounded` states the bound that always holds and the sharper one.
- Two requests replace the instance in memory by a later version of it: the patch that stores the slug, whose reply is decoded
  into it, and the recording of a pin, which reads it again. The checks made before are not made again, so when
  somebody edits the spec in between, the replicas asked for and the generation that a status reports are those of a spec
  that this pass never checked (an older served schema does not limit the replicas), and after a pin the backend
  reference, too. `Reconciling.RestsOnTheChecks` and `Workloads.BeyondTheBundle` say exactly when, `Theorems.StatusesRestOnTheChecks`
  and `Theorems.DeploymentsRestOnTheChecks` bound it in every run, and `Witnesses.UncheckedSpecIsApplied` is a run in which it
  happens. The invariant therefore speaks of mounted bundles; references of any kind still protect a bundle from deletion.
- Merging a template is idempotent exactly when desired containers of one name, unknown to the existing
  template, ask for the same resources (`Templates.ManagedTemplateConverges`).
- A new Ingress lacks the TLS router annotation that the first update adds; it is converged at creation
  exactly when TLS is off or operator configuration supplies that annotation (`Ingresses.BuiltConverges`).

## Model

| member | source | states |
|---|---|---|
| Runs.LegalRunsSafe | internal/controller/access_secret_history.go:22-91 | in every interleaving of permitted requests, lost messages and the acts of others: pins are our own creations and bounded, all pods run one template, mounted bundles are pinned and never erased, erased Secrets are gone or going, and deletions are counted against dropped pins |
| Runs.EraseSafe | internal/controller/access_secret_history.go:77-88 | deleting exactly the read, pinned, unreferenced bundle keeps all of that, whether a finalizer delays it or not |
| Runs.PatchSafe | internal/controller/access_resources.go:108-123 | storing one new pin or dropping one known to be gone keeps all of that, also under a schema that prunes pins |
| Runs.UpdateSafe | internal/controller/access_resources.go:384-407 | a Deployment update under the read version keeps one template for all pods, because a changed template needs a stopped workload |
| Safety.EnvRunSafe | internal/controller/access_resources.go:235-236 | whatever others do, the invariant stays and an object that still has the version that was read is the object that was read |
| Safety.AllowedStable | internal/controller/access_resources.go:384-407 | a request that was permitted when it was sent is permitted when it arrives |
| Theorems.PodsRunOneTemplate | internal/controller/access_resources.go:382-407 | in every run all live and terminating pods of the instance run the template of its Deployment |
| Theorems.TemplateChangesWhenStopped | internal/controller/chatuiinstance_controller.go:339-354 | in every run the template changes only by an update sent while no pod is left, zero replicas were observed and no owned Ingress exists |
| Theorems.MountedBundlesAreSafe | internal/controller/access_secret_history.go:39-91 | in every run a bundle that the template or any pod mounts is pinned, was never asked to be deleted, keeps its pin, and no request touches its Secret |
| Theorems.DeletionsAreExact | internal/controller/access_secret_history.go:39-81 | whenever a request removes or alters a Secret, it is the object that was read: an owned, immutable bundle with the pinned UID, neither session nor desired bundle; the instance's own workload does not refer to it, and neither did any Deployment or pod of the namespace in the last lists of the same pass |
| Theorems.GoneWasRead | internal/controller/access_secret_history.go:55-58 | a name counts as gone only if a delivered read found it absent after this controller last created it |
| Theorems.PinsDroppedAfterReads | internal/controller/access_secret_history.go:82-91 | a pin is dropped only for a bundle that such a read found absent, and that neither the own workload nor any in the last lists of the same pass refers to |
| Theorems.MineWasCreated | internal/controller/access_resources.go:78-86 | a UID counts as this controller's own only if the server assigned it to its own successful creation of that name and contents |
| Theorems.PinsAreOwnCreations | internal/controller/access_resources.go:90-106 | in every run every pin is such a UID, and a stored Secret with it has the created contents: nothing of others is adopted |
| Theorems.OrphansStayOrphans | internal/controller/access_resources.go:90-92 | a creation left without a pin is never pinned later, however the run goes on |
| Theorems.CrashOrphans | internal/controller/access_resources.go:90-92 | a pass that starts between a creation and its pin makes it such an orphan |
| Theorems.HistoryIsBounded | internal/controller/access_secret_history.go:18-20 | in every run at most one session pin and three bundle pins are stored, and bundle pins imply the session pin |
| Theorems.SessionPinIsForever | internal/controller/access_resources.go:67-69 | once stored, the session pin never changes and never disappears |
| Theorems.DeletionsAreBounded | internal/controller/access_secret_history.go:22-26 | Secrets asked to be deleted never exceed dropped pins plus those still pinned, and exceed dropped pins by at most one when nobody else uses a bundle |
| Theorems.CredentialsAreReadAfterChecks | internal/controller/chatuiinstance_controller.go:131-204 | in every run a Secret or the client credential is read, a Secret is created, deleted or pinned, the Deployment is created, gets another template or any pods, the Service or Ingress is written, or a settled status is saved, only after image, workload and replica checks of the same pass and a list of Ingresses that left the host selected for that pass unclaimed |
| Theorems.ReadyIsWrittenAfterChecks | internal/controller/chatuiinstance_controller.go:797-842 | in every run each write of a ready status, whatever was stored before, follows all those checks, the last answers of rollout, endpoints, service and name resolution in the same pass, and shows the address of the host found unclaimed |
| Theorems.ReadyTurnsTrueByAWrite | internal/controller/chatuiinstance_controller.go:933-947 | in every run the stored status turns ready only by such a write |
| Theorems.RoutesArePublishedAfterChecks | internal/controller/chatuiinstance_controller.go:584-632 | in every run the controller creates or edits its Ingress only after all those checks, and what it leaves serves exactly the host that the last list of the same pass found unclaimed |
| Theorems.ForeignObjectsStay | internal/controller/access_resources.go:235-236 | in every run no request changes or removes a Deployment or Ingress that the instance does not control, even one that replaced its own after the read |
| Theorems.FlagWasConfirmed | internal/controller/chatuiinstance_controller.go:797-842 | a check that a pass relies on was confirmed by a delivered request since that pass began, and by the last one that asked; for the hostname it is the check of that very host |
| Theorems.StatusesRestOnTheChecks | internal/controller/chatuiinstance_controller.go:132-149 | in every run the generation that a status reports is that of the spec which the pass read, and for a settled status also checked, unless somebody edited the instance during the pass |
| Theorems.DeploymentsRestOnTheChecks | internal/controller/chatuiinstance_controller.go:183-195 | in every run more than one replica is asked for only if somebody edited the instance during the pass, and a template refers to a bundle that it does not mount only if besides the pass wrote a pin |
| Witnesses.UncheckedSpecIsApplied | internal/controller/access_resources.go:108-123 | a run in which the spec is edited between the write of a pin and its read-back: the template and replicas that the code computes from the copy read back refer to a second bundle and ask for five pods |
| Witnesses.UncheckedGenerationIsReported | internal/controller/chatuiinstance_controller.go:919-931 | and one in which the status saved next reports the generation that nothing checked |
| Pinning.PersistPins | internal/controller/access_resources.go:108-123 | success means that the stored pins are the given ones and the memory is a fresh read of the instance; the memory changes in no other way; undisturbed, it succeeds iff the version matches and the schema keeps pins |
| Pinning.PinAccessSecret | internal/controller/access_resources.go:93-106 | adds exactly the UID of the creation in progress; the full-history guard is unreachable |
| Pinning.CreatePinned | internal/controller/access_resources.go:81-86 | success means a new Secret of ours, pinned and not erased; undisturbed, it succeeds iff the name is free and pins are kept |
| History.CollectAll | internal/controller/access_secret_history.go:39-46 | collects exactly what the listed pod specs refer to |
| History.ListReferences | internal/controller/access_secret_history.go:31-46 | what it lists covers every bundle the own workload refers to at the end, although the two lists are read at different times |
| History.Consider | internal/controller/access_secret_history.go:55-66 | an unreferenced bundle becomes a candidate exactly as stored; undisturbed, it fails iff the stored object is not the owned, immutable, pinned one |
| History.Candidates | internal/controller/access_secret_history.go:47-67 | in any order of visiting, the candidates are exactly the unreferenced pinned bundles; the invalid-history guard is unreachable |
| History.SortedPermutes | internal/controller/access_secret_history.go:71-76 | sorting keeps the candidates |
| History.SortedFirst | internal/controller/access_secret_history.go:71-77 | the first candidate after sorting comes before every other by creation time and name |
| History.EldestUnique | internal/controller/access_secret_history.go:71-77 | which bundle is retired does not depend on the order in which the pins were visited |
| History.MissingGoesFirst | internal/controller/access_secret_history.go:22-26 | as long as an unreferenced pinned bundle is missing, a missing one is retired before any present one |
| History.Choose | internal/controller/access_secret_history.go:31-77 | the chosen bundle is the eldest unreferenced one, missing ones first, and may be deleted; undisturbed, it fails iff a stored bundle mismatches or all are in use |
| History.Retire | internal/controller/access_secret_history.go:78-88 | success means that a read after the deletion found the name absent; undisturbed, it waits iff a finalizer holds the Secret |
| History.RetireChosen | internal/controller/access_secret_history.go:77-91 | success drops exactly that pin; cut off anywhere while nobody interferes, the retirement can still be completed |
| History.EraseRoom | internal/controller/access_secret_history.go:22-26 | after the deletion the same bundle is missing and hence still the eldest, so a later pass finishes the retirement |
| History.RoomWithoutFinalizers | internal/controller/access_secret_history.go:27-91 | without finalizers, room can be made iff there is room already, or the stored bundles are the pinned ones and one is unreferenced |
| History.SecondDeletion | internal/controller/access_secret_history.go:64-88 | with immediate deletion, a deletion leaves more than one deleted bundle pinned iff a workload refers to one that was deleted before |
| Witnesses.SecondDeletionHappens | internal/controller/access_secret_history.go:77-91 | such a run: the eldest bundle is deleted, the pass is cut off, another workload refers to the deleted bundle, and the next pass deletes the eldest of the others, two deletions with no pin dropped |
| History.MakeAccessSecretRoom | internal/controller/access_secret_history.go:27-92 | success leaves at most three pins and the session's; a full history loses exactly its eldest idle bundle; undisturbed, success iff room is possible; faults never destroy that possibility; guards for invalid or full histories are unreachable |
| Access.SessionSecret | internal/controller/access_resources.go:49-88 | what it returns is this controller's own creation with two 32-byte keys; undisturbed, success iff the stored Secret is the pinned one with good keys, or none exists and none is pinned |
| Access.BundleSecret | internal/controller/access_resources.go:205-231 | success means that the name is pinned to this controller's own creation with exactly the desired contents, not erased; undisturbed, success iff that is possible |
| Access.OperatorCredential | internal/controller/access_resources.go:163-179 | undisturbed, success iff the mapping, HTTPS, isolation, the reference and the credential's length are in order |
| Access.Assemble | internal/controller/access_resources.go:180-232 | the session keys and the credential determine the bundle's contents and name, whatever happened in between; when both Secrets exist nothing is written |
| Access.PrepareAccess | internal/controller/access_resources.go:162-233 | success names two Secrets whose UIDs were assigned to our own creations, with contents made of those keys and that credential, for a backend reference that was not reserved; the memory is the same, or was read again in a pass that wrote a pin; undisturbed, success iff possible; after a crash anywhere except between a creation and its pin it stays possible |
| Access.NewKeysGood | internal/controller/access_resources.go:71-77 | freshly written session keys pass the check of a later pass |
| Workloads.WithdrawAccess | internal/controller/access_resources.go:235-251 | afterwards no owned Ingress exists, whatever others did; that includes the case that the named Ingress is foreign; failure means that one of its requests was refused |
| Workloads.UnsupportedImage | internal/controller/image_policy.go:72-77 | decides whether some application container runs another image |
| Workloads.StopUnapproved | internal/controller/image_policy.go:61-89 | forced, success leaves an owned Deployment at zero whatever others do, and failure means that one of its requests was refused; unforced and undisturbed, the pass may go on iff there is no Deployment, or an owned one with the supported image or fully scaled down |
| Workloads.WaitForCutover | internal/controller/access_resources.go:382-407 | going on means no owned route and, if the Deployment is still the one that was read, no pod and an observed scale of zero; undisturbed, exactly then |
| Workloads.MergedRefs | internal/controller/access_resources.go:274-328 | the merged template mounts exactly the prepared bundle and refers to exactly that bundle, the session and backend Secrets and what the unmanaged fields of the existing template refer to |
| Workloads.BeyondTheBundle | internal/controller/access_resources.go:169-171 | so the written template refers to a bundle beyond the prepared one iff the backend reference in memory names one |
| Reconciling.ReadAgainFits | internal/controller/access_resources.go:108-123 | after `prepareAccess` it can name one only if a pin made the pass read the instance again and somebody had edited it |
| Reconciling.RestsOnTheChecks | internal/controller/chatuiinstance_controller.go:132-149 | a copy in memory of the generation that the pass read has the checked spec, an allowed image and one replica; any other copy is of an edit since |
| Workloads.DesiredIsMerged | internal/controller/access_resources.go:326-327 | the template of a new Deployment is a fixpoint of the merge |
| Workloads.WrittenTemplatesConverge | internal/controller/chatuiinstance_controller.go:339-354 | whatever template was there before, the one a successful reconcile leaves needs no further write |
| Workloads.SwapTemplate | internal/controller/chatuiinstance_controller.go:340-354 | a new template is written only after the cutover, to the object that was read, and success leaves it whatever others did |
| Workloads.ReconcileDeployment | internal/controller/chatuiinstance_controller.go:313-355 | success leaves the desired template merged over some earlier one, strategy and replicas, whatever others do, and over the present one when nobody does; a converged Deployment causes no write and no cutover; waiting leaves no route, and zero replicas at some point of the call |
| Routes.ScanClaims | internal/controller/hostname_policy.go:54-64 | true iff no rule outside the own Ingress claims the host |
| Routes.CheckHostname | internal/controller/hostname_policy.go:40-68 | whatever others do, success means that the list left this host unclaimed and is on record for the pass with this host; undisturbed, success iff the named Ingress is not foreign and nobody else claims the host |
| Routes.RepairIngress | internal/controller/chatuiinstance_controller.go:610-632 | leaves the fully managed object, writing only when something changed |
| Routes.ReconcileIngress | internal/controller/chatuiinstance_controller.go:584-633 | success leaves an owned Ingress with the managed body for a host that nobody else claims; undisturbed, success iff the host is free and the named Ingress not foreign |
| Routes.ReconcileService | internal/controller/chatuiinstance_controller.go:536-582 | success leaves an owned Service with the managed selector and port |
| Routes.Progress | internal/controller/chatuiinstance_controller.go:807-823 | gives no reason iff the observed rollout is complete |
| Routes.EvaluateProbes | internal/controller/chatuiinstance_controller.go:825-840 | undisturbed, ready iff endpoints, service and name resolution all answer |
| Routes.EvaluateReadiness | internal/controller/chatuiinstance_controller.go:797-842 | ready means that every check was confirmed in this pass; undisturbed, ready iff rollout and all probes are fine |
| Reconciling.MergeFaithful | internal/controller/image_policy.go:49-59 | a merge patch computed against a faithful memory stores what the schema keeps of the memory, pins excepted |
| Reconciling.PatchTo | internal/controller/image_policy.go:50-58 | success stores what the schema keeps of the given status without touching the pins and leaves a faithful memory, although the reply is decoded over a local slug; failure leaves the stored status as it was or as written |
| Reconciling.UpdateImagePolicyStatus | internal/controller/image_policy.go:49-59 | success leaves a status that is not ready, shows no address, and has the given phase and reason |
| Reconciling.CloseDown | internal/controller/access_resources.go:253-267 | each of the three parts counts as failed only if one of its own requests was refused, and each that did not holds whatever became of the others: no owned route, an owned Deployment at zero at some point under any script, a closed status with the reason |
| Reconciling.EnsureSlug | internal/controller/chatuiinstance_controller.go:276-304 | success means that the policy's slug and its source are stored; under a schema that prunes them it fails closed with the pending reason, and undisturbed exactly then; a failed status write leaves the memory closed and the stored status as it was or as written |
| Reconciling.SlugWriteFailure | internal/controller/chatuiinstance_controller.go:281-292 | after a failed status write of hostname selection the stored status is closed iff it was before or only the reply was lost |
| Reconciling.SelectedInstanceHost | internal/controller/chatuiinstance_controller.go:243-253 | success gives the valid host of the operator's policy, which the list of this pass left unclaimed |
| Reconciling.HostnameFailure | internal/controller/hostname_policy.go:82-119 | success leaves a closed status if the memory was faithful, for a named cause with its reason and, where the mapping or identity is missing, without a hostname; an unnamed cause writes nothing when the memory looks closed |
| Reconciling.StopForHostnameFailure | internal/controller/chatuiinstance_controller.go:255-263 | the same three parts, each on its own: no owned route, an owned Deployment at zero at some point, and a closed status if the memory was faithful; an unnamed cause leaves a status alone that the memory shows closed |
| Reconciling.Deny | internal/controller/access_resources.go:253-267 | a denial fails closed part by part, and the status names the reason unless its write was refused |
| Reconciling.CheckWorkload | internal/controller/chatuiinstance_controller.go:131-149 | going on means that image, present workload and replicas passed in this pass, and undisturbed exactly then; stopping fails closed part by part with the reason |
| Reconciling.SaveStatus | internal/controller/chatuiinstance_controller.go:919-947 | saving stores what the schema keeps of the settled status: readiness, reason, phase, the generation in memory and the address of the checked host; undisturbed it succeeds under the version in memory |
| Reconciling.ProvisionWorkload | internal/controller/chatuiinstance_controller.go:169-195 | only after the checks, credentials are read and the Deployment written; missing credentials, a cutover and any Deployment error fail closed part by part |
| Reconciling.ProvisionRoute | internal/controller/chatuiinstance_controller.go:197-226 | Service and route errors fail closed part by part; a settled pass has the readiness it reports |
| Reconciling.Provision | internal/controller/chatuiinstance_controller.go:156-226 | everything after the hostname check either fails closed part by part, adds the finalizer first, or settles; undisturbed and with nothing left to change it settles |
| Reconciling.ReconcileLive | internal/controller/chatuiinstance_controller.go:131-227 | the part of a pass after the instance was read fails closed and reports readiness as the whole pass does |
| Reconciling.Reconcile | internal/controller/chatuiinstance_controller.go:106-227 | for every pattern of failures and whatever others do, a pass that stops before the route leaves, each whatever became of the other two, no owned Ingress, a closed status, and since the pass began an owned Deployment at zero, unless a request of that very part was refused; the one exception is the status after a failed status write of hostname selection; under a schema that prunes the slug an undisturbed pass ends closed with the pending reason; an undisturbed pass over an instance that is in order saves a status that is ready iff rollout and all probes are fine |
| Reconciling.RunPasses | internal/controller/chatuiinstance_controller.go:106-227 | any number of passes, cut off anywhere, is a legal run, and the last one fails closed part by part |
| Templates.CollectSecretReferences | internal/controller/access_secret_history.go:94-127 | adds exactly the names that the pod spec refers to |
| Templates.SecretRefsMeaning | internal/controller/access_secret_history.go:94-127 | those names are the Secrets of volumes, projected sources, pull secrets and container variables, ephemeral and init containers included |
| Templates.ManagedAccessTemplate | internal/controller/access_resources.go:330-380 | the copies edited in place end up as the merge function says |
| Templates.SizedMeaning | internal/controller/access_resources.go:353-357 | a container keeps the sizing of the last existing container of its name, else its own |
| Templates.ManagedTemplateConverges | internal/controller/access_resources.go:330-380 | merging twice equals merging once iff same-named new containers ask for equal resources; distinct names suffice |
| Templates.OnlyDeclaredFieldsSurvive | internal/controller/access_resources.go:330-380 | the executable part of the result is that of a fresh template whatever was there; only sizing, extra metadata and unmanaged pod fields survive |
| Templates.ManagedRefs | internal/controller/access_resources.go:330-380 | the merged template refers to exactly what the desired volumes and containers and the unmanaged fields of the existing template refer to |
| Ingresses.Object.EnsureAnnotations | internal/controller/chatuiinstance_controller.go:695-714 | sets the router annotations and reports a change iff there was one |
| Ingresses.Object.ApplyExtra | internal/controller/chatuiinstance_controller.go:716-737 | adds every extra annotation in any order; forced, it always reports a change |
| Ingresses.Object.EnsureDns | internal/controller/chatuiinstance_controller.go:739-752 | sets the DNS annotation and reports a change iff there was one |
| Ingresses.Object.UpdatePass | internal/controller/chatuiinstance_controller.go:613-632 | the helpers together leave the managed object, and an unreported pass changed nothing |
| Ingresses.IngressConverges | internal/controller/chatuiinstance_controller.go:606-632 | from any contents one pass leaves one host, path and backend, keeps unmanaged annotations, and a second pass gives the same object |
| Ingresses.BuiltConverges | internal/controller/chatuiinstance_controller.go:635-686 | a new Ingress is a fixpoint iff TLS is off or the annotation is configured; otherwise the first update adds exactly that annotation |
| Hostnames.Parse | internal/hostnamepolicy/policy.go:88-130 | accepts a document iff its cutover is fixed, every entry is valid and no two describe one object or claim one slug; it keeps exactly those entries |
| Hostnames.AdmitsExactly | internal/hostnamepolicy/policy.go:112-128 | the three duplicate tests together reject an entry iff it clashes with an earlier one |
| Hostnames.IdentityKeyInjective | internal/hostnamepolicy/policy.go:116-117 | the joined identity key confuses no two objects |
| Hostnames.ValidatePublicHost | internal/hostnamepolicy/policy.go:73-85 | in any order of visiting, true iff the probe and every legacy slug give a valid host |
| Hostnames.SlugsCollideOnlyByDigest | internal/hostnamepolicy/policy.go:155-173 | two objects get one slug iff both names are derived and their digests collide |
| Hostnames.HostsDiffer | internal/hostnamepolicy/policy.go:59-70 | with separating digests, different objects get different hosts on one base |
| Hostnames.HostMeaning | internal/hostnamepolicy/policy.go:59-70 | a host is valid iff the slug and every label of the base are DNS labels and the whole fits 253 characters |
| Hostnames.StartupValidationExact | internal/hostnamepolicy/policy.go:73-85 | startup validation passes iff every slug that any later selection can return gives a valid host |
| Hostnames.StartupValidationCoversEveryRun | internal/hostnamepolicy/policy.go:72-85 | after it passed, no selected slug ever fails |
| Hostnames.ClaimsHostMeaning | internal/controller/hostname_policy.go:70-80 | however letter case is folded, the suffix test with its dot count is equality of the folded names, or a wildcard over exactly one label |
| Hostnames.ManagedHostsDisjoint | internal/controller/hostname_policy.go:70-80 | different managed hosts on one base never claim each other, under any folding that leaves valid hosts as they are |
| Hostnames.ManagedHostsStayApart | internal/controller/hostname_policy.go:70-80 | in particular under the folding that the protocol uses |
| Base64.RoundTrip | internal/controller/access_resources.go:71-77 | decoding an encoding gives the bytes back, in both alphabets and for every length |
| Base64.EncodingsDifferByTwo | internal/controller/access_resources.go:152-160 | the two encodings differ only by '+' to '-' and '/' to '_' |
| Base64.CookieKeyRoundTrip | internal/controller/access_resources.go:71-77 | every key that is written comes back from the cookie secret unchanged |
| Base64.CookieKeyPreserved | internal/controller/access_resources.go:154-160 | any stored text is accepted iff it decodes to 32 bytes, and the cookie secret decodes to those bytes |
| SocketGuard.ReadIdentity | internal/webuiguard/chatui_guard.py:19-24 | gives the identity iff exactly one email in the reserved domain and exactly the user role are present; a value that is not ASCII raises |
| SocketGuard.StepInv | internal/webuiguard/chatui_guard.py:34-70 | every step of every call, wherever it wakes up, keeps tokens bound to the identity of their socket |
| SocketGuard.SessionTokensBelong | internal/webuiguard/chatui_guard.py:43-69 | in every interleaving a token in a socket's session belongs to that socket's handshake identity |
| SocketGuard.HandlersRunAfterTheirCheck | internal/webuiguard/chatui_guard.py:52-69 | in every interleaving no other handler runs unless the same call read the session token and then found it to be that identity's account |
| SocketGuard.FilterHeaders | internal/webuiguard/chatui_guard.py:138-156 | passes iff every header is acceptable, else reports the first that is not |
| SocketGuard.FilterMeaning | internal/webuiguard/chatui_guard.py:131-156 | what passes carries only credentials of the identity, none on the two exempt paths, and all other headers in order |
| SocketGuard.App | internal/webuiguard/chatui_guard.py:109-161 | only lifespan and health requests go through unfiltered; whatever else is forwarded has an identity, filtered headers, the socket path for WebSockets and the identity of its socket's first request |
| Gate.OidcIdentity | internal/accessgate/gate.go:185-225 | accepts claims iff issuer, subject, audience, authorized party and expiry are right, and gives the derived account |
| Gate.AccountsDiffer | internal/accessgate/gate.go:221-224 | two accepted subjects share an account iff their digests collide |
| Gate.HeaderMap.StripIdentity | internal/accessgate/gate.go:131-140 | in any order of visiting, removes exactly the canonical forms of the names that could carry an identity |
| Gate.HeaderMap.KeepCookies | internal/accessgate/gate.go:111-117 | keeps exactly the cookies that are not the gate's session |
| Gate.HeaderMap.Rewrite | internal/accessgate/gate.go:101-118 | the edits in place leave the rewritten map |
| Gate.ForwardedIdentity | internal/accessgate/gate.go:101-118 | of any canonical header map, what is forwarded has exactly one email and one role, the gate's, no other identity field and no session cookie, and the rest unchanged |
| Gate.GuardReadsGateIdentity | internal/webuiguard/chatui_guard.py:19-24 | the guard reads back exactly the identity that the gate derived |
| Gate.GateThenGuard | internal/webuiguard/chatui_guard.py:133-157 | after both, every credential that reaches the application belongs to that identity and the other headers keep their order |
| Gate.Watch | internal/accessgate/gate.go:273-288 | the recheck loop closes at the end of the first failing check or at the deadline |
| Gate.ClosedByExpiry | internal/accessgate/gate.go:268-272 | no stream outlives its token, and one that no check objects to lives exactly as long |
| Gate.RevokedStreamsClose | internal/accessgate/gate.go:270-288 | for any interval, timeout and delays within it, a stream revoked at R is closed by R plus the longer of the two plus the timeout |
| Gate.RevokedWithin35Seconds | internal/accessgate/gate.go:270-272 | with the gate's own numbers, within 35 seconds |
| Release.LinesSplit | hack/set-release-image.py:50-50 | the lines of a text join to the text |
| Release.ConcatSplits | hack/set-release-image.py:82-82 | joined lines split into the same lines |
| Release.AssignedIsRead | hack/set-release-image.py:77-81 | a written value is read back with the same trailing comment and line end |
| Release.AssignedIsAlike | hack/set-release-image.py:54-67 | a rewritten line is treated like the old one by every test of the search |
| Release.VersionsArePlain | hack/set-release-image.py:26-34 | every accepted version can stand in quotes on one line |
| Release.FindBounds | hack/set-release-image.py:50-59 | finds the one literal root line of a section and the end of its block |
| Release.FindFields | hack/set-release-image.py:60-67 | finds the line of every known key, and rejects unknown and repeated ones |
| Release.ReleaseValues | hack/set-release-image.py:47-82 | the list edited in place gives the rewritten text |
| Release.ReleaseFrame | hack/set-release-image.py:72-82 | exactly the repository and tag lines change, and only in their values; trailing comments and line ends stay |
| Release.LastWriterWins | hack/set-release-image.py:47-82 | on every accepted text, rewriting twice equals rewriting once with the last values, and the second rewrite cannot fail |
| Release.ComponentRepositoryValues | hack/set-release-image.py:85-116 | the list edited in place gives the rewritten component block |
| Release.ComponentLastWriterWins | hack/set-release-image.py:85-116 | last writer wins, and exactly one value changes |
| Release.OcmReleaseValues | hack/set-release-image.py:119-147 | three edits, with the operator block's bounds found before the first, give the rewritten text |
| Release.OcmPlan | hack/set-release-image.py:119-147 | exactly three values on three different lines change, and everything can be found again |
| Release.OcmLastWriterWins | hack/set-release-image.py:119-147 | on every accepted text, last writer wins for all three values |

## Left out

Assumptions about the surroundings:

- One manager is active and reconciles of one instance run one at a time; only the controller writes the instance's status.
- Pods come only from the Deployment controller's cached spec and keep their labels; third parties scale the Deployment and edit its metadata but neither edit its template nor delete it. A foreign Deployment may take the name first if its template refers to no access bundle.
- Nobody but the controller creates objects that the instance controls, the Secrets excepted, for which nothing is assumed.
- A requested deletion is never taken back, and an immutable Secret keeps its data, as the API server guarantees.
- Hashes, rendering of configuration and cookie syntax are functions given from outside; results that need a hash to separate two inputs say so.

Weaker or narrower than it could be:

- Theorems.DeletionsAreBounded: the bound of one beyond the dropped pins holds under `solo`; the other clause is the bound that holds in every run.
- Access.PrepareAccess: the retry that stays possible is one with the same host, configuration and, if the session Secret does not exist yet, the same keys; a creation cut off from its pin is excluded, as the source intends.
- Reconciling.Reconcile: that the Deployment is still at zero at the end is stated when nobody else acts, since others may scale it up again; that it was at zero during the pass, and that the route and the status are closed, whatever others do.
- Gate.RevokedStreamsClose: times are whole numbers from the ticker's start, and scheduling takes no time.
- SocketGuard.SessionTokensBelong: the application's handlers are assumed to store only the token they were given, and a token never changes its owner; accounts may be revoked and change roles.
- Hostnames.ClaimsHostMeaning: folding maps every character to one character; the protocol folds ASCII only, as the hosts of Ingress rules are ASCII.
- Cluster.Serve: cached reads of the manager's client are taken as fresh and lists as one page; of the fields that a reply lacks and decoding leaves in memory, only the slug and its source are modelled, not an image or a replica count that somebody removed from the spec.

Not modelled:

- TLS, HTTP transport, DNS lookup, tracing, flag parsing and file reading; their outcomes are nondeterministic answers.
- JSON decoding, the regular-expression engine and the cookie parsers; patterns are written out by hand.
- Instance creation and removal around a pass, apart from the finalizer; garbage collection.
- The constant environment of the containers, their exact commands and probe numbers; a template without replicas is taken to have the default.
- White space around the name of the backend reference.
- The request filter of the gate before authorization (host, origin, upgrade and path tests) and the permission request itself.
- Access policy parsing, whose duplicate checks repeat those of the hostname policy; selection from it is a given answer.
- Helm charts, portal extensions, shell scripts and generated code.
