# The DeviceConfig operator, verified

A Dafny model of the operator that turns a `DeviceConfig` into a KMM Module, a scheduler, a scheduler
extension and a node-metrics DaemonSet. It follows the reconcile and finalize passes at the level of single
API calls. Between any two calls, users, other controllers, the garbage collector, lost replies and crashes
may act.

## How it is built

- **Store and server.** `Json` holds documents and the merge patches of RFC 7396 (section 2), `Api` the objects,
  `Owners` owner references and `SetControllerReference`, `Finalizers` the finalizer list. `Cluster` has the
  stored objects and the server's verbs: deletion marks an object while it has finalizers, a terminating
  object gets no new finalizer, every stored spec goes through an arbitrary defaulting function, and a change
  of a child is reported for the DeviceConfig its controller reference names.
- **Controller.** `Cluster` also has the operator as a machine with one step per API call (`Work`). `Reconciler` has
  the same code as methods with early returns, over the heap objects of `Objects` and the setters of `Setters`.
  `Reconciler.ReconcileKey` shows that such a method makes exactly the machine's calls, fault by fault.
- **Environment.** `System` adds the work queue, event delivery, and everybody else's actions, and defines whole
  runs (`Exec`).
- **Desired state.** `Desired` has the pure functions the setters are proved against; `Operator` joins them to
  the machine.

`Effects` says what a single call can do to the stored objects, and that the others may do whatever the server
admits; `Names` ties the children's kinds and names in Kubernetes to roles. Runs: `Guard`, `Nest`, `Wakeup`,
`Draining`, `Ownership`, `Liveness` and `Deletion`. Whole passes: `Passes`, `Separate`,
`TeardownBound` (in `Teardown.dfy`) and `Operator`. Patches on the wire: `Patching`.

Assumptions appear as predicates where a theorem needs them. `System.Polite`: nobody else takes the operator's
finalizer off, creates objects under the children's names, or strips a child's owner references.
`System.Undisturbed`: moreover nobody else deletes a child. `Api.Idempotent`: defaulting a defaulted spec changes
nothing. `Cluster.StoresDesired`: the patch for a child stores what the setter left; `Operator.PatchesStoreDesired`
proves it of the operator's own setters. There is one worker, and reads are not stale.

## What turned out false, and exactly when it holds

- A clean pass reaches a fixed point under idempotent defaulting only if every child's spec settles
  (`Passes.Settles`): setting and defaulting it once is a fixed point of setting and defaulting.
  `Passes.CleanPassFixes` is the equivalence. The three workloads always settle. The Module may not, because its
  setter rewrites some fields and keeps others: `Operator.IdempotentIsNotEnough` gives idempotent defaulting under
  which no Module spec settles, and `Operator.RestlessNeverRests` shows that the system then never comes to rest.
- A deletion can hang. `finalizeDeviceConfig` deletes by name and ends the pass without asking to be called again;
  if the deleted object was not controlled by the DeviceConfig, nobody wakes it. `Draining.DeletionCanHang` is a
  run that ends so, for good by `Deletion.HangsForever`. `Deletion.DeletionFinishesIff` is the equivalence, for
  every state: the deletion finishes exactly when the next finalize pass will come (one is pending, or a draining
  child that the DeviceConfig controls will report its end) and the DeviceConfig controls its Module and its
  DaemonSet, as far as they are not being deleted yet. After polite runs that is always so
  (`Deletion.PoliteWillFinish`).
- Interrupted passes are absorbed exactly when the children that a pass gets to handle settle (defaulting idempotent):
  `Passes.InterruptionsAbsorbed` is the equivalence.
- `SetControllerReference` can produce an owner list that the server rejects: when a plain reference to the
  DeviceConfig stands before a controlling one. `Owners.SetControllerSound` has the exact condition,
  `Owners.ShadowedExample` a list.
- Two DeviceConfigs are kept apart by their children's names, not by the workloads' labels, which do not name the
  DeviceConfig: in one namespace, a workload's selector also matches the pods of the other DeviceConfig's workload
  of the same role, and of no other role (`Desired.PodsStayApart`).
- A merge patch carries the new document over exactly when it introduces no null (`Json.PatchRoundTrip`).

## Model

| member | source | states |
|---|---|---|
| Wakeup.StillConverged | internal/controllers/device_config_reconciler.go:63-120 | No wake-up is lost: in every reachable state a live DeviceConfig of which nothing is queued, undelivered or in flight has the finalizer and four converged children, whatever anybody else did before and however busy other DeviceConfigs are |
| Wakeup.QuiescentConverged | internal/controllers/device_config_reconciler.go:63-120 | When the whole system is quiescent, every live DeviceConfig has converged |
| Operator.RestIsDesired | internal/controllers/device_config_reconciler.go:83-120 | With the operator's own setters: a live DeviceConfig of which nothing is pending or in flight has four children that name it as controller and carry its present settings |
| Draining.StillReleased | internal/controllers/device_config_reconciler.go:163-199 | In polite runs, a DeviceConfig being deleted, of which nothing is pending or in flight and none of whose torn-down children is draining, has lost the finalizer |
| Draining.QuiescentReleased | internal/controllers/device_config_reconciler.go:163-199 | When the whole system is quiescent after a polite run, every deletion is finished or waits for a draining child |
| Deletion.DeletionFinishesIff | internal/controllers/device_config_reconciler.go:163-199 | From any state with an idle worker, draining and turns take the finalizer off if and only if the next finalize pass will come and the Module and DaemonSet, as far as they still stand, are controlled by the DeviceConfig; then exactly as many rounds as things stand are needed, at most three |
| Deletion.PoliteWillFinish | internal/controllers/device_config_reconciler.go:172-198 | After a polite run that condition always holds |
| Deletion.ThreeRoundsSuffice | internal/controllers/device_config_reconciler.go:163-199 | So after any polite run a DeviceConfig being deleted is released by exactly as many rounds as things stand after the first drain, at most three |
| Draining.DeletionCanHang | internal/controllers/device_config_reconciler.go:172-182 | Without politeness a deletion can stay unfinished: a concrete run ends at rest with the finalizer on and no child left |
| Deletion.HangsForever | internal/controllers/device_config_reconciler.go:172-182 | After that run no number of rounds takes the finalizer off |
| Liveness.TwoTurnsSuffice | internal/controllers/device_config_reconciler.go:63-120 | Rest is reached: after any run of anybody, once no child is blocked, the specs settle and the others are still, two turns of the worker leave nothing pending, the finalizer set and all children converged |
| Liveness.EverythingComesToRest | internal/controllers/device_config_reconciler.go:63-120 | After any run, once every DeviceConfig is live with no child blocked and all specs settling, and the others are still, two turns for each key in any order make the whole system quiescent, with every DeviceConfig kept and converged |
| Guard.FinalizerGuards | internal/controllers/device_config_reconciler.go:96-117 | At every API call of every polite run, a Module or metrics DaemonSet implies its DeviceConfig with the finalizer, and a controller reference to this very incarnation |
| Guard.TeardownOrder | internal/controllers/device_config_reconciler.go:163-199 | The DaemonSet is gone when the operator deletes the Module; both are gone when the finalizer comes off, which only the operator does; no pass creates a child of an incarnation on which a finalize pass has begun |
| Nest.MetricsImplyModule | internal/controllers/device_config_reconciler.go:101-117 | In undisturbed runs the metrics DaemonSet implies a Module that is not going away, also across re-creation under the same name |
| Nest.ChildrenFormPrefix | internal/controllers/device_config_reconciler.go:101-117 | Until the first finalize pass the children present are a prefix of Module, scheduler, extension, metrics |
| TeardownBound.AtMostThreeWrites | internal/controllers/device_config_reconciler.go:163-199 | In any polite run the finalize passes on one incarnation change the store at most three times, and at most once for each thing still up |
| TeardownBound.RoundsNeeded | internal/controllers/device_config_reconciler.go:163-199 | With drains in between, as many clean passes as children up plus one, among any number of failing ones, take the finalizer off; fewer passes never do |
| TeardownBound.FinalizerLeavesNoTrace | internal/controllers/device_config_reconciler.go:153-161 | Setting the finalizer, deleting and taking it off again ends as deleting the unmarked DeviceConfig at once would have |
| Effects.CallEffects | internal/controllers/device_config_reconciler.go:153-199 | No call of the operator, whatever becomes of it, changes uid, spec or deletion mark of a DeviceConfig, nor the finalizers of a child; a child disappears only if nobody holds a finalizer on it |
| Effects.DropEffect | internal/controllers/device_config_reconciler.go:182 | A deleted child that somebody holds stays, terminating, with its finalizers, owners and spec; one that nobody holds goes; nothing else changes |
| Effects.SpecSurvives | internal/controllers/device_config_reconciler.go:158-160 | Over any run in which nobody edits or re-creates it, a DeviceConfig keeps its spec, whatever older copies passes were working on |
| Effects.HeldChildStays | internal/controllers/device_config_reconciler.go:178-198 | Over any run in which nobody else edits it, a child with finalizers is still there, its finalizers unchanged |
| Effects.HeldWhileDraining | internal/controllers/device_config_reconciler.go:188-193 | In polite runs the operator's finalizer stays on as long as somebody holds the Module or the DaemonSet |
| Effects.PassesHeldBack | internal/controllers/device_config_reconciler.go:163-199 | After any number of finalize passes with any faults, while nobody lets go of the Module or DaemonSet, that child and the operator's finalizer are still there |
| Effects.CreatedChildrenBare | internal/controllers/device_config_reconciler.go:202-207 | In every run, what the operator creates is stored with no finalizers, not terminating, this DeviceConfig as only owner and the setter's spec of an empty object; the server refuses exactly if something is there |
| Effects.CleanPassCreates | internal/controllers/device_config_reconciler.go:101-117 | A clean pass on a DeviceConfig without children succeeds and creates all four so |
| Ownership.WrittenChildrenOwned | internal/controllers/device_config_reconciler.go:66-68 | Every child write the server accepts in a polite run leaves exactly one controller reference, to the DeviceConfig of the pass; the child's events wake it and no other. If the pass found its reference in place, the server's present owners stay untouched; else the list is the one that was read plus the reference, so that all others read then are kept and edits made since are lost |
| Passes.InterruptionsAbsorbed | internal/controllers/device_config_reconciler.go:83-120 | After any passes cut off anywhere and losing any replies, one clean pass ends with the same objects and outcome as if it had been the first, if the children before the first one that cannot be handled settle, and under idempotent defaulting only if they do; a foreign child that stops every pass, and whatever is behind it, does not matter |
| Passes.CleanPassFixes | internal/controllers/device_config_reconciler.go:201-265 | After a clean pass that succeeds a second one changes nothing exactly when all specs settle; it wakes nobody, and without defaulting it attempts no write |
| Passes.PassStopsAtBlocked | internal/controllers/device_config_reconciler.go:226-232 | A clean pass fails exactly when a child is foreign or shadowed, stops at the first such child, leaves it and the later ones untouched, and has converged each earlier one that settles |
| Passes.HandleFailsIff | internal/controllers/device_config_reconciler.go:239-248 | One CreateOrPatch fails exactly on a child with another controller, or with a plain reference before the controlling one, and then leaves it alone |
| Passes.HandleAgain | internal/controllers/device_config_reconciler.go:209-211 | A second CreateOrPatch succeeds after the first, and changes the child exactly when its spec does not settle |
| Names.ChildNames | internal/controllers/device_config_reconciler.go:165-187 | Kind, namespace and name of the four children, letter by letter, and that each leads to the intended child |
| Names.FindName | internal/controllers/device_config_reconciler.go:202-254 | For all names, the name of a child leads back to this child |
| Names.NameFound | internal/controllers/device_config_reconciler.go:202-254 | A name that leads to a child is the name of that child |
| Names.ChildNamesInjective | internal/controllers/device_config_reconciler.go:202-238 | Kind, namespace and name of children coincide only for the same DeviceConfig and the same role, for all names |
| Names.DeploymentsDiffer | internal/controllers/device_config_reconciler.go:222-238 | The scheduler's and the extension's names never coincide, not even for different DeviceConfigs |
| Separate.PassesCommute | internal/controllers/device_config_reconciler.go:83-120 | Passes of any kind on two DeviceConfigs, with any faults and cut off anywhere, can be exchanged: objects, notifications and both outcomes are the same |
| Json.PatchRoundTrip | internal/controllers/device_config_reconciler.go:158-160 | The difference of two documents, as a merge patch on the first, gives the second exactly when the second has no null that the first lacks |
| Json.PatchKeepsUntouched | internal/controllers/device_config_reconciler.go:191-193 | Whatever the server holds, a member the client did not change keeps the server's value |
| Json.InsertIffNullFree | internal/controllers/device_config_reconciler.go:209-211 | A value put where no object was comes out unchanged exactly when it has no null member |
| Patching.FinalizerPatchIsMergePatch | internal/controllers/device_config_reconciler.go:158-160 | The finalizer patch on the wire changes only the finalizers of whatever version the server holds, so a concurrent edit of the spec survives |
| Patching.FinalizerVerbIsMergePatch | internal/controllers/device_config_reconciler.go:191-193 | The patch verb that machine and methods use, for every stored version and every base: what is stored is, as a document, the merge patch of what was stored; exactly when it is rejected and when the DeviceConfig goes; nothing else changes |
| Patching.ConfigDocInjective | api/v1alpha1/deviceconfig_types.go:29-56 | Two DeviceConfigs have the same document exactly when they are equal |
| Patching.ChildPatchIsMergePatch | internal/controllers/device_config_reconciler.go:209-211 | The patch of a child on the wire gives the owners, finalizers and pre-defaulting spec that the model's verb stores |
| Finalizers.AddKeepsPlaces | internal/controllers/device_config_reconciler.go:153-161 | Setting the finalizer keeps every entry in its place and is idempotent |
| Finalizers.RemoveUndoesAdd | internal/controllers/device_config_reconciler.go:191-193 | Removing after setting restores the list exactly when it did not have the finalizer |
| Finalizers.WithoutAppend | internal/controllers/device_config_reconciler.go:191-193 | Removal works entry by entry and keeps the order of the others |
| Owners.SetControllerSound | internal/nodemetrics/nodemetrics.go:96 | SetControllerReference fails exactly on a foreign object; otherwise other owners stay, it is idempotent, and the DeviceConfig is the only controller exactly when no plain reference shadows the controlling one |
| Owners.ShadowedExample | internal/nodemetrics/nodemetrics.go:96 | An admitted list of two references on which SetControllerReference succeeds and the server rejects the result |
| Owners.UpsertKeepsOthers | internal/kmmmodule/kmmmodule.go:59 | The upsert keeps all other owners in their places, adds at most one entry and invents none |
| Desired.ModuleSettersCommute | internal/kmmmodule/kmmmodule.go:53-60 | The loader and the device-plugin setter commute: together they overwrite exactly the managed fields |
| Desired.ModuleSettersLocal | internal/kmmmodule/kmmmodule.go:62-122 | Each Module setter is idempotent, keeps all unmanaged fields, and writes what depends on the DeviceConfig only |
| Desired.ModuleSettings | internal/kmmmodule/kmmmodule.go:62-132 | Driver image, plugin image, pull secret and selector arrive at their places in the Module, a set selector winning over the PCI label even if empty; the in-tree module to remove is the one that is loaded instead |
| Desired.PodsStayApart | internal/customscheduler/customscheduler.go:66-78 | A workload's selector matches the pods of workloads of its own role and of no other, whatever DeviceConfigs and settings they come from |
| Desired.SettingsMatter | api/v1alpha1/deviceconfig_types.go:29-56 | Two DeviceConfigs want the same children exactly when they agree on every setting but the unused in-tree switch |
| Desired.PatchStoresDesired | internal/controllers/device_config_reconciler.go:209-211 | The patch computed from a copy, applied to that copy, stores the desired spec: no setter introduces a null |
| Operator.PatchesStoreDesired | internal/controllers/device_config_reconciler.go:209-211 | The operator's setters meet the assumption that the theorems on runs and passes make |
| Operator.SettersSettle | internal/kmmmodule/kmmmodule.go:53-60 | Workload specs settle under any idempotent defaulting, Module specs if defaulting keeps managed and unmanaged fields apart |
| Operator.IdempotentIsNotEnough | internal/kmmmodule/kmmmodule.go:86-89 | An idempotent defaulting under which no Module spec ever settles |
| Operator.RestlessNeverRests | internal/controllers/device_config_reconciler.go:201-219 | Under that defaulting, in every reachable state something of every live DeviceConfig is pending or in flight |
| Operator.ConvergedIsDesired | internal/nodemetrics/nodemetrics.go:69-94 | A converged workload is the defaulted desired spec; a converged Module has the defaulted desired values in all managed fields |
| Objects.StringMap.Copy | api/v1alpha1/zz_generated.deepcopy.go:110-116 | The copied map is new and equal |
| Objects.DeviceConfigSpec.DeepCopyInto | api/v1alpha1/zz_generated.deepcopy.go:103-117 | Same value, unset kept apart from empty; secret and map are new |
| Objects.DeviceConfigSpec.DeepCopy | api/v1alpha1/zz_generated.deepcopy.go:120-127 | The whole copy is new and equal |
| Objects.DeviceConfig.DeepCopyInto | api/v1alpha1/zz_generated.deepcopy.go:44-50 | Same value, with labels, annotations, owner references, finalizers, secret and selector, nil kept apart from empty; nothing mutable is shared |
| Objects.DeviceConfig.DeepCopy | api/v1alpha1/zz_generated.deepcopy.go:53-60 | The whole copy is new and equal, the original is unchanged |
| Objects.DeviceConfigList.DeepCopyInto | api/v1alpha1/zz_generated.deepcopy.go:71-82 | Entry by entry equal; each copy is new and disjoint from every other, even if originals share maps or secrets |
| Objects.DeviceConfigList.DeepCopy | api/v1alpha1/zz_generated.deepcopy.go:85-92 | The same into a new list |
| Objects.CopyItems | api/v1alpha1/zz_generated.deepcopy.go:75-81 | The loop over the entries: equal values, new and pairwise disjoint memory |
| Objects.ValueSaysAll | api/v1alpha1/zz_generated.deepcopy.go:44-50 | Two DeviceConfigs in memory have the same value exactly when they agree field by field, unset ones included |
| Objects.DeviceConfig.ContainsFinalizer | internal/controllers/device_config_reconciler.go:154 | Finds the finalizer exactly when it is in the list |
| Objects.DeviceConfig.AddFinalizer | internal/controllers/device_config_reconciler.go:159 | Appends in place or into a larger array: the list becomes the marked one, the rest of the metadata stays |
| Objects.DeviceConfig.RemoveFinalizer | internal/controllers/device_config_reconciler.go:192 | Moves entries down in the same array: the list loses exactly the finalizer, in order |
| Objects.MarkLocally | internal/controllers/device_config_reconciler.go:158-159 | The patch base is the value before the finalizer was added, although adding may write into the shared array |
| Objects.UnmarkLocally | internal/controllers/device_config_reconciler.go:191-192 | The patch base is the value before the removal, which overwrites the array in place |
| Setters.GetNodeSelector | internal/kmmmodule/kmmmodule.go:124-132 | A set selector is returned itself, shared; otherwise a new map with the PCI label |
| Setters.SetKMMModuleLoader | internal/kmmmodule/kmmmodule.go:62-84 | The in-place setter is the desired function; secret and selector are shared with the DeviceConfig, whose value does not change |
| Setters.SetKMMDevicePlugin | internal/kmmmodule/kmmmodule.go:86-122 | The in-place setter is the desired function |
| Setters.SetKMMModuleAsDesired | internal/kmmmodule/kmmmodule.go:53-60 | The spec is rewritten even when the owner check fails; owners change exactly when it does not; the DeviceConfig keeps its value |
| Setters.SetNodeMetricsAsDesired | internal/nodemetrics/nodemetrics.go:54-97 | A nil DaemonSet is an error; otherwise the spec is the desired one, with the metrics labels and account and the ready label of this DeviceConfig and nothing else, even when the owner check fails |
| Setters.SetCustomSchedulerAsDesired | internal/customscheduler/customscheduler.go:46-126 | The spec put together is what the machine desires for the scheduler whatever it was before: its own labels, account and container with the DeviceConfig's scheduler image, one replica, nothing else; owners, finalizers and the DeviceConfig stay |
| Setters.SetCustomSchedulerExtensionAsDesired | internal/customscheduler/customscheduler.go:128-167 | The same for the extension, with its own labels and container, the extension image and the Recreate strategy |
| Reconciler.SetFinalizer | internal/controllers/device_config_reconciler.go:153-161 | Makes the machine's calls: none if marked, else one patch, whose reply replaces the DeviceConfig in memory; no stored spec and no child changes, even if the DeviceConfig was edited since it was fetched |
| Reconciler.FinalizeDeviceConfig | internal/controllers/device_config_reconciler.go:163-199 | Looks the children up by the names it composes and makes the machine's finalize calls with its early returns; no spec changes, and no child that somebody holds is taken away |
| Reconciler.CreateOrPatch | internal/controllers/device_config_reconciler.go:209-211 | Creates, patches or does nothing as the machine does after its read; what it creates has no finalizers, one owner and the setter's spec of an empty object |
| Reconciler.HandleKMMModule | internal/controllers/device_config_reconciler.go:201-219 | Read by name, setter on the local copy, and at most one write of the Module |
| Reconciler.HandleCustomScheduler | internal/controllers/device_config_reconciler.go:221-249 | Both Deployments, the second only if the first went well |
| Reconciler.HandleNodeMetrics | internal/controllers/device_config_reconciler.go:251-265 | The same for the metrics DaemonSet, which ends the pass |
| Reconciler.Reconcile | internal/controllers/device_config_reconciler.go:83-120 | From a fetched DeviceConfig to the end of the pass, the machine's calls in order |
| Reconciler.Process | internal/controllers/device_config_reconciler.go:63-73 | The fetch, a missing DeviceConfig being nothing to do, and the requeue on error |
| Reconciler.ReconcileKey | internal/controllers/device_config_reconciler.go:70-120 | For any cluster and any faults, the methods end with the store and the outcome of the machine's pass, in at most ten calls |
| Liveness.PassIsSystemRun | internal/controllers/device_config_reconciler.go:70-72 | Such a pass is what the system does when nobody else acts in between |

## Left out

- Uids of the children: the server gives each object one, but no pass looks at them; the uids of DeviceConfigs are modelled.
- Metadata of the DeviceConfig beyond name, namespace, uid, deletion, finalizers, labels, annotations and owner references (managed fields, resource version, timestamps): no pass looks at them.
- Status of the DeviceConfig: the reconciler never reads or writes it; the memory model carries one number for it.
- useInTreeDrivers: declared and never used; it is kept in the spec and shown to have no effect.
- Literal pod contents (probes, ports, mounts, arguments): constants inside the desired specs; the labels are spelled out.
- The template nesting of the workloads: their pod fields stand next to the others in one flat object.
- The ready label of KMM: a function of namespace and name, given as a parameter.
- Stale fields when a reply is decoded into an object in memory: the reply replaces it as a whole.
- Decoding a Module into typed fields: what came from the server is held as JSON, and only the secret and selector that a setter puts there are pointers.
- Failing conversions in SetControllerReference (scheme lookups, cross-namespace owners): they cannot happen for these kinds.
- Writes with a stale resource version: the operator's patches carry none.
- Reads through a lagging cache: every read sees the store; with stale reads the finalizer guard would be weaker.
- Foreground deletion and orphaning: the garbage collector works in the background and in single steps, and may see an owner of another kind as missing at any time.
- Several workers or operator replicas: one worker is modelled, which is the default concurrency.
- Requeue delays and rate limits: a requeued key is simply pending.
- Manager start-up, flags, configuration files, logging, health checks: no reconcile logic.
- Operator.SettersSettle: separable defaulting is a sufficient condition for Modules; the exact one, spec by spec, is Passes.Settles in Passes.CleanPassFixes.
