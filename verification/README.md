# Verified model of the NETCONF operator

The operator watches custom resources in a Kubernetes API server and turns them into NETCONF exchanges.
A `MountPoint` makes it dial a device and cache the session in the process-wide `Sessions` map.
`Lock`, `EditConfig`, `Commit` and `Unlock` send RPCs on the session of the MountPoint they name; the last
three may wait for another resource through `dependsOn`. An `EditConfig` can also lock, commit and unlock by
itself. `EstablishSubscription` keeps a notification subscription and its listener, and undoes both before the
resource disappears. MountPoints and subscriptions are guarded by finalizers.

## How the model is built

* `Api` holds the resources, RPCs and outcomes as values.
* `Operator` is the whole operator as a step machine: object store with finalizers and deletion marks, session
  cache, dialled sessions with their listeners, one worker per kind, and a log of what happened. A reconcile is
  cut at every access to shared state, so reconciles of different kinds interleave with each other, with users'
  writes and with restarts of the process. `INIT` is the empty system and `Run` applies any sequence of actions.
* `Invariants`, `SessionCache`, `SessionLife`, `CheckThenUse`, `Causality`, `StatusHistory`, `Subscriptions`,
  `Lookups`, `Listeners`, `Registrations`, `Losses` and `Exchanges` each prove one family of facts that every step
  keeps. `Safety` puts them together and states what holds after any run. `Placement` adds that every clean-up of a subscription
  starts on the session where its resource's own listener is, `WellFounded` that specs do not change.
* `Atomic` runs one reconcile to its end and shows that this is a run of the step machine. `Script` is the
  transaction script as a reference, `Execution` one reconcile of an executing kind in one step. `Outcomes` says, kind
  by kind, what one whole reconcile leaves and how it ends, in terms of the stored object, the cache and the replies.
* `Sequencing` is the abstract order in which resources fire under a schedule; `Batch` shows that work queues
  of real reconciles refine it. `Device` compares the one-shot EditConfig with the chain of four resources on
  any deterministic device, `Rfc6241` adds a device after RFC 6241 and `Worlds` puts the two forms on it, end to
  end, in worlds that runs reach.
* `Deletion` proves that deletion ends, for MountPoints, and exactly when it can and what it leaves on the device,
  for subscriptions; `DeletionRuns` proves it under any interleaving.
* `Turns` are sequences of atomic reconciles, users' writes and restarts, and runs too. `Episodes` uses them to
  lead to reachable states: `StrayMoved`, `StrayRetargeted` and `StrayReissued` to ones in which the clean-up of one
  resource harms another (`Strays` holds what they share), `Superseded` to one in which a subscription outlives its
  resource.
* `Cluster` and the `...Reconcilers` modules are the controllers in their own form: classes whose methods
  update the shared fields and the in-memory instance. Each `Reconcile` method is proved to be the reconcile of
  module `Atomic` at its kind, so every result about that function is a result about the method. `Validation`
  holds the parts they share.
* `GoSlices` and `DeepCopy` model storage: `append` over spare capacity, and the generated deep copies.

## Assumptions

* Reads see the latest write. A write succeeds only on the version that was read, so a conflicting write by a
  user fails the operator's write.
* Users do not write status subresources and do not add or remove the operator's own two finalizers. They may
  do the rest: create, edit, delete, re-create, and hold an object with finalizers of their own.
* The API server refuses new finalizers on an object being deleted, and drops such an object when its last
  finalizer goes.
* `ManageError` and `ManageSuccess` write the in-memory status back. An error, also of that write, queues the
  object again. The watch predicate ignores writes of the status alone. Runs of the step machine may begin a
  reconcile of any stored object at any time.
* A panic ends the process; it restarts with an empty cache and every stored object queued.
* A synchronous RPC returns no reply and an error, or a reply; a reply may carry an error, rpc-errors or both.
  The client library the repository is built with never returns both a reply and an error; the model allows it.
* Single reads and writes of the `Sessions` map are atomic.
* Message constructors panic on an unknown datastore, an unknown default operation or an edit that is not XML.
* Namespaces contain no slash. Names may.
* Listeners, subscriptions and their ids belong to a session. Nothing is assumed about the ids a device issues, except
  where a result says so: `Listeners.NoReissue` is that no session issues an id that is still registered on it, or the
  name of the stream handler. Two sessions, also of one MountPoint, may issue the same id.

## Where the code and its documentation differ

* `DependsOn` is documented to make an operation fail when the dependency is not met
  (`api/v1/common_types.go:7-9`). The code returns an error and retries; the stored status keeps its value, and
  nothing is sent (`Execution.ClosedGate`).
* `EditConfig` reports `success` even when its lock, edit or commit came back as an rpc-error. It stops only
  when there is no reply at all, and then by a panic (`Execution.EditConfigTransaction`,
  `Rfc6241.LockedOutChangesNothing`).
* Deleting an `EstablishSubscription` is documented to send `delete-subscription` (`README.md:93-96`). The code
  does so only while the MountPoint named is stored and connected and the payload is XML
  (`Deletion.SubscriptionGoes`); without a session the object keeps its finalizer for as long as that lasts
  (`DeletionRuns.DisconnectedKeepsFinalizer`).
* The reply to `delete-subscription` is looked at for an error only, so a device that refuses it with an rpc-error
  keeps the subscription of an object that is gone (`Deletion.RefusedDeleteIsNotNoticed`).
  `Deletion.GoesUnsubscribed` says exactly when the object goes with its subscription deleted.
* Listeners and `delete-subscription` go by the session that is cached, at the clean-up, for the MountPoint the
  resource then names, not by the session that issued the id. So a clean-up can take the listener and the
  subscription of another resource, in three ways, each reached from the empty system: a resource is moved to another
  MountPoint (`StrayMoved.MovedResourceHarmsAnother`); a MountPoint is given another target while nobody touches a
  subscription (`StrayRetargeted.RetargetedMountPointHarmsAnother`); a clean-up is repeated because the store refused
  its write (`StrayReissued.RepeatedCleanUpHarmsAnother`). `Safety.SubscriptionsAreOwned` says exactly when a listener
  is there, `Safety.SettledSubscriptionsAreRegistered` that it always is in runs in which every clean-up starts where
  its resource's own listener is, and `Safety.StartsHomeIff` when a clean-up does: the resource still names the
  MountPoint it registered under, the cache entry was not touched since, and what it registered is still its own.
* A subscribed resource that is reconciled again, after an edit of its spec or a restart, subscribes again, and its
  stored id is overwritten (`controllers/establishsubscription_controller.go:181-226`). Its clean-up is of the last id
  only (`Safety.SupersededIsNotCleanedUp`), so the first listener and subscription outlive the resource
  (`Superseded.SubscriptionOutlivesItsResource`).
* A stored subscription id does not always mean that the finalizer is there: an object held by somebody else's
  finalizer keeps its id after the clean-up. `Deletion.StoredWithoutFinalizer` says exactly when, and
  `StrayMoved.MovedResourceHarmsAnother` reaches such an object.

## Model

| member | source | states |
|---|---|---|
| `Api.KeyInjective` | api/v1/mountpoint_types.go:71-73 | Two MountPoints never share a cache key: `namespace/name` is injective whenever namespaces hold no slash, whatever the names hold. |
| `Safety.Reachable` | controllers/common.go:34 | After any sequence of user writes, interleaved reconcile steps, panics and restarts, all the invariants hold together. |
| `Safety.FinalizerGuardsSessions` | controllers/mountpoint_controller.go:82-109 | In every reachable state a cached session belongs to a stored MountPoint that carries the finalizer, and was dialled for it; so when the object is gone no session is cached. |
| `Safety.RpcsStayHome` | controllers/common.go:37-52 | Every RPC of a run went to the session that, at the lookup of its reconcile, was cached for the MountPoint its resource named in its own namespace, a session dialled for that MountPoint. |
| `Safety.ExecutionsAreJustified` | controllers/common.go:89-141 | Each RPC of an executing resource in any run, under edits, deletions and re-creations, has a finite backward chain of earlier executions, each recorded as a success before the next, ending at one that depends on nothing. |
| `Safety.StoredIdIsProtected` | controllers/establishsubscription_controller.go:80-112 | A stored subscription id means the finalizer is present, or a delete-subscription for it returned without error and a foreign finalizer holds the object; without foreign finalizers it is present. |
| `Safety.DeletedBeforeGone` | controllers/establishsubscription_controller.go:156-174 | An EstablishSubscription that had an id left the store only after a delete-subscription for that id, on the session then cached for the MountPoint it named, returned without error (rpc-errors are not looked at). |
| `Safety.StoredIdWasRegistered` | controllers/establishsubscription_controller.go:223-226 | The stored id of an EstablishSubscription is that of a registration of its own, still held or, once it is being deleted, cleaned up. |
| `Safety.RegistrationsAreConserved` | controllers/establishsubscription_controller.go:181-226 | Every id ever registered is in the hands of its reconcile, stored in its object (finalized unless the id is empty), superseded by a later one that was stored, cleaned up, empty and left behind, or lost; it is lost iff some action of the run ended its reconcile without its status being written; and a resource holds one at most. |
| `Safety.SupersededIsNotCleanedUp` | controllers/establishsubscription_controller.go:156-174 | A clean-up by a resource whose registration was superseded is of another registration. |
| `Safety.SubscriptionsAreOwned` | controllers/establishsubscription_controller.go:221-228 | While no session issues an id that is still registered on it, the listener registered by a resource not being deleted, on the session then cached for its MountPoint and now iff the entry was not touched since, is there, its own, iff no clean-up took it away; and any that did was of another resource cleaning up a listener not, or no longer, its own. |
| `Safety.StartsHomeIff` | controllers/establishsubscription_controller.go:159-160 | A clean-up starts on the session where its resource's own listener is iff the resource still names the MountPoint it registered under, the cache entry of that MountPoint was not touched since, and what it registered is still current. |
| `Safety.SettledSubscriptionsAreRegistered` | README.md:93-96 | In any run in which every clean-up starts on the session where its resource's own listener is, and while no session issues an id that is still registered on it, the listener of every resource not being deleted is there, its own, on the session then cached for its MountPoint and now iff the entry was not touched since; also when two sessions issue the same id. |
| `Safety.SettledDeletesReachTheIssuer` | controllers/establishsubscription_controller.go:159-168 | In any run in which every clean-up starts so, whatever ids are issued, the delete-subscription sent before a resource went was sent on the session that had issued the id to it. |
| `Safety.SessionsAreConserved` | controllers/mountpoint_controller.go:142-209 | The dialled sessions of any run split exactly into cached, being connected, superseded, cleaned up, abandoned and lost; no session has two keys; without a restart none is lost. |
| `Safety.NilLookupsRaced` | controllers/editconfig_controller.go:147 | A reconcile past its session check finds a nil session at its lookup only if a clean-up of the same MountPoint ran in between. |
| `Safety.SessionsAreClosed` | controllers/mountpoint_controller.go:142-153 | In any run, before a session left the cache its MountPoint sent it a close-session, and next, exactly then, a kill-session iff the close got no reply, an error or rpc-errors; nothing else in between. |
| `Safety.ListenersWereGranted` | controllers/establishsubscription_controller.go:181-226 | In any run a listener is registered only for the id in a reply, with neither an error nor rpc-errors, to the establish-subscription its resource sent last, on that session. |
| `Safety.DeletedAfterUnlistening` | controllers/establishsubscription_controller.go:159-168 | In any run a delete-subscription is sent only by an EstablishSubscription that removed the listener of that id from that session right before. |
| `Safety.StoredStatusIsHonest` | controllers/lock_controller.go:130-146 | In any run the stored status of a Lock, Commit, Unlock or EstablishSubscription is `success`, or `subscribed`, iff the reply to its latest persisted execution had neither an error nor rpc-errors, and empty iff there was none; an EditConfig is never `failed`, and `success` only after some reply. |
| `Invariants.ShapeKept` | controllers/mountpoint_controller.go:120-131 | Every action keeps reconciles in step with the store: only they write the status and their finalizer, deletion marks stay, a finalized object cannot vanish under them. |
| `SessionCache.CacheKept` | controllers/mountpoint_controller.go:142-160 | Every action keeps each cache entry tied to a stored, finalized MountPoint and each session in hand tied to the MountPoint the reconcile works for. |
| `SessionLife.FatesKept` | controllers/mountpoint_controller.go:176-209 | Every action keeps the record of each session's life in agreement with the cache and the connecting reconcile, and each step of a life starts from the fate it should. |
| `Causality.CausalKept` | controllers/commit_controller.go:126-131 | Every action keeps the link between stored successes, gates passed and earlier executions. |
| `Lookups.LookedKept` | controllers/editconfig_controller.go:147 | Every action keeps each RPC and listener change on the session cached, at its lookup, for the MountPoint named. |
| `Listeners.HeardKept` | controllers/establishsubscription_controller.go:221-224 | Every action keeps the listeners of every session equal to what the log of registrations and removals says, and only ids of objects being deleted are taken away. |
| `Listeners.RegisteredIff` | controllers/establishsubscription_controller.go:156-160 | While no session issues an id that is still registered on it, a registration is the current one, and its id on its session, iff no clean-up took it away since. |
| `Listeners.OnlyStraysHit` | controllers/establishsubscription_controller.go:156-160 | Whatever ids are issued, while its object is not being deleted a current listener is taken away only by another resource cleaning up, on that session, an id that is not, or no longer, its own there. |
| `Listeners.WhyStray` | controllers/establishsubscription_controller.go:156-160 | A clean-up of an id the resource did get on that session is stray only because an earlier clean-up had already taken it away. |
| `Listeners.CleanUpSparesOthers` | controllers/establishsubscription_controller.go:156-160 | One clean-up keeps another resource's listener iff it is not that id on that session it removes, and always when what is registered there is its own. |
| `Placement.PlacedKept` | controllers/establishsubscription_controller.go:159 | Every action, where a clean-up that starts does so on the session of its resource's own listener, keeps each clean-up of its own listener and each delete-subscription on the session that issued the id. |
| `Registrations.RegsKept` | controllers/establishsubscription_controller.go:181-228 | Every action keeps each registration where its fate says: held in its object, superseded by one that was stored, cleaned up, or left behind only if empty. |
| `Registrations.OneHeld` | controllers/establishsubscription_controller.go:226 | A resource holds one registration at most: storing one supersedes the one before. |
| `Losses.LosesIff` | controllers/establishsubscription_controller.go:114-119 | After an action a registration is lost iff it was before, or it is in hand and the action ends its reconcile, by a failed status write or with the process, before the status is written. |
| `Losses.CleanUpsKept` | controllers/establishsubscription_controller.go:157-160 | Every action keeps each clean-up of an id that its own resource registered and stored. |
| `Exchanges.SpokenKept` | controllers/establishsubscription_controller.go:159-226 | Every action keeps each kind to its own RPCs, and each forgotten session, registered listener and deleted subscription preceded by the exchange that calls for it. |
| `StrayMoved.MovedResourceHarmsAnother` | controllers/establishsubscription_controller.go:159-168 | First failing input, reached from the empty system with no id issued twice on a session: a resource moved to another MountPoint and deleted takes the listener and the subscription of an untouched one, and its own stays on the first device. |
| `StrayRetargeted.RetargetedMountPointHarmsAnother` | controllers/mountpoint_controller.go:174-209 | Second failing input, reached likewise and with nobody moved: a MountPoint given another target replaces its session; the clean-up of a resource that got its id on the first one takes the listener and the subscription of another on the second, and its own stays. |
| `StrayReissued.RepeatedCleanUpHarmsAnother` | controllers/establishsubscription_controller.go:97-112 | Third failing input, reached likewise and with one session only: a clean-up repeated after a refused store write takes the listener and the subscription of a resource that got the free id in between. |
| `Superseded.SubscriptionOutlivesItsResource` | controllers/establishsubscription_controller.go:181-226 | Failing input: a resource that subscribed twice is deleted and cleaned up without any error, and its first listener and subscription are still there on the cached session. |
| `WellFounded.OnlyGroundedFire` | api/v1/common_types.go:17-19 | With fixed specs, a resource that ever sends, in any run, has a chain of dependencies that ends at one without. |
| `WellFounded.CyclesNeverFire` | controllers/common.go:93-122 | Members of a dependency cycle never send and never succeed, in any run. |
| `WellFounded.UnsupportedNeverFires` | controllers/common.go:93-104 | With fixed specs, a resource whose `dependsOn` has a name and a kind other than Commit, EditConfig and Lock never sends and never succeeds, in any run. |
| `WellFounded.NoNameNoGate` | api/v1/common_types.go:17-19 | Without a kind or without a name there is no gate: in every state a validated reconcile goes straight on to look up its session. |
| `Atomic.CompleteIsARun` | controllers/editconfig_controller.go:58-103 | A reconcile that is not interfered with is a run of the step machine by its own worker alone, ended by a restart if it panics. |
| `Atomic.ReconcileIsARun` | controllers/lock_controller.go:57-102 | The same for a whole reconcile of a named object. |
| `Atomic.ReconcileKeepsGood` | controllers/commit_controller.go:57-102 | One atomic reconcile of any kind keeps every safety invariant. |
| `Atomic.ReconcileFindsSession` | controllers/establishsubscription_controller.go:159 | In an atomic reconcile the session looked up, also during subscription clean-up, is never nil. |
| `Script.PlaysInOrder` | controllers/editconfig_controller.go:149-194 | What the script sends is a prefix of lock, edit, commit, unlock, in order, each answered by the device as it then stands. |
| `Script.PlaysPrefix` | controllers/editconfig_controller.go:151-191 | It is the longest prefix up to and including the first nil reply, or up to the first message that cannot be built; the script completes iff neither occurs. |
| `Script.PlayKeepsEditReply` | controllers/editconfig_controller.go:170-197 | The reply payload kept is the one of edit-config; those of commit and unlock are shadowed. |
| `Script.EditConfigPlays` | controllers/editconfig_controller.go:131-200 | An EditConfig reconcile in the middle of its script does what the reference script says, panics included. |
| `Execution.ClosedGate` | controllers/editconfig_controller.go:139-145 | A closed dependency gate sends nothing, leaves the status at its value and requeues, whether the test is in validation or in the logic. |
| `Execution.Fires` | controllers/common.go:136-141 | An open gate with a script that completes records `success` after exactly that script. |
| `Execution.EditConfigTransaction` | controllers/editconfig_controller.go:147-199 | Past the gate, for all eight flag combinations and all replies: a lock iff asked for, one edit, a commit iff asked for, an unlock iff asked for, in that order, with the datastore, operation and payload of the spec, on the session cached for its MountPoint; complete, with the edit-config payload, iff all got some reply; otherwise a panic after the first missing reply, or before the first RPC if the datastore is neither running nor candidate, or before the edit if its operation or payload is bad, with the stored status untouched. |
| `Outcomes.LockOutcome` | controllers/lock_controller.go:57-146 | What a whole Lock reconcile leaves and how it ends, for every state and reply: invalid, deleted, a datastore that is neither running nor candidate, no reply, rpc-errors, an error, a failed write. |
| `Outcomes.CommitOutcome` | controllers/commit_controller.go:57-154 | The same for a Commit, with its dependency tested in validation, before the deletion test. |
| `Outcomes.UnlockOutcome` | controllers/unlock_controller.go:57-159 | The same for an Unlock, with its dependency tested in the logic, after the deletion test. |
| `Outcomes.EditConfigOutcome` | controllers/editconfig_controller.go:58-145 | The same for an EditConfig up to its transaction, of which the premises hold otherwise. |
| `Outcomes.MountPointOutcome` | controllers/mountpoint_controller.go:57-213 | What a whole MountPoint reconcile leaves and how it ends, short of a clean-up: the finalizer, a failed dial, a failed hello, a session cached with its capabilities stored. |
| `Outcomes.MountPointLeaves` | controllers/mountpoint_controller.go:91-161 | The clean-up of a MountPoint: close-session, then kill-session iff the close got no reply, an error or rpc-errors, the session forgotten, and the finalizer, or with it the object, gone iff it could be hung up and the write succeeded. |
| `Outcomes.SubscriptionOutcome` | controllers/establishsubscription_controller.go:60-229 | What a whole EstablishSubscription reconcile leaves and how it ends, short of a clean-up: its own XML is what is validated and sent, and only a clean reply is registered and stored. |
| `Outcomes.SubscriptionLeaves` | controllers/establishsubscription_controller.go:94-174 | The clean-up of a connected EstablishSubscription: its listener, then delete-subscription, then the finalizer, or with it the object, iff the RPC returned no error and the write succeeded. |
| `Sequencing.OrderIsOrdered` | controllers/common.go:89-123 | Under any schedule no resource fires twice and each fires after its dependency. |
| `Sequencing.ChainIsShort` | api/v1/common_types.go:10-15 | As each resource has at most one dependency, a chain that ends visits at most as many resources as there are. |
| `Sequencing.FairFiresExactly` | controllers/common.go:93-122 | Under every fair schedule a resource fires iff its chain of dependencies ends. |
| `Sequencing.PassMakesProgress` | controllers/commit_controller.go:76-79 | Termination measure: while a resource whose chain ends has not fired, each pass in any order makes the number still to fire strictly smaller. |
| `Sequencing.FairChainOrder` | controllers/common.go:89-141 | For a single chain of any length the order of firing is unique. |
| `Batch.BatchRefines` | controllers/unlock_controller.go:57-102 | Work queues of real reconciles, under any schedule with clean replies, fire in the abstract order and leave as RPC trace the scripts in that order. |
| `Batch.FairSchedules` | controllers/common.go:89-141 | In a clean world every fair schedule ends with exactly the resources whose chains end in `success`, the others still queued, each script sent once and after that of its dependency. |
| `Batch.DonePassByPass` | controllers/common.go:89-141 | A resource whose chain has length n has succeeded after n passes over the batch, in any order. |
| `Device.ChainTrace` | README.md:60-64 | On a device that accepts the scripts of a chain, every fair schedule leaves the same trace and every resource succeeds. |
| `Device.OneShotRefinesChain` | controllers/editconfig_controller.go:149-199 | On every deterministic device that accepts the four RPCs, one EditConfig with lock, commit and unlock leaves the same trace and device state as Lock, EditConfig, Commit, Unlock under any fair schedule. |
| `Rfc6241.TransactionOnDevice` | controllers/editconfig_controller.go:149-194 | From an idle device a transaction ends idle with its edit applied if accepted; with the candidate locked by another session it changes nothing. |
| `Rfc6241.ConfigurationIsAFold` | controllers/editconfig_controller.go:131-200 | Any sequence of reconciles of transactional EditConfigs, each with reads and writes of its own that may fail, from an idle device ends idle, candidate and running equal to the fold of the accepted edits. |
| `Rfc6241.LockedOutChangesNothing` | controllers/editconfig_controller.go:149-158 | A transaction while another session holds the lock leaves the device as it was, and is recorded as `success` all the same. |
| `Rfc6241.IdleAcceptsTransaction` | controllers/editconfig_controller.go:149-194 | An idle device whose edit takes the payload accepts the four RPCs, so the two forms agree on it. |
| `Worlds.FreshWorld` | README.md:60-64 | Every batch on one MountPoint can be installed by a run from the empty system, and what is reached meets the premises of the scheduling theorems. |
| `Worlds.BothFormsApplyTheEdit` | README.md:60-64 | From any states in which nothing has been sent, on an idle RFC 6241 device that takes the edit, the one-shot EditConfig and the chain of four under any fair schedule send the same four RPCs and leave the device idle with the edit applied to running. |
| `Worlds.BothFormsHappen` | README.md:60-64 | Both forms are reached by runs from the empty system, and going round the chain is a fair schedule, so the end-to-end result happens. |
| `Deletion.CleansUp` | controllers/mountpoint_controller.go:92-109 | A reconcile of a MountPoint being deleted never panics, always forgets its session, and removes the finalizer iff the write succeeds and there was no session or it could be hung up. |
| `Deletion.DeletionTerminates` | controllers/mountpoint_controller.go:142-160 | In turns: with anything else reconciled, written or restarted in between, the rank of a MountPoint being deleted never grows, and as many of its reconciles with successful writes as the rank says, at most two, remove the finalizer for good. |
| `DeletionRuns.DeletionEnds` | controllers/mountpoint_controller.go:92-109 | Under any interleaving, a connection possibly in flight, no action increases the rank of a MountPoint being deleted, and each of its clean-ups that ends without a failed store write lowers it; so after at most two of them the finalizer is gone for good. |
| `DeletionRuns.CleanUpConcludes` | controllers/mountpoint_controller.go:142-161 | In any run such a clean-up never panics and goes on until it removed the finalizer, could not hang up, or had a store write fail. |
| `DeletionRuns.DisconnectedKeepsFinalizer` | controllers/establishsubscription_controller.go:80-95 | Over any run in which no session is cached for the MountPoint named, an EstablishSubscription keeps its finalizer, whatever else happens. |
| `DeletionRuns.AbsentKeepsFinalizer` | controllers/establishsubscription_controller.go:80-95 | In particular it does over any run in which the MountPoint named is not stored: no session can be cached for it. |
| `Deletion.SubscriptionGoes` | controllers/establishsubscription_controller.go:80-112 | An EstablishSubscription being deleted loses its finalizer iff the checks before the deletion test pass, delete-subscription returns no error and the write succeeds; otherwise the store is as before. |
| `Deletion.StoredWithoutFinalizer` | controllers/establishsubscription_controller.go:106-107 | A clean-up leaves an object stored with its id and without the finalizer iff the checks pass, delete-subscription returns no error, the write succeeds and a foreign finalizer holds the object. |
| `Deletion.GoesUnsubscribed` | controllers/establishsubscription_controller.go:163-171 | The object goes with its subscription deleted on the session that issued it iff the checks pass, the write succeeds, the reply has neither error nor rpc-errors and the session cached for the MountPoint named is the issuer; and it goes and leaves it there iff they pass, there is no error, and the reply has rpc-errors or the session is another. |
| `Deletion.RefusedDeleteIsNotNoticed` | controllers/establishsubscription_controller.go:168-171 | A delete-subscription refused with an rpc-error lets the object go and leaves the subscription on the session that issued it. |
| `Cluster.Manager.CheckMountPointExists` | controllers/common.go:37-52 | True iff the MountPoint can be read and its key is cached. |
| `Cluster.Manager.ValidateDependency` | controllers/common.go:89-140 | Succeeds iff reads succeed and the dependency names a Commit, an EditConfig or a Lock that is stored in the namespace in `success`. |
| `Validation.SinglePlays` | controllers/commit_controller.go:136-154 | Lock, Commit and Unlock are one machine: for every reply, what sending the RPC leaves in log, status, queue and panic. |
| `Validation.Invalid` | controllers/unlock_controller.go:76-79 | An invalid resource is reported with the status it had and queued again, and nothing is sent. |
| `RpcReconcilers.LockReconciler.ManageOperatorLogic` | controllers/lock_controller.go:130-146 | Sends the lock iff the datastore is running or candidate and panics otherwise; sets status and reply from the outcome: raw reply on an error or rpc-errors, data on success, panic without a reply. |
| `RpcReconcilers.LockReconciler.Reconcile` | controllers/lock_controller.go:57-102 | The Lock controller is the reconcile machine at its kind. |
| `RpcReconcilers.CommitReconciler.IsValid` | controllers/commit_controller.go:112-134 | Valid iff connected and the dependency has no kind, no name, or is valid. |
| `RpcReconcilers.CommitReconciler.ManageOperatorLogic` | controllers/commit_controller.go:136-154 | Sends the commit and sets status and reply from the outcome. |
| `RpcReconcilers.CommitReconciler.Reconcile` | controllers/commit_controller.go:57-102 | The Commit controller is the reconcile machine at its kind, its gate inside validation. |
| `RpcReconcilers.UnlockReconciler.ManageOperatorLogic` | controllers/unlock_controller.go:130-159 | A closed gate is an error that changes nothing; an open one sends the unlock iff the datastore is running or candidate, panics otherwise, and sets status and reply from the outcome. |
| `RpcReconcilers.UnlockReconciler.Reconcile` | controllers/unlock_controller.go:57-102 | The Unlock controller is the reconcile machine at its kind, its gate inside the logic. |
| `EditConfigReconcilers.EditConfigReconciler.SendScript` | controllers/editconfig_controller.go:149-199 | The statements that send lock, edit, commit and unlock with early exits leave the log, status and panic of the reference script. |
| `EditConfigReconcilers.EditConfigReconciler.ManageOperatorLogic` | controllers/editconfig_controller.go:131-200 | The same behind the dependency gate and the session lookup; a logic that returns without error sent exactly what the three flags ask for, in order. |
| `EditConfigReconcilers.EditConfigReconciler.Reconcile` | controllers/editconfig_controller.go:58-103 | The EditConfig controller is the reconcile machine at its kind. |
| `MountPointReconcilers.MountPointReconciler.IsInitialized` | controllers/mountpoint_controller.go:120-131 | Says whether the finalizer was there and leaves it there in memory. |
| `MountPointReconcilers.MountPointReconciler.ManageCleanUpLogic` | controllers/mountpoint_controller.go:142-161 | Ends the cached session: close, kill on the same session iff the close got no reply, an error or rpc-errors, forget, remove the stream handler; an error iff it could not be hung up. |
| `MountPointReconcilers.MountPointReconciler.ManageOperatorLogic` | controllers/mountpoint_controller.go:163-213 | Dials, advertises default and additional capabilities, caches the new session over any old one; a failed hello abandons the session. |
| `MountPointReconcilers.MountPointReconciler.Reconcile` | controllers/mountpoint_controller.go:57-118 | The MountPoint controller is the reconcile machine at its kind, and no reconcile changes the visible default capabilities. |
| `SubscriptionReconcilers.EstablishSubscriptionReconciler.IsValid` | controllers/establishsubscription_controller.go:135-155 | Valid iff connected and the XML of the subscription is XML. |
| `SubscriptionReconcilers.EstablishSubscriptionReconciler.ManageCleanUpLogic` | controllers/establishsubscription_controller.go:156-174 | Removes the listener of the stored id and no other, then sends delete-subscription; an error iff the RPC returned one. |
| `SubscriptionReconcilers.EstablishSubscriptionReconciler.ManageOperatorLogic` | controllers/establishsubscription_controller.go:176-229 | A clean reply leaves its id both stored and registered; any other leaves listeners and stored id alone. |
| `SubscriptionReconcilers.EstablishSubscriptionReconciler.Reconcile` | controllers/establishsubscription_controller.go:60-120 | The EstablishSubscription controller is the reconcile machine at its kind, validation and initialization before the deletion test. |
| `GoSlices.Append` | controllers/mountpoint_controller.go:196 | `append` keeps what was visible and adds the element, in place iff there is spare capacity. |
| `GoSlices.Advertise` | controllers/mountpoint_controller.go:193-199 | For any spare capacity the advertised list is defaults followed by additional, the visible defaults are unchanged, and the spare cells end up as stated; the arrays are shared iff everything fitted. |
| `DeepCopy.MountPointSpec.DeepCopyInto` | api/v1/zz_generated.deepcopy.go:640-647 | Equal value, nil kept nil, fresh capability storage, source unchanged. |
| `DeepCopy.RPCStatus.DeepCopyInto` | api/v1/zz_generated.deepcopy.go:734-748 | Equal value, nil slices kept nil, fresh condition and capability storage, source unchanged. |
| `DeepCopy.MountPoint.DeepCopyInto` | api/v1/zz_generated.deepcopy.go:581-587 | Equal value; apart from the target struct itself everything it reaches is fresh. |
| `DeepCopy.MountPoint.DeepCopy` | api/v1/zz_generated.deepcopy.go:590-597 | A new struct of equal value that shares nothing with the source. |
| `DeepCopy.MountPointList.DeepCopyInto` | api/v1/zz_generated.deepcopy.go:608-619 | Items of equal value in the same order, nil kept nil, everything an item reaches fresh and apart from what the others reach, so shared neither with the source nor between items. |

## Left out

- The Get, GetConfig, RPC and CreateSubscription controllers: repeats of the single-RPC machine, or thin calls into the client.
- The end of a subscription with its transport session: the device is taken to keep a subscription until it accepts a delete-subscription for it on its session.
- SSH dialling, authentication, hello bytes, XML parsing and message encoding: success or failure is an input, payloads are opaque.
- The argument of kill-session: it affects no modelled state.
- Notification callbacks, Kafka and Kubernetes events: only the registration and removal of listeners is modelled.
- The reply callbacks the client registers under message ids: the dispatcher is taken to keep them apart from subscription ids.
- Informer cache staleness, back-off delays, timeouts and requeue intervals: any order and any time of reconciles is allowed instead.
- Status conditions and events written by the reconciler library: only the fields of the repository's own status are kept.
- Manager wiring, scheme registration, metrics, leader election, CRDs and RBAC.
- Session objects and their listener tables are entries of a sequence in the manager's fields, not heap objects: two names for one session share it by index.
- The type assertions of `isValid` and `isInitialized`: what is stored under a kind has that kind.
- The generated deep copies of the other kinds: the same shapes as those modelled.
- Batch.FairSchedules: reconciles of the batch are atomic turns, MountPoints stay connected and nobody edits specs meanwhile.
- MountPointReconcilers.MountPointReconciler.ManageOperatorLogic: whether a hello is accepted does not depend on the capabilities advertised.
