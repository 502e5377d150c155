# A verified model of the vLLM operator

This project models the core of a Kubernetes operator for vLLM and proves properties of it in Dafny.
`dafny verify dfyconfig.toml` checks all of it.

## What is modelled

**The reconcile protocol.** `Cluster` is the API server as two objects see it: every stored version of the
custom resource and of its Deployment, status conditions, the status patch, the two server-side applies, and
what users and other controllers may do. `Machine` is `Reconcile` with one step per client call; between any two
steps the environment may act, a call may fail before or after taking effect, a cached read may return any
earlier version, and the process may stop. `Safety` holds the inductive invariant, `Guarantees` the safety
theorems read off it, `Witnesses` runs that they speak of, `Conditions` where every part of a status comes from,
`Monotone` and `Versions` the order and the meaning of observed generations, `Quiet` and `Fixpoint` convergence,
`Outcomes` what one undisturbed pass reports in each case.
`Reconciler` is the same code in imperative form, a class that stages the status field by field; its
contract is that every pass works a schedule off exactly as the machine does, so the theorems are about it.
Both reconcilers are instances: the machine is parametric in how a configuration is resolved, validated and
hashed, and the long-context one adds a policy to validation.

**Configuration.** `Env` merges environment lists; `Flags` and `Argv` print the command line and read it back,
`CommandLine` writes it out;
`Lora` validates adapter lists and relates cleaned paths to where they lead; `Encoding` is the encoding behind
the configuration hash.

**Schemas.** `Json`, `SchemaDiff`, `Normalize` and `Differences` are the comparison of schemas, `Coerce` the number
coercion of offline admission. `Order` has string order and sorting, `Lists` lists of lists.

**Endpoints.** `Nodes` decides which Node updates are dropped, `Endpoints` selects the URL.

**Image patches.** `Hoist` moves system messages, `TextPatch` patches a source file by anchors.

## Where the code does not do what one might expect

- The comments speak of a strategic merge patch (vllminstance_controller.go:323-327); the code sends the JSON
  merge patch of RFC 7396, section 2, which replaces the conditions array whole. The model follows the code.
- The unsafe-storage exit rewrites one timestamp on every pass, so a resource there never rests:
  `Fixpoint.UnsafeExitNeverRests`.
- The corrective write is sent under the field owner of the full apply, so it asks the server to remove whatever
  that owner alone had: the template, without which the server refuses it, and the controller reference, without
  which the read-back refuses the result. On the operator's own Deployment the replicas therefore stay at several:
  `Guarantees.OnesOwnTemplateBlocksIt`, `Fixpoint.RunawayIsCorrectedExactly`, and when it does work,
  `Guarantees.RemediationNeedsOthers`.
- observedGeneration can go back when the cache does, or when the resource is created again:
  `Monotone.AStaleCacheLowersIt`, `Monotone.RecreationLowersIt`, and exactly when in `Monotone.PatchLowersExactly`.
- Schema comparison is blind to properties named `description` or `title`
  (`Normalize.APropertyCalledTitleIsForgotten`), a rule with such a text is lost on a second pass
  (`Normalize.ARuleCalledDescriptionIsLost`, and exactly when in `Normalize.SettlesWhenRulesKept`), and a null on
  one side looks like absence (`SchemaDiff.ReplayGivesGenerated`).
- A difference is reported under a text that may stand for several positions:
  `Differences.DottedNamesReadLikeTwo`, and when it does not, `Differences.TextTellsClearPathsApart`.
- Dropping a Node update may leave a stale URL when a Node has two different internal addresses:
  `Nodes.DroppedNeverMovesIt` for the Node, `Endpoints.DroppedUpdatesKeepTheEndpoint` for the URL.
- An override naming the default security profile is not the same as no override when the preset names
  another: `Encoding.DefaultProfileIsAbsence`.

## Model

| member | source | states |
|---|---|---|
| `Guarantees.ReachableIsSafe` | operator/controllers/vllminstance_controller.go:59-321 | Every state of every run keeps the invariant: stale cache reads, failing or lost calls, edits between any two calls and stops included; every pass, pending or past, satisfies the pass part of it. |
| `Safety.RunKeeps` | operator/controllers/vllminstance_controller.go:59-321 | The invariant is inductive: any sequence of environment steps, answers and stops preserves it from any state that has it. |
| `Guarantees.ObservedGenerationIsEarned` | operator/controllers/vllminstance_controller.go:176-221 | A stored observedGeneration g > 0 means some pass over a snapshot of generation g resolved and validated its configuration, passed the storage gate, and had both applies, rendered from that snapshot, succeed; some stored Deployment version carried exactly the controller, replicas and template that were sent. |
| `Guarantees.ReadyIsEarned` | operator/controllers/vllminstance_controller.go:249-311 | A stored Ready=True stamped g means such a pass over generation g also saw a wanted count above zero, Available=True, and a ready count at least the wanted one; that count was reported by a Deployment status that had observed its generation. |
| `Guarantees.ReadyReplicasWereReported` | operator/controllers/vllminstance_controller.go:252-254 | A stored positive readyReplicas was reported by some Deployment version whose status was current, even when it is carried over from an older snapshot. |
| `Guarantees.PassesAreOverThisResource` | operator/controllers/vllminstance_controller.go:62-71 | In a run in which nobody deletes the resource every pass, so also the one that earned what is stored, was over a version of the very resource that stores it. |
| `Guarantees.GateHolds` | operator/controllers/vllminstance_controller.go:125-196 | A full apply of several replicas, whatever became of the call, follows a claim read in the same pass that offers ReadWriteMany, or ReadOnlyMany with the rendered /models mount read-only; an unsafe or corrective pass sends no full apply. |
| `Conditions.SentIsRendered` | operator/controllers/vllminstance_controller.go:98-196 | In every run what a pass sends is its own spec, field by field: the replicas it asks for and one if it asks for none, the resolved configuration with the read-only flag the spec decides, the mount rendered with that flag, and the key of its overrides or its own. |
| `Conditions.EverythingIsEarned` | operator/controllers/vllminstance_controller.go:59-321 | In every reachable state every condition of a stored or staged status was written by a pass of the generation it is stamped with, and its kind, truth value, reason and message say what that pass found; the names are those of what a pass applied and the hash that of a configuration a pass resolved. |
| `Conditions.OnlyZeroIsScaledToZero` | operator/controllers/vllminstance_controller.go:266-278 | So a resource is reported as scaled to zero only after a pass of that generation over a spec that asks for zero replicas. |
| `Guarantees.CorrectiveWriteLands` | operator/controllers/replica_storage.go:61-84 | If the server takes the corrective write, the object it lands on is at that instant the checked one: cached UID, controlled by this resource, more than one replica. |
| `Guarantees.CorrectiveWriteIsTaken` | operator/controllers/replica_storage.go:71-84 | The server takes the corrective write if and only if the checked version is still current, no other manager owns the replicas, and the operator does not alone own a template: a field that only this field owner had and this apply leaves out is removed, and a Deployment is not stored without its template. |
| `Guarantees.OnesOwnTemplateBlocksIt` | operator/controllers/replica_storage.go:71-84 | On a Deployment whose template the operator alone owns, whatever the answer to the corrective write, nothing is written, the replicas stay at several, and the pass goes on to its failed exit. |
| `Guarantees.CorrectiveWriteIsExact` | operator/controllers/replica_storage.go:37-84 | A taken corrective write leaves one replica, and changes nothing else if and only if some other manager owns the controller reference too. |
| `Guarantees.UndisturbedReadBack` | operator/controllers/replica_storage.go:71-100 | The read-back that follows a taken write at once ends in the remediated exit if and only if some other manager owns the controller reference too, and otherwise refuses the object, which has lost it. |
| `Guarantees.RemediationNeedsOthers` | operator/controllers/replica_storage.go:37-100 | A Deployment that the operator applied in full is remediated, with nobody interfering, if and only if the checked version is current and other managers own exactly its controller reference and its template. |
| `Witnesses.OnesOwnDeploymentStays` | operator/controllers/replica_storage.go:37-84 | Witness: for any accepted spec of several replicas, a run applies its Deployment in full and then, over a claim for one node, reaches the corrective write on a Deployment that the operator alone owns; it is not taken. |
| `Witnesses.ASharedTemplateIsNotEnough` | operator/controllers/replica_storage.go:71-100 | Witness: the same with another manager owning the template alone; the write is taken and the controller reference goes. |
| `Witnesses.ARemediationIsStored` | operator/controllers/replica_storage.go:37-100 | Witness: the same with another manager owning the controller reference and the template; a status that claims the remediation is stored. |
| `Witnesses.ALatePatchLands` | operator/controllers/vllminstance_controller.go:328-340 | Witness: a status patch sent after the resource was deleted and created again stores an observedGeneration on a resource that no pass was ever over. |
| `Guarantees.EveryDeploymentWriteIsAccounted` | operator/controllers/vllminstance_controller.go:59-321 | In every run, every stored Deployment version was written by the environment, by a full apply of what its pass rendered, or by a corrective write. |
| `Guarantees.RemediatedMeansVerified` | operator/controllers/replica_storage.go:41-100 | In every reachable state, a staged or stored StorageReady condition that claims a remediation points to a pass, over a snapshot of the generation it is stamped with, that read back a stored Deployment with the cached UID, this owner and exactly one replica. |
| `Guarantees.ReadBackDecides` | operator/controllers/replica_storage.go:85-100 | In the read-back step the remediated message is staged if and only if the read-back sees the cached UID, this owner and exactly one replica. |
| `Guarantees.HashMatchesRendering` | operator/controllers/vllminstance_controller.go:98-113 | From the moment a full apply is sent to the flush at the end of the pass, and whatever became of the call, the staged hash is that of the configuration the Deployment was rendered from, the late pvcReadOnly change included. |
| `Guarantees.AppliedMeansSent` | operator/controllers/vllminstance_controller.go:176-196 | Every pass past an accepted Deployment apply has one to speak of. |
| `Guarantees.PolicyHolds` | operator/controllers/security_179.go:29-39 | With the policy gate of the long-context reconciler, no run sends a Deployment with the engram-ipc profile from a namespace that is not allowed. |
| `Guarantees.PolicyRefusesExactly` | operator/controllers/security_179.go:29-39 | The policy refuses what was refused before and that profile outside the allowed namespaces, and nothing else. |
| `Monotone.ObservedGenerationNeverDecreases` | operator/controllers/longcontextinstance_controller.go:213-218 | If cache reads of the resource never go back and nobody deletes it, the stored observedGeneration never decreases, over any prefix of any run. |
| `Monotone.PatchLowersExactly` | operator/controllers/vllminstance_controller.go:328-340 | Without that: in any reachable state, a status patch lowers the stored value exactly when the pass staged its own generation, that differs from the value in its snapshot, and the server is already past it. |
| `Monotone.AStaleCacheLowersIt` | operator/controllers/vllminstance_controller.go:216-221 | Witness: for any two specs the controller accepts, a pass over the newer version stores 2 and then one over the older version stores 1, with nobody deleting anything. |
| `Monotone.RecreationLowersIt` | operator/controllers/vllminstance_controller.go:216-221 | Witness: with the resource deleted and created again the stored value also goes from 2 to 1, though the cache never goes back. |
| `Monotone.AlwaysStaged` | operator/controllers/vllminstance_controller.go:221 | In any run a pass only ever stages the generation it found or the one of its snapshot. |
| `Versions.OneSpecPerGeneration` | operator/controllers/vllminstance_controller.go:176-221 | In any run two versions of one resource with one generation have one spec. |
| `Versions.CurrentMeansApplied` | operator/controllers/vllminstance_controller.go:176-221 | So a resource that nobody deletes and whose observedGeneration is its generation has had that very spec applied: some pass sent it, and a Deployment version carried what was sent. |
| `Quiet.RoundFollowsPlan` | operator/controllers/vllminstance_controller.go:59-321 | A pass without failures or interference does exactly what a closed-form plan computed from the resource, the Deployment and the surroundings says: status, Deployment log and events. |
| `Outcomes.PresetIsMissing` | operator/controllers/vllminstance_controller.go:73-97 | What an undisturbed pass stores and announces when the preset is not there. |
| `Outcomes.ConfigurationDoesNotResolve` | operator/controllers/vllminstance_controller.go:98-103 | The same when the configuration does not resolve: the preset condition only. |
| `Outcomes.ConfigurationIsInvalid` | operator/controllers/vllminstance_controller.go:98-123 | The same when it does not validate: the hash and Ready, and a warning if Ready was not False. |
| `Outcomes.ClaimIsMissing` | operator/controllers/vllminstance_controller.go:125-140 | The same when the claim is not there: StorageReady and Ready, and a warning if StorageReady was not False. |
| `Outcomes.StorageIsUnsafe` | operator/controllers/vllminstance_controller.go:140-165 | The same exactly when several replicas are wanted and the claim offers neither ReadWriteMany nor ReadOnlyMany mounted read-only: one message in StorageReady and Ready, no event, and nothing else but the hash. |
| `Outcomes.DeploymentIsAnothers` | operator/controllers/vllminstance_controller.go:176-195 | The same when the Deployment has another controller: storage is ready, the apply failed, and no Deployment is written. |
| `Outcomes.ObjectsAreApplied` | operator/controllers/vllminstance_controller.go:176-292 | In every other case the Deployment is the resource's, with the replicas it asks for or one and the resolved configuration, and the status has both names, the hash, the generation, the ready count of a current Deployment status, the mirrored conditions and the endpoint. |
| `Outcomes.ReadyIsReported` | operator/controllers/vllminstance_controller.go:266-320 | And Ready is True if and only if replicas are wanted, the Deployment is available and the count is no less; otherwise it is False with the reason due, and an event is sent exactly when it becomes True. |
| `Outcomes.HowPassesEnd` | operator/controllers/vllminstance_controller.go:73-240 | Which answer ends a pass, and whether with an error, a requeue after 15 or 1 seconds, or for good. |
| `Outcomes.HowAppliedPassesEnd` | operator/controllers/vllminstance_controller.go:236-320 | Once both objects are applied: with a requeue in a second when the Deployment is not there yet, and otherwise for good if Ready is True and with a requeue in a minute if it is not. |
| `Fixpoint.TwoRoundsQuiesce` | operator/controllers/vllminstance_controller.go:144-165 | From any state, two undisturbed passes leave a state in which everything a further pass would write is already stored. |
| `Fixpoint.QuiescentRound` | operator/controllers/vllminstance_controller.go:323-386 | The exact effect of a pass on such a state: no event, no Deployment write, and no status change but the transition time of StorageReady on the unsafe exit. |
| `Fixpoint.FixpointByThirdRound` | operator/controllers/vllminstance_controller.go:323-386 | From any state, every undisturbed pass from the third on has that effect only. |
| `Fixpoint.UnsafeExitNeverRests` | operator/controllers/vllminstance_controller.go:140-165 | On the unsafe exit a pass leaves the status as it was if and only if it runs at the very time of the last one, because StorageReady is set True and then False. |
| `Fixpoint.UnsafeStatesAreReached` | operator/controllers/vllminstance_controller.go:140-165 | Any accepted spec over a claim that does not allow its replicas ends in such a state after two undisturbed passes. |
| `Fixpoint.RunawayIsCorrectedExactly` | operator/controllers/replica_storage.go:37-100 | On the unsafe exit undisturbed passes, however many, write one corrected Deployment version if the operator has an uncached reader, the Deployment is this resource's with several replicas, and no other manager owns the replicas nor the operator alone the template; otherwise they never write one. |
| `Cluster.SetConditionFinds` | operator/controllers/vllminstance_controller.go:371-386 | Setting a condition changes what is found for that type only, and moves the transition time only when the truth value flips. |
| `Cluster.SetConditionIsIdle` | operator/controllers/vllminstance_controller.go:357-386 | Setting a condition to what it already says changes nothing, whatever the clock. |
| `Cluster.SetConditionReplaces` | operator/controllers/vllminstance_controller.go:357-386 | The whole list after a condition is set: the first of its type is overwritten where it stands, or the new one goes to the end. |
| `Cluster.PatchFrame` | operator/controllers/vllminstance_controller.go:328-340 | The frame of a status patch, for all seven fields: one that is in the staged status as in the snapshot keeps the server's value, any other becomes what is staged, and nothing but the status changes. |
| `Cluster.ApplyFullMeans` | operator/controllers/vllminstance_controller.go:176-196 | A full apply is refused exactly over another controller; it leaves the three fields sent, raises the generation exactly when the replicas or the template change, and leaves another manager the fields it did not change. |
| `Storage.ValidateReplicaStorage` | operator/controllers/replica_storage.go:15-35 | Accepts exactly at most one replica, or ReadWriteMany, or ReadOnlyMany mounted read-only. |
| `Reconciler.Operate` | operator/controllers/vllminstance_controller.go:59-321 | However many passes the imperative code makes against whatever schedule, the state it is in is one the theorems about runs speak of. |
| `Reconciler.Reconciler.Reconcile` | operator/controllers/vllminstance_controller.go:59-321 | One pass of the imperative code works off any schedule exactly as the machine does: same calls with the same arguments, same writes, same flush, ending in the same state with the same schedule left. |
| `Reconciler.Reconciler.GetInstance` | operator/controllers/vllminstance_controller.go:62-71 | Starts a pass over some stored version and stages nothing yet, or leaves the reconciler idle. |
| `Reconciler.Reconciler.SetStatusCondition` | operator/controllers/vllminstance_controller.go:371-386 | Stages the condition stamped with the generation of the snapshot and reports whether the truth value flipped. |
| `Reconciler.Reconciler.PatchStatus` | operator/controllers/vllminstance_controller.go:328-340 | Flushes the staged status as a merge patch against the snapshot, whatever happens to the call. |
| `Reconciler.Reconciler.FetchPreset` | operator/controllers/vllminstance_controller.go:73-97 | The preset exits and the way on, as the machine has them. |
| `Reconciler.Reconciler.Configure` | operator/controllers/vllminstance_controller.go:98-123 | Resolve, late pvcReadOnly change, hash and validation, with their exits. |
| `Reconciler.Reconciler.CheckStorage` | operator/controllers/vllminstance_controller.go:125-140 | The claim probe and its exits. |
| `Reconciler.Reconciler.GateReplicas` | operator/controllers/vllminstance_controller.go:140-147 | The storage gate: apply, or go corrective. |
| `Reconciler.Reconciler.RefuseStorage` | operator/controllers/vllminstance_controller.go:147-165 | The unsafe-storage exit with each of its messages. |
| `Reconciler.Reconciler.RemediateUnsafeDeployment` | operator/controllers/replica_storage.go:41-100 | The result and the error of the corrective protocol are the machine's verdict on the four calls. |
| `Reconciler.Reconciler.ReadCachedRunaway` | operator/controllers/replica_storage.go:46-60 | Goes on exactly with a cached Deployment of this owner that has several replicas. |
| `Reconciler.Reconciler.ReadAuthoritativeRunaway` | operator/controllers/replica_storage.go:61-70 | Goes on exactly if the authoritative Deployment is the cached one, owned, and still has several replicas. |
| `Reconciler.Reconciler.WriteOneReplica` | operator/controllers/replica_storage.go:71-84 | Sends the write preconditioned on the resource version that was read; any failure, a conflict included, is the verdict. |
| `Reconciler.Reconciler.ReadBackOneReplica` | operator/controllers/replica_storage.go:85-100 | Succeeds exactly on the cached UID, this owner and one replica. |
| `Reconciler.Reconciler.SendDeployment` | operator/controllers/vllminstance_controller.go:176-195 | Applies what is rendered from the snapshot and reports how it ended. |
| `Reconciler.Reconciler.ApplyObjects` | operator/controllers/vllminstance_controller.go:176-196 | The Deployment apply and its exits; the name is staged only on success. |
| `Reconciler.Reconciler.ApplyItsService` | operator/controllers/vllminstance_controller.go:198-221 | The Service apply and its exits; observedGeneration is staged only after both applies. |
| `Reconciler.Reconciler.Observe` | operator/controllers/vllminstance_controller.go:223-251 | The re-reads of Service and Deployment and their exits. |
| `Reconciler.Reconciler.MirrorStatus` | operator/controllers/vllminstance_controller.go:252-264 | The ready count is taken over only from a current Deployment status; two conditions are mirrored when present. |
| `Reconciler.Reconciler.Report` | operator/controllers/vllminstance_controller.go:266-292 | The scaled-to-zero exit, or the endpoint for the service type. |
| `Reconciler.Reconciler.Conclude` | operator/controllers/vllminstance_controller.go:294-320 | The Ready condition, its reason, and the exit. |
| `Env.MergeEnv` | operator/internal/vllm/merge.go:303-318 | The loops with their index map compute the merge of the concatenated lists. |
| `Env.MergedIsMerge` | operator/internal/vllm/merge.go:301-318 | The merge lists the names in first-occurrence order, each once and with its last value. |
| `Env.MergeIsUnique` | operator/internal/vllm/merge.go:301-318 | Only one list has that property. |
| `Env.NestingDoesNotMatter` | operator/internal/vllm/merge.go:322-330 | Merging merged lists is merging the lists, on either side, and merging twice is merging once. |
| `Env.ContainerEnv` | operator/internal/vllm/deployment.go:297 | The container's environment, nested as the resolvers and BuildDeployment nest the calls, is the flat merge of defaults, preset and instance. |
| `Lora.ValidateLoraModules` | operator/internal/vllm/deployment.go:478-517 | Accepts exactly the empty value, or a list every trimmed entry of which is name=path with one '=', a name, and a path below /models; a refusal names the first bad entry. |
| `Lora.CheckEntry` | operator/internal/vllm/deployment.go:482-514 | One entry is accepted exactly when it has that form, the tests on the cleaned text notwithstanding, and a refusal gives the first reason that applies. |
| `Lora.TrimSpaceIs` | operator/internal/vllm/deployment.go:483 | Trimming takes all white space off both ends and nothing else. |
| `Lora.CleanedShape` | operator/internal/vllm/deployment.go:502-513 | The tests made on the cleaned text say the same as tests on the path's components. |
| `Lora.CleanKeepsTheMeaning` | operator/internal/vllm/deployment.go:502 | Lexical cleaning never changes where a path leads, from any directory. |
| `Lora.AcceptedStaysBelowModels` | operator/internal/vllm/deployment.go:477-517 | Every accepted path leads strictly below /models, and no prefix of it is left by a later component. |
| `Flags.FlagOfIsExact` | operator/internal/vllm/deployment.go:574-674 | A word is read as a flag exactly when it is that flag's spelling. |
| `Argv.BuildArgs` | operator/internal/vllm/deployment.go:574-674 | Prints exactly the segments of the configuration, in order. |
| `Argv.BuildLongContextFlagArgs` | operator/internal/vllm/flags_178.go:35-64 | Prints exactly the segments of the last eight flags. |
| `Argv.ReadUndoesPrint` | operator/internal/vllm/deployment.go:574-674 | A reader that knows only each flag's arity recovers any printed segments, whatever strings the values hold. |
| `Argv.ArgvRoundTrip` | operator/internal/vllm/deployment.go:574-674 | Reading the command line gives its segments back; each flag stands at most once, in order, with the setting of its own field. |
| `CommandLine.PrintedIsExpected` | operator/internal/vllm/deployment.go:574-697 | What is printed, written out word by word: every flag in its order, when it is there, and the connector's JSON with the size in bytes. |
| `Argv.ConfigIsRecovered` | operator/internal/vllm/deployment.go:574-674 | A reader ends up knowing exactly the configuration with what asks for nothing zeroed and what is switched off dropped. |
| `Argv.SameArgsSameConfig` | operator/internal/vllm/deployment.go:574-674 | Two configurations print the same command line if and only if those normal forms are equal. |
| `Argv.OneFlagChangesItsOwnWords` | operator/internal/vllm/deployment.go:574-674 | A change shown by one flag alone replaces that flag's words and moves nothing else. |
| `Argv.OneFieldChangesItsOwnWords` | operator/internal/vllm/deployment.go:574-674 | A change to one field changes the words of the flags that field can touch and moves nothing else: one flag for most fields, two for a flag with a negation, three for enableLora. |
| `Argv.KVSizeIsRead` | operator/internal/vllm/deployment.go:676-697 | The size in the nested JSON value reads back as the size that was written, or as none when it was not positive. |
| `SchemaDiff.DiffValue` | operator/internal/compatibility/compatibility.go:251-290 | The recursive procedure appends the differences, in sorted name order, under the path it was given. |
| `SchemaDiff.EmptyMeansEqual` | operator/internal/compatibility/compatibility.go:251-254 | No difference is reported exactly when the documents are equal. |
| `SchemaDiff.DiffIsAntichain` | operator/internal/compatibility/compatibility.go:251-290 | No position is reported twice, and none lies under another. |
| `SchemaDiff.SwapSwaps` | operator/internal/compatibility/compatibility.go:251-290 | Swapping the documents swaps the two sides of every difference and changes nothing else. |
| `SchemaDiff.ReplayGivesGenerated` | operator/internal/compatibility/compatibility.go:251-290 | Replaying the differences on the live document gives the generated one if and only if every null of the generated document at a reported place is in the live one too. |
| `SchemaDiff.ANewNullIsNotReplayed` | operator/internal/compatibility/compatibility.go:273-280 | A member that only the generated document has, with value null, is reported as nil on both sides and is not replayed. |
| `Differences.Differences` | operator/internal/compatibility/compatibility.go:177-192 | Lists every difference of the normal forms in the order of their path texts, and nothing if and only if the schemas differ only in what the normal form is meant to forget (given an encoding that tells sorted items apart). |
| `Differences.ChangedLeafPaths` | operator/internal/compatibility/compatibility.go:292-301 | The sorted texts of the differing paths, none exactly for equal documents, and none twice if every name in the documents is clear. |
| `Differences.TextTellsClearPathsApart` | operator/internal/compatibility/compatibility.go:273-290 | Two paths of clear names have one text if and only if they are one path. A name in brackets is clear if it holds no closing bracket, any other if it holds no opening one and no dot but before an exclamation mark. |
| `Differences.ClearExactly` | operator/internal/compatibility/compatibility.go:273-290 | For a name without brackets this is exact: it is clear if and only if it does not read like a longer path of such names. |
| `Differences.DottedNamesReadLikeTwo` | operator/internal/compatibility/compatibility.go:273-290 | Anywhere in a path, a name with a dot that is not put in brackets reads like the two names around the dot if and only if the second does not begin with an exclamation mark. |
| `Differences.BracketedRulesReadLikeTwo` | operator/internal/compatibility/compatibility.go:273-290 | A name in brackets that holds a closing bracket and a dot reads like a shorter one and a plain name. |
| `Normalize.NormalizeValue` | operator/internal/compatibility/compatibility.go:214-249 | The recursive procedure computes the normal form. |
| `Normalize.NormalForgetsOnlyThat` | operator/internal/compatibility/compatibility.go:214-249 | Two documents have the same normal form if and only if they differ only in description/title entries, the order of required and enum lists, and the order of rules or superseded rules of one text (a list of rules also matches the object that holds them by text). The encoding need only tell apart the items of each list it sorts. |
| `Normalize.RequiredAndEnumForgetOrder` | operator/internal/compatibility/compatibility.go:237-243 | Two lists under required or enum have one normal form if and only if their items have the same normal forms, each as often, in whatever order. |
| `Normalize.OtherListsKeepOrder` | operator/internal/compatibility/compatibility.go:237-240 | Two lists under any other key, but for rules, have one normal form if and only if their items have, one by one in order. |
| `Normalize.RulesBecomeMembers` | operator/internal/compatibility/compatibility.go:225-236 | A list of rules becomes an object that has the last item of each rule text, in normal form, and nothing else. |
| `Normalize.SettlesWhenRulesKept` | operator/internal/compatibility/compatibility.go:214-249 | Normalizing is idempotent if and only if no rule that is kept is itself called description or title. The encoding need only tell apart the items it sorts. |
| `Normalize.ARuleCalledDescriptionIsLost` | operator/internal/compatibility/compatibility.go:221-238 | Witness: a rule whose text is description is kept by one pass and lost by the next, under every encoding. |
| `Normalize.ThirdTimeIsSecondTime` | operator/internal/compatibility/compatibility.go:214-249 | Normalizing a second time may lose such a rule; a third time never changes anything. |
| `Normalize.APropertyCalledTitleIsForgotten` | operator/internal/compatibility/compatibility.go:216-223 | A property that is itself called title is dropped with its schema, so changes to it are not reported. |
| `Coerce.CoerceIntegers` | operator/internal/compatibility/compatibility.go:104-137 | The recursive procedure coerces the children at integer-typed positions and no others. |
| `Coerce.MemberIsCoerced` | operator/internal/compatibility/compatibility.go:104-137 | What becomes of one member: by the schema of its property, or the one for additional properties, a whole number within int64 becomes an int64 where the type is integer. |
| `Coerce.SettledIsFixed` | operator/internal/compatibility/compatibility.go:78-90 | Cloning and coercing again gives a document back if and only if its int64s stand where the schema says integer and are float64s too, and no exact float stands there. |
| `Coerce.CoercionSurvivesCloning` | operator/internal/compatibility/compatibility.go:78-90 | For a decoded document, coerce(clone(coerce(x))) = coerce(x). |
| `Coerce.CoercedIsSettled` | operator/internal/compatibility/compatibility.go:104-144 | Coercion puts int64s at integer-typed positions only, each one a float64 too, and leaves no exact float there; at all other positions of a decoded document there is none. |
| `Coerce.CoerceTwice` | operator/internal/compatibility/compatibility.go:104-137 | Coercion is idempotent. |
| `Coerce.CoercionKeepsValues` | operator/internal/compatibility/compatibility.go:104-137 | Coercion changes no value, only how a number is held. |
| `Coerce.NearestIsNearest` | operator/internal/compatibility/compatibility.go:139-156 | Rounding an integer to a float64 yields a nearest one: no number a float64 holds is closer. |
| `Coerce.NearestIsWhole` | operator/internal/compatibility/compatibility.go:146-156 | What rounding yields is a number a float64 holds, so rounding it again changes nothing. |
| `Coerce.WholeIsSignificand` | operator/internal/compatibility/compatibility.go:139-156 | The integers a float64 holds are those that are a significand below 2^53 in size times a power of two. |
| `Coerce.CloneIsDecoded` | operator/internal/compatibility/compatibility.go:146-156 | Whatever int64s a document holds, as long as its floats are float64s a copy of it is a document as decoding leaves one. |
| `Coerce.Admit` | operator/internal/compatibility/compatibility.go:74-102 | For any object whose floats are float64s, int64s in it or not, and any pruning that only removes members, the paths reported as defaulted are exactly those at which defaulting changed the document, and none when it changed nothing. |
| `Coerce.LargeIntegersMove` | operator/internal/compatibility/compatibility.go:146-156 | An int64 just above 2^53 is another number after one copy. |
| `Nodes.NodeInternalIP` | operator/controllers/vllminstance_controller.go:436-447 | The first internal address, or empty. |
| `Nodes.FirstIPIs` | operator/controllers/vllminstance_controller.go:436-447 | It is the address that no internal one comes before, and empty if there is none. |
| `Nodes.InternalIPs` | operator/controllers/node_predicate.go:70-81 | The internal addresses in order. |
| `Nodes.InternalAreWhere` | operator/controllers/node_predicate.go:70-81 | They are exactly the addresses of that type, each one's own text, in the order they are listed. |
| `Nodes.SameInternalIPs` | operator/controllers/node_predicate.go:47-68 | True exactly when the two bags of internal addresses are equal. |
| `Nodes.NodeReadyStatus` | operator/controllers/node_predicate.go:83-96 | The status of the first Ready condition, or Unknown. |
| `Nodes.ReadyOfFirst` | operator/controllers/node_predicate.go:83-96 | The status is that of the first Ready condition wherever it stands, and Unknown without one. |
| `Nodes.NodeRelevantUpdate` | operator/controllers/node_predicate.go:9-34 | True exactly when the bags of addresses or the Ready status differ. |
| `Nodes.DroppedKeepsTheAddress` | operator/controllers/node_predicate.go:18-68 | After a dropped update the address chosen before is still an internal address of the Node, and still the chosen one if all are one address. |
| `Nodes.DroppedNeverMovesIt` | operator/controllers/node_predicate.go:18-68 | No dropped update moves the chosen address if and only if the Node's internal addresses are all one address. |
| `Endpoints.ReadyNodeNames` | operator/controllers/vllminstance_controller.go:412-434 | The strictly increasing list of exactly the nodes that some endpoint names as Ready. |
| `Order.FirstDifferenceDecides` | operator/controllers/vllminstance_controller.go:431-433 | The order of names: where two first differ, the smaller character comes first. |
| `Order.PrefixIsLess` | operator/controllers/vllminstance_controller.go:431-433 | And a proper prefix comes before what it begins. |
| `Endpoints.ResolveEndpoint` | operator/controllers/vllminstance_controller.go:398-410 | The URL of the least Ready node that has an internal address, or nothing if none has. |
| `Endpoints.EndpointIsDetermined` | operator/controllers/vllminstance_controller.go:387-410 | The URL depends only on which nodes are Ready and on their addresses. |
| `Endpoints.ReadyNodesIgnoreOrder` | operator/controllers/vllminstance_controller.go:408-434 | Reordering slices or endpoints, or moving endpoints between slices, changes no ready node. |
| `Endpoints.DroppedUpdatesKeepTheEndpoint` | operator/controllers/node_predicate.go:18-34 | No dropped update of a Node moves the URL if and only if the Node is not ready, or a ready node with an address comes before it, or each of its internal addresses gives the URL there is (an empty one giving that of the other nodes). |
| `Endpoints.DroppedUpdateKeepsTheEndpoint` | operator/controllers/node_predicate.go:18-34 | A dropped update of a Node with one internal address leaves the URL as it was. |
| `Hoist.AnthropicText` | patches/system_hoist.py:24-45 | The text of a content value. |
| `Hoist.TextOfBlocks` | patches/system_hoist.py:34-44 | The text of a list of blocks is the words of its bare strings and of its dicts with a text that is not empty, in order and none left out, with a blank line between neighbours. |
| `Hoist.HoistSystemMessages` | patches/system_hoist.py:48-84 | The loops compute the hoisted request. |
| `Hoist.HoistedSystem` | patches/system_hoist.py:48-84 | A request without system messages is left alone; of any other the new system text is the old one and the texts of exactly its system messages, in order, empty ones left out, joined by blank lines. |
| `Hoist.NoWordsAreLost` | patches/system_hoist.py:61-83 | The text of every system message stands in the new system text. |
| `Hoist.KeptAreTheOthers` | patches/system_hoist.py:61-67 | The kept messages are exactly the others, in their order, and every message is kept or hoisted. |
| `Hoist.JoinInTwo` | patches/system_hoist.py:72-83 | Dropping empties and joining may be done to a first group of parts before the rest. |
| `Hoist.HoistingInBatches` | patches/system_hoist.py:48-84 | Hoisting, adding messages and hoisting again gives the same request as adding them first and hoisting once. |
| `Hoist.HoistingTwice` | patches/system_hoist.py:48-84 | Hoisting twice is hoisting once, and no system message is left. |
| `TextPatch.ApplyPatch` | patches/apply_patch.py:61-94 | Already patched, no class anchor, no docstring anchor, or the original text with exactly two pieces inserted at the places its own first anchors have, whatever the text of the validator. |
| `TextPatch.PatchMeans` | patches/apply_patch.py:61-94 | The same with every text written out: the import before the first class anchor, the validator on its own line after the first docstring. |
| `TextPatch.OccurrencesMove` | patches/apply_patch.py:84-91 | Inserting the import neither breaks nor makes an occurrence of the second anchor. |
| `TextPatch.TwoReplacements` | patches/apply_patch.py:84-91 | The second replacement finds its anchor where the original text had it. |
| `TextPatch.PatchIsReversible` | patches/apply_patch.py:61-94 | The original text can be computed from the patched text alone: the first sentinel shows where the validator went in, and then the first class anchor where the import did. |
| `TextPatch.PatchLosesNothing` | patches/apply_patch.py:61-94 | No two texts are patched to the same text. |
| `TextPatch.PatchIsIdempotent` | patches/apply_patch.py:61-66 | A patched file is left alone by the next run. |
| `Encoding.UnmarshalUndoesMarshal` | operator/internal/vllm/merge.go:66-132 | An encoding that omits zero values decodes to what was encoded, for every table of distinctly named fields; nil, false and true pointers stay distinct. |
| `Encoding.EncodingIsInjective` | operator/internal/vllm/merge.go:75-145 | Resolved configurations with equal encodings are equal. |
| `Encoding.WrittenUnlessZero` | operator/internal/vllm/merge.go:75-132 | A field is in the encoding, with its own value, unless it may be left out and is zero. |
| `Encoding.EffectiveConfig.ResolveSecurityProfile` | operator/internal/vllm/security_179.go:10-24 | Changes the profile alone, to the override's, else the preset's, with default read as none. |
| `Encoding.DefaultProfileIsAbsence` | operator/internal/vllm/security_179.go:10-24 | An explicit default in the preset encodes like absence; an override naming the default does so if and only if the preset has no profile of its own. |

## Left out

- Manager start-up, leader election, watches and their mapping functions, metrics, event delivery: wiring over libraries.
- The API server beyond what the two objects need: Get, list, apply and status patch are small contracts.
- Field ownership is kept for the controller reference, the replicas and the template of a Deployment only; the selector goes the way of the template.
- Of what a server validates, a second controller reference and a missing template are modelled; beyond that it may refuse any write.
- The Service object: its apply succeeds or fails, and a re-read yields a node port or a ready URL; BuildService and resolveServiceEndpoint are one-branch facts.
- Inside the reconcile machine the endpoint lookup is one answer; EndpointSlice and Node reads are modelled in `Endpoints`.
- The result a pass returns to its work queue is checked in `Reconciler` against the machine's exit but not kept in the history.
- Resolving, validating and hashing inside the machine are arbitrary functions; a failure of HashConfig in the late pvcReadOnly change is not modelled, since encoding that struct does not fail.
- Field-by-field overriding in Resolve and ResolveLongContext: one-branch facts about each field.
- ValidateEffectiveConfig beyond adapter lists and the namespace policy: quantities, patterns and JSON syntax belong to libraries.
- replicas is a natural number, as the resource's schema demands; other integers are unbounded except in coercion.
- Two resources of different kinds that share a name and would contend for one Deployment.
- Convergence after a claim is replaced: claims are not watched and the unsafe exit does not requeue.
- SHA-256: facts are about what is hashed. The encoding stops at the sequence of field names and values, not at its text.
- CoerceIntegers: works on values, so the update in place and the sharing of sub-documents are not captured.
- NaN and infinities, which JSON cannot express; reals stand for float64 values, and the sign of zero is not kept.
- DiffValue: keeps structural paths, which `Differences` turns into the text that the code builds on the way; paths of equal text keep no particular order.
- OpenAPI and CEL validation, pruning and defaulting themselves: `Coerce.Admit` takes pruning as any function that only removes members, and defaulting as any function.
- The compact encoding by which lists are sorted is any function; theorems that need it ask that it tell apart the items of each list that is sorted, which `Normalize.AnEncodingThatTells` shows can be met.
- File access and exit codes of apply_patch.py, and the text of the validator it inserts, which may be any text that holds the sentinel; a content block's text that is not a string.
- Names compare character by character, which is byte order for valid UTF-8.
- Probes, security contexts, volumes other than the /models mount, image and label handling in BuildDeployment.
