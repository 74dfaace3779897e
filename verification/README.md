# Nephe: policies to cloud security groups, modelled and proved in Dafny

Nephe takes Antrea NetworkPolicies and member groups, compiles them into security groups of AWS and Azure, and keeps
the two in step through an asynchronous controller that retries. This project models the parts of it whose correctness
is hardest to see from the code, and proves what they promise for all inputs and all runs.
`dafny verify dfyconfig.toml` checks everything.

## What is modelled

* **The reconciler as a step machine** (`GroupMachine`, `GroupInvariants`, `GroupProgress`, `GroupMembers`,
  `EventOutcomes`, `Reconciler`, `MemberHistory`, `RetryBudget`, `Witnesses`, `PendingGroup`, `Keys`). Security-group objects live in a heap of references, because identity matters:
  the indexers, the retry queue and requests in flight hold pointers, and two objects with one id can be alive at once.
  The cloud answers any request in flight, in any order, with success or failure. Class `NetworkPolicyReconciler` has the
  event handlers with their loops; each operation is proved equal to a function on states, and each handler to keep the
  invariant in every step and to do what its event asks for (`EventOutcomes.Handled`), leaving alone every group the
  event does not concern. `Run` covers every sequence of events; over it the policies are those the events announce, and
  the members of a group's security groups are the machines its events give it. History is recorded in ghost state: every request with
  what was known at that moment, every run of a queued item, the ids of address groups the cloud has confirmed at least
  once (perhaps for an object that has been deleted since), whether some object ever had two Creates in flight at once,
  the objects released from their indexers, and for each policy the groups whose addresses its rules still have although
  their IP-block group is gone.
* **The rule compiler** (`Cidr`, `RuleCompiler`, `CompiledReferences`): policy rules to cloud rules to EC2 permissions,
  by the set of flows they permit, down to IPv4 prefix arithmetic (section 3.1 of RFC 4632); and, together with the
  reconciler, that rules compiled at different times in the past permit what the policies mean now.
* **AWS membership** (`AwsMembership`, `GroupNames`): the groups on every network interface, those of others included,
  over runs of updates.
* **The shared Azure security group** (`AzureNsg`): what its rules admit, and their numbering, over runs of updates.
* **EC2 filters** (`Ec2Filters`): selectors to instance queries.
* **Trackers and indexers** (`Indexers`, `NpTracker`): real heap objects changed in place under an index, over any
  history of a store, and the status report computed from them.
* **The account poller** (`AccountPoller`): the three-way comparison of inventory and stored objects.

## What turned out false, and where exactly

* *Overlapping Creates.* Three invariants hold in every run in which no object has two Creates in flight at once: rules
  that are ready, and so every rule update issued, refer only to groups in state Created; no indexed delete-pending group
  is left without a policy naming it; and compiled rules are about exactly the address groups there are. Without that
  condition all three fail, since a synchronization can add a group again before the cloud has answered
  (`pkg/controllers/cloud/networkpolicy_sync.go:54-56`): at the end of the runs of `Witnesses.OverlapLeavesUncreated`,
  `Witnesses.OverlapLeavesOrphan` and `Witnesses.OverlapLeavesStale`. What holds without any condition is that the cloud
  has confirmed every referenced group's id at least once, possibly in an earlier incarnation.
* *Addresses of deleted groups.* An IP-block group goes as soon as it is deleted, whoever names it
  (`pkg/controllers/cloud/networkpolicy.go:668-670`). `Witnesses.DeletionForsakes` is a run after which ready rules have
  an address no group has. Without overlapping Creates, the addresses in a policy's compiled rules are out of date exactly
  if the IP-block group of some group they have addresses of has been deleted since they were compiled, and all other
  addresses are right (`GroupInvariants.RulesMean`); `GroupInvariants.EraseExact` says which deletions do that to a
  policy.
* *Retries of address groups.* A retried ClearMembers or UpdateRules asserts that its group is an appliedTo group
  (`pkg/controllers/cloud/networkpolicy_pendingitem.go:263-265`). `Witnesses.ClearingPanics` is a run that retries the
  ClearMembers of an address group; over any run the program panics exactly if it does that, and UpdateRules is never
  armed on an address group (`GroupInvariants.HistoryMeans`, `GroupInvariants.RulesArmed`).
* *Stranded retries.* While a retry is armed nothing is sent for its group
  (`pkg/controllers/cloud/networkpolicy.go:588-590`), and once it has run it waits for an answer reported as the operation
  it retries. But it may have asked nothing, or asked for something reported under another name. `Witnesses.RetryStrands`
  is a run, settled at every event, that ends with a member the cloud is never told of. `RetryBudget.RunStrands` says
  when the run of an item strands it: exactly if nothing outstanding for the group and nothing the run asks for can be
  reported as the operation, and the item stays queued with budget or nothing at all is outstanding.
  `RetryBudget.StrandedExact` says that a queued waiting item is stranded exactly if no failure still to come can wake
  it. And over every run without overlapping Creates a stranded retry stays stranded, and nothing is requested for its
  security group, until that is taken out of its indexer to be deleted; after that nothing but Deletes is
  (`Reconciler.NetworkPolicyReconciler.Run`).
* *Members over time.* The members of a group's security groups are, VPC by VPC, the machines its events give it, over
  every run from the start (`MemberHistory.MembersTally`), provided that members can be looked up, that no machine is a
  member under two keys, that no event adds and removes the same member, and that while the deletion of the group is
  pending nothing is filed for it that is to stay and nothing at all while its Deletes are in flight. A lookup that
  fails makes the event wait. `MemberHistory.MachinesNextExact` is the exact condition on shared machines, and
  `GroupMembers.AfterExact` that on members that come and go at once. The last condition fails when a synchronization finds a security group only the cloud has
  of a group that exists: from then on the deletion of the group counts as pending (`MemberHistory.ForeignPends`), its
  events reach none of its security groups until a Delete of it is answered (`MemberHistory.DeletionPends`), and
  meanwhile these are right exactly if the events change no machine (`MemberHistory.HaltedExact`).
* *Telling the cloud of members.* A removed member that no longer exists is pruned by name, without a word to the cloud
  (`pkg/controllers/cloud/networkpolicy_controller.go:186-197`). `GroupMembers.HeardExact` says when the cloud hears of
  a change: exactly if the event also says something about the members left, or none was pruned;
  `GroupMembers.PrunedUnheard` is an input of which it does not.
* *Azure groups are found by name*, in lower case and whatever their VPC. Translated rules permit what the compiled ones
  do exactly if names tell the groups apart (`AzureNsg.AsgNamesExact`).
* *Services the compiler cannot encode.* A port 0 and a protocol without number are compiled to "any".
  `RuleCompiler.ServiceExact` shows a service keeps its meaning exactly if it has neither.
* *Rules without peers* would be opened to everyone by the AWS converter; `RuleCompiler.PermissionExact` shows the
  conversion is exact if and only if there are peers, and compiled rules always have some.
* *Azure priorities.* Numbering is right exactly up to 3996 ordinary rules per direction (`AzureNsg.CapacityIsExact`).
* *Blank machine criteria in selectors* are ignored, and selectors left with nothing select everything;
  `Ec2Filters.FaithfulExact` says for exactly which lists of selectors the queries still find what is selected.
* *In-place changes of indexed objects* keep an index right exactly if they keep the index values
  (`Indexers.Indexer.ChangeInPlace`).
* *Unique group names* are read back exactly if an appliedTo name does not start with `mm_`
  (`Keys.UniqueNameRoundTrip`).
* *Status comparison* takes one address listed twice for two addresses, and sees only the last of two interfaces with
  one name; a status is compared correctly with every other exactly if it has neither (`AccountPoller.AgreeExact`).
* *Polling* converges except for names taken by objects of another owner, whose creation it tries again every time
  (`AccountPoller.Poller.PollTwice`).

Where code and documentation differ the model follows the code: an empty but present list of services permits
nothing, a rule without peers yields no cloud rule, and exceptions of IP blocks are not looked at.

## Model

| member | source | states |
|---|---|---|
| Reconciler.Execute | pkg/controllers/cloud/networkpolicy_controller.go:411-474 | from its start, after any sequence of events, the reconciler is in a settled state, every event on the way has done what it asks for, and the policies are exactly those of a fold over the policy events |
| Reconciler.NetworkPolicyReconciler.Run | pkg/controllers/cloud/networkpolicy_controller.go:411-473 | over any run the invariant holds at every event boundary, every event does what it asks for and leaves other groups alone, and the policies are those of a fold over the policy events; group states only move from Init to Created to Garbage, and history only grows; unless Creates overlapped, a retry that is stranded stays stranded and nothing is requested for its object until it is released, and nothing but Deletes after |
| Reconciler.NetworkPolicyReconciler.Step | pkg/controllers/cloud/networkpolicy_controller.go:418-473 | one turn of the event loop leads from settled to settled state and does what the event asks for: a policy is stored or gone and all it bears upon told; a member event is kept for later, carried out or queued; an answered request is no longer in flight and its outcome taken up; every queued item has its turn; a synchronization catches up; groups the event does not concern keep members, buffered events and place |
| EventOutcomes.WrittenLast | pkg/controllers/cloud/networkpolicy_controller.go:335-383 | after any events, a policy exists exactly if the last event about it is no deletion, and has the rules and appliedTo groups of that event |
| EventOutcomes.WrittenBefore | pkg/controllers/cloud/networkpolicy_controller.go:335-383 | a policy no event is about stays as it was |
| MemberHistory.MembersTally | pkg/controllers/cloud/networkpolicy_controller.go:126-292 | over any run, under the stated conditions on lookups, keys and pending deletions, a group's security groups have, VPC by VPC, exactly the machines of the members its well-formed history gives it; while its deletion is pending those machines are what is kept for later |
| MemberHistory.StartTallies | pkg/controllers/cloud/networkpolicy_controller.go:411-418 | a reconciler just started meets the conditions that theorem has on the first state, for every group |
| MemberHistory.TallyStep | pkg/controllers/cloud/networkpolicy_controller.go:418-473 | the same for any one event, the group's own or not |
| MemberHistory.TallyDelete | pkg/controllers/cloud/networkpolicy_pendingitem.go:89-105 | the answer to the last Delete of a group replays what was kept for it, and its machines are back in its security groups |
| MemberHistory.MachinesNextExact | pkg/controllers/cloud/networkpolicy_controller.go:216-257 | machines leave and join as members do exactly if none that leaves stays under another key |
| MemberHistory.DeletionPends | pkg/controllers/cloud/networkpolicy_controller.go:150-154 | as long as no Delete of a group whose deletion is pending is answered, no event of it reaches its security groups, whatever it adds or removes |
| MemberHistory.HaltedExact | pkg/controllers/cloud/networkpolicy_controller.go:150-154 | meanwhile its security groups have the members they should exactly if its events change no machines |
| MemberHistory.ForeignPends | pkg/controllers/cloud/networkpolicy_sync.go:219-224 | a synchronization that finds a group only the cloud has makes the deletion of its group pending, whoever names it |
| MemberHistory.DeferredGone | pkg/controllers/cloud/networkpolicy.go:543-550 | over any run without overlapping Creates, an object whose deletion waited for policies is out of the index once none names its group |
| GroupMembers.AfterExact | pkg/controllers/cloud/networkpolicy_controller.go:216-257 | the members after an event are those before without the leaving and with the joining ones exactly if the two are disjoint, or the object was filed with members other than the joining ones |
| GroupMembers.HeardExact | pkg/controllers/cloud/networkpolicy_controller.go:186-257 | the cloud is told of every change of a created object with no retry armed exactly if the event says something about the members left after pruning, or none was pruned |
| GroupMembers.PrunedUnheard | pkg/controllers/cloud/networkpolicy_controller.go:186-197 | a removed member that no longer exists, of whose pruning the cloud is not told |
| GroupMembers.UpdateChanges | pkg/controllers/cloud/networkpolicy.go:576-603 | an update takes exactly the given members out and puts exactly the given ones in, and a request is sent exactly if the object is created with no retry armed |
| GroupProgress.DeleteDismisses | pkg/controllers/cloud/networkpolicy.go:551-572 | the deletion of a group no policy names takes it out of the index, and a Delete is sent if it was created or its Create was in flight |
| GroupProgress.DeleteWithdraws | pkg/controllers/cloud/networkpolicy.go:522-573 | a deletion goes through at once if no policy names the group; otherwise the object stays as it was, marked, and the group expects its deletion |
| GroupProgress.RolloutFollows | pkg/controllers/cloud/networkpolicy.go:915-966 | an acknowledged Create is followed by the rules once all policies are ready, acknowledged rules by the members, a clearing by the rules there are again |
| GroupProgress.RolloutCompletes | pkg/controllers/cloud/networkpolicy.go:915-966 | a group whose requests all succeed ends up created, with its rules and then its members in the cloud |
| GroupProgress.IdleSends | pkg/controllers/cloud/networkpolicy_pendingitem.go:240-252 | a retry that has succeeded sends an appliedTo group its rules, and forgets that the cloud has its members; an address group is sent its members |
| GroupProgress.SyncedCatchesUp | pkg/controllers/cloud/networkpolicy_sync.go:28-59 | what the cloud has counts as created, and is sent its members if they differ; what it lacks is added again; only groups with members and no retry armed are sent anything |
| GroupProgress.SyncedOutcome | pkg/controllers/cloud/networkpolicy_sync.go:83-196 | an appliedTo group the cloud has, once its policies are ready, knows what the cloud has and is sent the rules it lacks |
| EventOutcomes.ToldFrees | pkg/controllers/cloud/networkpolicy.go:1150-1209 | once all groups a policy names no more have been told, those kept only for it have gone, with a Delete sent where the cloud was ever asked for them |
| GroupInvariants.SettledMeans | pkg/controllers/cloud/networkpolicy.go:522-625 | spells out the invariant of groups and policies: Delete counts exact, with the entry present whenever one is in flight; garbage out of the index with nothing armed but Delete; unless Creates overlapped, delete-pending groups all named by a policy, and rules that are ready refer to indexed groups in state Created |
| GroupInvariants.HistoryMeans | pkg/controllers/cloud/networkpolicy.go:522-625 | spells out the history of any run: every request lawful when issued; the first Delete of an object found no policy naming its group, and garbage has had one; the program panicked exactly if a ClearMembers of an address group was retried; queued items are within budget |
| GroupInvariants.RulesMean | pkg/controllers/cloud/networkpolicy.go:1284-1305 | between events, unless Creates overlapped, a policy's compiled rules are about exactly the address groups there are; their addresses are out of date exactly if an IP-block group they have addresses of was deleted since, and otherwise exactly those there are, group by group |
| GroupInvariants.EraseExact | pkg/controllers/cloud/networkpolicy.go:668-670 | deleting an IP-block group leaves a policy whose addresses were right with the addresses it is owed exactly if its compiled rules have none from it |
| GroupInvariants.EraseKeeps | pkg/controllers/cloud/networkpolicy.go:668-670 | deleting an IP-block group keeps the invariant, and leaves every policy right about the addresses it has not lost |
| GroupInvariants.SetIpsGrows | pkg/controllers/cloud/networkpolicy.go:675-679 | new addresses of a group keep the invariant, and make at most policies naming it stale |
| GroupInvariants.CondemnKeeps | pkg/controllers/cloud/networkpolicy.go:551-572 | leaving the index as garbage and the first Delete are one move that keeps the invariant |
| GroupInvariants.RulesArmed | pkg/controllers/cloud/networkpolicy_pendingitem.go:263-265 | in every reachable state a retry of UpdateRules is armed on appliedTo groups only |
| GroupInvariants.RunAndChargeKeeps | pkg/controllers/cloud/networkpolicy_pendingitem.go:239-274 | a run of a queued item keeps the invariant: it is numbered, charged, and recorded as a panic exactly if it retries the ClearMembers of an address group |
| GroupInvariants.RuleRefsSound | pkg/controllers/cloud/networkpolicy.go:840-886 | the ids of groups a rule update refers to have been confirmed by the cloud at least once, and they are indexed and Created unless Creates overlapped |
| GroupInvariants.ReadySound | pkg/controllers/cloud/networkpolicy.go:1214-1255 | rulesReady is only set when everything the rules refer to is created |
| GroupInvariants.ComputedSound | pkg/controllers/cloud/networkpolicy.go:1284-1305 | freshly computed rules refer to indexed cloud groups the policy names, confirmed ones if ready |
| GroupInvariants.ComputedFresh | pkg/controllers/cloud/networkpolicy.go:1284-1305 | computing a policy's rules makes them refer to the groups there are, and changes no other policy |
| GroupInvariants.GrownKept | pkg/controllers/cloud/networkpolicy_controller.go:284-290 | security groups that appear make only policies naming their group stale, so recomputing those leaves none stale |
| GroupInvariants.UnfileStale | pkg/controllers/cloud/networkpolicy.go:543-572 | a group leaves the index only when no policy names it, so no compiled rules become stale |
| GroupInvariants.AddImplKeeps | pkg/controllers/cloud/networkpolicy.go:495-519 | adding a group keeps the invariant, and makes at most policies naming it stale |
| GroupInvariants.DeleteImplKeeps | pkg/controllers/cloud/networkpolicy.go:522-573 | deleting a group keeps the invariant in all its branches: deferred, dropped, issued, issued again |
| GroupInvariants.UpdateImplKeeps | pkg/controllers/cloud/networkpolicy.go:576-603 | a membership update keeps the invariant |
| GroupInvariants.UpdateRulesKeeps | pkg/controllers/cloud/networkpolicy.go:840-886 | a rule update keeps the invariant |
| GroupInvariants.RunItemKeeps | pkg/controllers/cloud/networkpolicy_pendingitem.go:239-274 | running a retry that does not panic keeps the invariant, the object's state and its place in the index or out of it |
| GroupInvariants.UpdateQueueKeeps | pkg/controllers/cloud/networkpolicy_pendingitem.go:81-107 | an update of a queued item keeps the invariant even if the queued object is not the one answered |
| GroupInvariants.TickItemKeeps | pkg/controllers/cloud/networkpolicy_pendingitem.go:125-143 | a tick for a queued item keeps the invariant |
| GroupInvariants.SettleRetryKeeps | pkg/controllers/cloud/networkpolicy.go:606-625 | arming, updating and running a retry after an answer keeps the invariant |
| GroupInvariants.CountDownKeeps | pkg/controllers/cloud/networkpolicy.go:622-624 | taking up the answer to a Delete keeps the count equal to the Deletes in flight |
| GroupInvariants.DeleteExpected | pkg/controllers/cloud/networkpolicy.go:532-572 | a Delete in flight always has its pending-delete entry with a positive count |
| GroupInvariants.AnsweredIdle | pkg/controllers/cloud/networkpolicy.go:495-519 | a group not yet created has nothing else in flight when its Create is answered |
| GroupInvariants.NewOrphans | pkg/controllers/cloud/networkpolicy.go:1119-1147 | a change of one policy can only orphan groups it used to name and names no more |
| GroupInvariants.RulesChanged | pkg/controllers/cloud/networkpolicy.go:147-174 | after new rules, all orphans are among the address groups that lost occurrences |
| GroupInvariants.AppliedToChanged | pkg/controllers/cloud/networkpolicy.go:127-144 | after new appliedTo groups, all further orphans are among those that lost occurrences |
| Witnesses.OverlapLeavesOrphan | pkg/controllers/cloud/networkpolicy_sync.go:54-56 | a run of eight events, settled up to the overlap, with two Creates in flight that ends with an indexed delete-pending group no policy names |
| Witnesses.OverlapLeavesStale | pkg/controllers/cloud/networkpolicy_sync.go:54-56 | a run of seven events with two Creates in flight that ends with a known group the compiled rules of a policy naming it lack |
| Witnesses.OverlapLeavesUncreated | pkg/controllers/cloud/networkpolicy_sync.go:54-56 | a run of eleven events with two Creates in flight that ends with ready rules about a group that is not created |
| Witnesses.RetryStrands | pkg/controllers/cloud/networkpolicy_pendingitem.go:254-274 | a run, settled at every event, after which a retry is stranded with nothing in flight, and of a member that joins then the cloud is not told |
| Witnesses.ClearingPanics | pkg/controllers/cloud/networkpolicy_pendingitem.go:263-265 | a run, settled at every event, after which the next tick retries the ClearMembers of an address group and panics |
| Witnesses.DeletionForsakes | pkg/controllers/cloud/networkpolicy.go:668-670 | a run, settled at every event, after which ready rules have an address no group has |
| PolicyTypes.DiffGroups | pkg/controllers/cloud/networkpolicy.go:127-144 | removed and added are exactly the names with more or fewer occurrences before than after |
| PolicyTypes.ListedIsNamed | pkg/controllers/cloud/networkpolicy_controller.go:522-530 | the occurrences listed for deletion and difference are exactly the values of the index by address group |
| Reconciler.NetworkPolicyReconciler.AddImpl | pkg/controllers/cloud/networkpolicy.go:495-519 | the new state is that of the specification, and the step keeps the invariant |
| Reconciler.NetworkPolicyReconciler.DeleteImpl | pkg/controllers/cloud/networkpolicy.go:522-573 | likewise for deletion, with the pending-delete entry and its count |
| Reconciler.NetworkPolicyReconciler.UpdateImpl | pkg/controllers/cloud/networkpolicy.go:576-603 | likewise for membership updates |
| Reconciler.NetworkPolicyReconciler.UpdateRules | pkg/controllers/cloud/networkpolicy.go:840-886 | likewise for rule updates; the loop over policies collects exactly the groups they refer to, or gives up if one is not ready |
| Reconciler.NetworkPolicyReconciler.RunPendingItem | pkg/controllers/cloud/networkpolicy_pendingitem.go:239-274 | likewise for a retry: disarmed, issued again, armed again; it reports a panic exactly if it retries ClearMembers or UpdateRules of a group that is no appliedTo group |
| Reconciler.NetworkPolicyReconciler.UpdateRetryQueue | pkg/controllers/cloud/networkpolicy_pendingitem.go:81-107 | likewise for an update of the queue |
| Reconciler.NetworkPolicyReconciler.TickItem | pkg/controllers/cloud/networkpolicy_pendingitem.go:125-143 | likewise for a tick, which records the run, its number and whether it panics |
| Reconciler.NetworkPolicyReconciler.SettleRetry | pkg/controllers/cloud/networkpolicy.go:606-621 | likewise for the retry part of an answer; no failure goes unqueued except a stale one of a group being deleted; it reports exactly whether the queue will try again |
| Reconciler.NetworkPolicyReconciler.CheckReady | pkg/controllers/cloud/networkpolicy.go:1226-1251 | true exactly if the group is known and all its security groups are ready |
| Reconciler.NetworkPolicyReconciler.ComputeRulesReady | pkg/controllers/cloud/networkpolicy.go:1214-1255 | rulesReady becomes true exactly if all address groups named, on either side, are known and ready; nothing else changes |
| Reconciler.NetworkPolicyReconciler.ResolveRules | pkg/controllers/cloud/networkpolicy.go:1289-1302 | fails exactly if a remote group is unknown, else yields exactly the cloud groups and the addresses of all remote address groups |
| Reconciler.NetworkPolicyReconciler.ComputeRules | pkg/controllers/cloud/networkpolicy.go:1284-1305 | the policy becomes the computed one, and the step keeps the invariant |
| Reconciler.NetworkPolicyReconciler.NotifyPolicyChange | pkg/controllers/cloud/networkpolicy.go:771-786 | the group is no orphan afterwards; an appliedTo group has been sent what updateRules owes it; other objects are untouched |
| Reconciler.NetworkPolicyReconciler.NotifyGroup | pkg/controllers/cloud/networkpolicy.go:1183-1192 | the same for all security groups of a group |
| Reconciler.NetworkPolicyReconciler.NotifyGroups | pkg/controllers/cloud/networkpolicy.go:1150-1174 | the same for a list of groups, repetitions included |
| Reconciler.NetworkPolicyReconciler.RecomputePolicy | pkg/controllers/cloud/networkpolicy.go:1114-1118 | the rules are recomputed and, if ready, every group the policy applies to has been sent what it is owed |
| Reconciler.NetworkPolicyReconciler.UpdatePolicy | pkg/controllers/cloud/networkpolicy.go:1101-1175 | settled again; every group that gained or lost the policy, or whose policy has new rules that are ready, has been sent what it is owed; groups whose deletion only waited for the policy have gone |
| Reconciler.NetworkPolicyReconciler.DeletePolicy | pkg/controllers/cloud/networkpolicy.go:1178-1209 | settled again: groups only kept for the policy have gone, with a Delete sent where the cloud was ever asked for them, and groups it applied to have been sent what they are owed |
| Reconciler.NetworkPolicyReconciler.ProcessNetworkPolicy | pkg/controllers/cloud/networkpolicy_controller.go:335-383 | settled again, with the policy stored as announced or gone, other policies unchanged, and every group it bears upon sent what it is owed; the rules of a new policy that are ready are sent |
| Reconciler.NetworkPolicyReconciler.NotifyAddrGrpChanges | pkg/controllers/cloud/networkpolicy.go:1258-1281 | the policy becomes ready exactly if all its address groups are, and then its rules have been sent to every group it applies to |
| Reconciler.NetworkPolicyReconciler.UpdateGroupRules | pkg/controllers/cloud/networkpolicy.go:1268-1279 | every security group of the appliedTo group has been sent what it is owed, and no state has changed |
| Reconciler.NetworkPolicyReconciler.AddrCreated | pkg/controllers/cloud/networkpolicy.go:729-751 | no wake-up is lost: after a Create is acknowledged, every policy naming the group whose address groups are all ready is ready, and the members are sent unless a retry is armed |
| Reconciler.NetworkPolicyReconciler.AppliedToDone | pkg/controllers/cloud/networkpolicy.go:915-966 | the new state is that of the rollout specification, and the step keeps the invariant |
| Reconciler.NetworkPolicyReconciler.Notify | pkg/controllers/cloud/networkpolicy.go:700-752 | an acknowledged Create leaves Init, a failure is queued, the invariant is kept, and the new state is the specified one except for the order in which policies of a new address group are told; it reports exactly whether the queue will try again |
| Reconciler.NetworkPolicyReconciler.CountDown | pkg/controllers/cloud/networkpolicy_pendingitem.go:89-105 | the Delete is uncounted; exactly the last one of a group, unless a retry is to come, removes the entry and replays what was buffered |
| Reconciler.NetworkPolicyReconciler.ProcessResponse | pkg/controllers/cloud/networkpolicy_controller.go:386-388 | any answer, in any order, keeps the invariant and takes exactly its request out of flight; successful Creates leave Init, failures are queued, and the new state is the specified one |
| Reconciler.ResolveEvent | pkg/controllers/cloud/networkpolicy.go:224-293 | fails exactly if a lookup broke or an added member does not exist, and otherwise places every machine in its VPC and yields exactly the addresses that join and leave |
| Reconciler.Resolve | pkg/controllers/cloud/networkpolicy.go:224-293 | members by VPC are exactly the machines found there, addresses exactly those of the other members, and missing names exactly those not found |
| Reconciler.NetworkPolicyReconciler.RemoveStale | pkg/controllers/cloud/networkpolicy.go:471-492 | exactly the group's filed objects lose exactly the members whose names occur in a missing name |
| Reconciler.NetworkPolicyReconciler.AddMembers | pkg/controllers/cloud/networkpolicy_controller.go:216-245 | VPC by VPC, members join an object, are told to the cloud if it would be, or get a new object; removals of the same VPC are dealt with at once; the index gains exactly the groups of the VPCs with added members, and reports whether it gained any |
| Reconciler.NetworkPolicyReconciler.RemoveMembers | pkg/controllers/cloud/networkpolicy_controller.go:246-257 | VPC by VPC, exactly the given members leave, and the cloud is told exactly if the object is created with no retry armed; nothing happens to other groups |
| Reconciler.NetworkPolicyReconciler.PlaceIpBlocks | pkg/controllers/cloud/networkpolicy_controller.go:259-283 | the IP-block group appears or takes the addresses exactly as announced, and policies are told exactly if addresses came or went or an empty group appeared |
| Reconciler.NetworkPolicyReconciler.UpdateIps | pkg/controllers/cloud/networkpolicy.go:675-679 | the addresses are the old ones without those that left and with those that joined |
| Reconciler.NetworkPolicyReconciler.ApplyGroup | pkg/controllers/cloud/networkpolicy_controller.go:166-291 | an event that cannot be resolved changes nothing; any other gives every object of the group its members before, pruned of missing names, without the machines that leave its VPC and with those that join, and tells the cloud exactly if there is news and it would listen; addresses likewise; other groups are left alone |
| Reconciler.NetworkPolicyReconciler.DeleteGroup | pkg/controllers/cloud/networkpolicy_controller.go:198-209 | every filed object of the group has gone, with a Delete sent where the cloud was ever asked for it, if no policy names the group; otherwise it is still filed, marked, and the group expects its deletion; addresses go at once |
| Reconciler.NetworkPolicyReconciler.ProcessMemberGroup | pkg/controllers/cloud/networkpolicy_controller.go:126-292 | events for a group being deleted are only buffered; unresolved ones only join the retry item, whose budget they do not renew; deletions cancel the retry item and reach all that is filed; all others find members and addresses where they should be |
| Reconciler.NetworkPolicyReconciler.CheckToRun | pkg/controllers/cloud/networkpolicy_pendingitem.go:125-143 | every queued item has its turn, in some order, exactly as specified; every group waiting for its members is tried once on a smaller budget, or leaves the queue; the invariant is kept |
| Reconciler.NetworkPolicyReconciler.SyncImpl | pkg/controllers/cloud/networkpolicy_sync.go:28-59 | the new state is the specified one: what the cloud has is created, members it lacks are sent, a group it lacks is added again |
| Reconciler.NetworkPolicyReconciler.RecomputeNamers | pkg/controllers/cloud/networkpolicy_controller.go:284-290 | afterwards no policy naming the group is stale, in groups or in addresses |
| Reconciler.NetworkPolicyReconciler.SyncGroup | pkg/controllers/cloud/networkpolicy_sync.go:28-196 | the new state is the specified one: a delete-pending group is left alone; what the cloud has is created; members it lacks are sent, a group it lacks is added again; an appliedTo group's policies are recomputed and, if all are ready, its rules sent unless the cloud has them |
| Reconciler.NetworkPolicyReconciler.ComputeAll | pkg/controllers/cloud/networkpolicy_sync.go:83-136 | true exactly if all policies are ready once recomputed, and then all are; else some of them |
| Reconciler.NetworkPolicyReconciler.DeleteUnknown | pkg/controllers/cloud/networkpolicy_sync.go:211-235 | of the groups the cloud reports, exactly the indexed ones are kept for synchronization, with the latest report; the deletion of the others is pending, and those no policy names have been sent a Delete |
| Reconciler.NetworkPolicyReconciler.SyncWithCloud | pkg/controllers/cloud/networkpolicy_sync.go:201-263 | does nothing before three bookmarks; after, groups only the cloud knows and no policy names are deleted, and every indexed group is synchronized once, address groups first, as specified; groups the cloud has are created, and those it lacks are added again if they have members and no retry armed |
| GroupProgress.UpdateRulesIssues | pkg/controllers/cloud/networkpolicy.go:840-886 | exactly the request a group is owed is appended to those in flight, and no other object changes |
| GroupProgress.NotifiedNext | pkg/controllers/cloud/networkpolicy.go:969-983 | notifying one security group preserves what the others are owed |
| RetryBudget.BudgetBounds | pkg/controllers/cloud/networkpolicy_pendingitem.go:60-143 | runs and remaining budget add up to n while queued; at most n runs from ticks, n + 1 in all; gone after n + 1 ticks on which it asked to run |
| RetryBudget.BudgetIsTight | pkg/controllers/cloud/networkpolicy_pendingitem.go:93-105 | n ticks and one update do run an item n + 1 times |
| RetryBudget.TickIsTurn | pkg/controllers/cloud/networkpolicy_pendingitem.go:125-143 | a tick of a queued security group is one turn of the counted item |
| RetryBudget.CheckIsTurn | pkg/controllers/cloud/networkpolicy_pendingitem.go:81-107 | so is an update that checks it |
| RetryBudget.RunsBounded | pkg/controllers/cloud/networkpolicy_pendingitem.go:60-143 | after any run of events: since it was queued a security group has run at most n + 1 times and a member group at most n times; one still queued has run as often as recorded, at least once for every tick on which it asked to, and at most n times |
| RetryBudget.ArmedAsks | pkg/controllers/cloud/networkpolicy_pendingitem.go:254-274 | the run of an armed item adds exactly one request, or none if it has nothing to ask of the cloud, and leaves the item waiting |
| RetryBudget.RunStrands | pkg/controllers/cloud/networkpolicy_pendingitem.go:254-274 | a run that does not panic strands its item exactly if nothing outstanding, nor what it asks for, may be reported as the operation, and either the item stays queued with budget left or nothing else is outstanding |
| RetryBudget.StrandedExact | pkg/controllers/cloud/networkpolicy_pendingitem.go:276-308 | a queued item that waits, with budget left, is stranded exactly if no failure of an outstanding request can make it run again |
| RetryBudget.FailedAnswerKeeps | pkg/controllers/cloud/networkpolicy.go:606-625 | the failure of any request, in any order, keeps the invariant |
| RetryBudget.DeleteSupersedes | pkg/controllers/cloud/networkpolicy.go:551-572 | a deletion no policy holds up disarms the retry, empties queue and index, and issues exactly one Delete unless nothing was ever asked of the cloud |
| PendingGroups.CoalescedIsApplied | pkg/controllers/cloud/networkpolicy_pendingitem.go:176-219 | folding a well-formed history of events gives the membership of applying them one by one, no leftover removals, and an entry to be replayed as a creation |
| PendingGroups.UpdatePendingItem | pkg/controllers/cloud/networkpolicy_pendingitem.go:176-219 | the loops compute that fold |
| PendingGroups.ReplayedMembers | pkg/controllers/cloud/networkpolicy_pendingitem.go:159-168 | a replay passes on exactly the buffered members, each once |
| PendingGroups.CoalesceProper | pkg/controllers/cloud/networkpolicy_pendingitem.go:184-219 | entries are only ever replayable as creation or patch, and events do not touch the count of Deletes |
| Keys.UniqueNameRoundTrip | pkg/controllers/cloud/networkpolicy.go:112-124 | a unique name is read back exactly if it is not an appliedTo name starting with `mm_` |
| Keys.KeyStringsDiffer | pkg/cloud-provider/securitygroup/securitygroup.go:150-152 | ids whose names have no slash have different keys |
| Keys.QueueStringsDiffer | pkg/controllers/cloud/networkpolicy.go:608-609 | no two items of the retry queue share a key |
| Cidr.DeduplicateIP | pkg/controllers/cloud/networkpolicy.go:338-361 | same addresses covered, no prefix of the result contains another, nothing new, and not empty unless the input is |
| Cidr.DropNarrower | pkg/controllers/cloud/networkpolicy.go:348-355 | a prefix stays exactly if no wider one and no later one as wide contains it |
| Cidr.ContainsIsSubset | pkg/controllers/cloud/networkpolicy.go:321-334 | a contained prefix covers a subset of the addresses |
| Cidr.SubsetIsContained | pkg/controllers/cloud/networkpolicy.go:321-334 | and only a contained prefix does |
| RuleCompiler.CompilePeer | pkg/controllers/cloud/networkpolicy.go:996-1020 | fails exactly if a group is unknown, else admits exactly the traffic the peer admits after resolution of its groups |
| RuleCompiler.CompileRule | pkg/controllers/cloud/networkpolicy.go:991-1090 | the rules of one policy rule admit exactly its traffic, refer only to its groups, and all have peers; there are some exactly if the rule has someone on its remote side and some service |
| RuleCompiler.ComputeRules | pkg/controllers/cloud/networkpolicy.go:1284-1302 | the same for all rules of a policy, by direction |
| RuleCompiler.Deduplicate | pkg/controllers/cloud/networkpolicy.go:378-408 | merging keeps the traffic and the groups referred to, leaves one rule per port and protocol, antichains of prefixes and no repeated group |
| RuleCompiler.RulesFor | pkg/controllers/cloud/networkpolicy.go:867-880 | what is sent for a group permits a flow exactly if some rule of some policy applied to it does, each policy read with the groups as they were when it was compiled; it refers only to their groups, and has no rule without peers |
| RuleCompiler.ServiceExact | pkg/controllers/cloud/networkpolicy.go:1028-1040 | a service keeps its meaning exactly if its port is not 0 and its protocol has a number |
| RuleCompiler.PermissionExact | pkg/cloud-provider/cloudapi/aws/aws_converters.go:28-64 | the EC2 permission of a rule admits the same traffic exactly if the rule has peers |
| RuleCompiler.PermissionsExact | pkg/cloud-provider/cloudapi/aws/aws_security.go:211-229 | so compiled rules as a whole keep their meaning in EC2 |
| CompiledReferences.ReferencedIsResolved | pkg/controllers/cloud/networkpolicy.go:1001-1019 | the groups compiled rules can refer to are exactly those the reconciler tracks, and compilation fails exactly when the reconciler says so |
| CompiledReferences.ComputedReads | pkg/controllers/cloud/networkpolicy.go:1284-1305 | what the reconciler records of a policy it compiles is what the compiler reads, group by group |
| CompiledReferences.ComputedProduces | pkg/controllers/cloud/networkpolicy.go:1324-1326 | the reconciler holds compiled rules for a policy exactly if the compiler, given the groups there are, makes some |
| CompiledReferences.ReadAlike | pkg/controllers/cloud/networkpolicy.go:991-1090 | directories that a policy reads alike permit the same traffic |
| CompiledReferences.CompiledIsCurrent | pkg/controllers/cloud/networkpolicy.go:1101-1118 | between events, rules compiled earlier permit exactly what the policy means with the groups as they are now, unless Creates overlapped or an IP-block group they have addresses of was deleted since |
| CompiledReferences.SentIsCurrent | pkg/controllers/cloud/networkpolicy.go:840-886 | so what is sent for a group, compiled policy by policy at different times, is what its policies mean now |
| GroupNames.ClassifyUndoesNaming | pkg/cloud-provider/securitygroup/helpers.go:21-40 | the classification of a cloud name gives back the group's name in lower case and its kind |
| AwsMembership.SortResources | pkg/cloud-provider/securitygroup/helpers.go:42-55 | the two sets are exactly the lower-case names of machines and of interfaces |
| AwsMembership.PlanNic | pkg/cloud-provider/cloudapi/aws/aws_security.go:371-441 | the nested loop computes the specified groups of an interface: a change exactly if the interface should get or lose the group; groups of others stay exactly while no appliedTo group is attached, and the default group stands in where there are none |
| AwsMembership.Ec2Service.UpdateSecurityGroupMembers | pkg/cloud-provider/cloudapi/aws/aws_security.go:352-445 | every interface is as specified, failing modifications leave theirs unchanged, and success is reported exactly if none failed; every interface modified keeps, loses or exchanges the groups of others as it should |
| AwsMembership.TouchedIsSorted | pkg/cloud-provider/cloudapi/aws/aws_security.go:369-441 | after any run with any failures, every interface ever modified has an appliedTo group and only managed groups, or no appliedTo group and a foreign one |
| AwsMembership.AttachesOwnOnly | pkg/cloud-provider/cloudapi/aws/aws_security.go:402-440 | an update puts its own group exactly on the members and moves no other managed group |
| AwsMembership.ForeignersAfter | pkg/cloud-provider/cloudapi/aws/aws_security.go:402-440 | of the groups of others, a modified interface has none with an appliedTo group attached, else those it had, else the default group |
| AwsMembership.NoStrangers | pkg/cloud-provider/cloudapi/aws/aws_security.go:402-440 | over any run with any failures an interface has of others' groups those it started with, the default group, or none |
| AwsMembership.AddressGroupsKeepForeigners | pkg/cloud-provider/cloudapi/aws/aws_security.go:402-440 | address groups alone never move an interface out of the groups of others it started with |
| AwsMembership.LatestCallDecides | pkg/cloud-provider/cloudapi/common/cloud.go:84-89 | after any run, a group whose latest call succeeded is on exactly the machine-attached interfaces of that call |
| AzureNsg.ConvertRules | pkg/cloud-provider/cloudapi/azure/azure_nsg_rules.go:87-140 | fails exactly on an unsupported protocol, else yields the translated rules numbered from 100 and the deny rule; they admit exactly what the compiled rules allow, groups taken by name |
| AzureNsg.TranslateAllExact | pkg/cloud-provider/cloudapi/azure/azure_nsg_rules.go:87-140 | translated rules admit exactly the traffic the compiled ones allow, groups taken by name |
| AzureNsg.TranslatedPermits | pkg/cloud-provider/cloudapi/azure/azure_nsg_rules.go:87-140 | where names tell groups apart, that is what the compiled rules permit of the groups that were found |
| AzureNsg.AsgNamesExact | pkg/cloud-provider/cloudapi/azure/azure_nsg_rules.go:87-140 | for groups that were all found, every compiled rule keeps its meaning exactly if names tell the groups apart |
| AzureNsg.NeverAnywhere | pkg/cloud-provider/cloudapi/azure/azure_nsg_rules.go:412-426 | rules with peers are never opened to every address |
| AzureNsg.Renumber | pkg/cloud-provider/cloudapi/azure/azure_nsg_rules.go:49-85 | existing and new rules in order, numbered without gaps, then the rules at the deny priority, one per name and the last of each |
| AzureNsg.SharedNsg.UpdateRules | pkg/cloud-provider/cloudapi/azure/azure_security.go:265-324 | other groups keep content and order, the group's own rules are replaced and, if they fit, admit exactly what the compiled rules allow in each direction; rules at the deny priority come last with the deny rule among them, and errors change nothing; the deny rule is alone there if nothing of nephe has another name at that priority |
| AzureNsg.NsgIsIdeal | pkg/cloud-provider/cloudapi/azure/azure_security.go:265-324 | over any run that fits, the rules are those of a plain list in which each update replaces its group's entries |
| AzureNsg.IdealIsLatest | pkg/cloud-provider/cloudapi/azure/azure_security.go:280-302 | in that list each group has exactly the rules of its latest update |
| AzureNsg.RunAdmitsLatest | pkg/cloud-provider/cloudapi/azure/azure_security.go:265-324 | after any run that fits, what a group's rules admit is what the contents of its latest update admit |
| AzureNsg.LayoutShaped | pkg/cloud-provider/cloudapi/azure/azure_nsg_rules.go:55-58 | what an update leaves is what the next one can start from |
| AzureNsg.CapacityIsExact | pkg/cloud-provider/cloudapi/azure/azure_nsg_rules.go:53-82 | priorities are distinct, and no rule gets lost, exactly up to 3996 ordinary rules per direction |
| Ec2Filters.Classify | pkg/cloud-provider/cloudapi/aws/aws_filter_helpers.go:81-141 | stops exactly at a selector of everything, else every selector and criterion ends up where it belongs, whatever the order |
| Ec2Filters.InstanceQueries | pkg/cloud-provider/cloudapi/aws/aws_ec2.go:184-212 | for all selector lists, says exactly which instances the queries find |
| Ec2Filters.SelectionExact | apis/crd/v1alpha1/cloudentityselector_types.go:21-51 | selectors that pass validation and have no blank machine criterion select exactly those instances, and only a selector of everything leads to a query without filters |
| Ec2Filters.FaithfulExact | pkg/cloud-provider/cloudapi/aws/aws_filter_helpers.go:81-141 | for every admitted list, the queries find what it selects exactly if some selector asks for everything; or nothing is filtered and some selector has no VPC; or something is, no selector without VPC has a blank criterion, and every known VPC with only blank criteria is passed whole by another filter |
| Ec2Filters.BlankMissed | pkg/cloud-provider/cloudapi/aws/aws_filter_helpers.go:111-140 | a list of two selectors for which that fails |
| Indexers.Indexer.Add | pkg/controllers/cloud/networkpolicy_controller.go:515-556 | what Add does to the index, in terms of the contents of today; an index that was right stays right |
| Indexers.Indexer.Delete | pkg/controllers/cloud/networkpolicy_controller.go:515-556 | what Delete does to the index, in terms of the contents of today; an index that was right stays right |
| Indexers.Indexer.ByIndex | pkg/controllers/cloud/networkpolicy_controller.go:515-536 | an index lookup equals a full scan with the index function |
| Indexers.Indexer.Change | pkg/controllers/cloud/networkpolicy.go:1120-1147 | delete, change, add keeps index and scan in agreement |
| Indexers.Indexer.ChangeInPlace | pkg/controllers/cloud/networkpolicy.go:1121 | changing a stored object without that keeps them in agreement exactly if the index values stay the same |
| Indexers.Indexer.Run | pkg/controllers/cloud/networkpolicy.go:1101-1209 | after any history of creations, changes and deletions, the index is right and what is stored is what the operations say |
| Indexers.Indexer.LookUpNamers | pkg/controllers/cloud/networkpolicy_controller.go:515-536 | the policies found by index are those a full scan of the reconciler's policies finds |
| NpTracker.UpdateTracker | pkg/controllers/cloud/networkpolicy_cloudresource.go:170-185 | present and former groups stay disjoint, the group is where it belongs, and index and scan agree |
| NpTracker.Join | pkg/controllers/cloud/networkpolicy_cloudresource.go:126-185 | a tracker exists afterwards with the group present, other trackers are untouched, and all are sound |
| NpTracker.MarkGroup | pkg/controllers/cloud/networkpolicy.go:915-926 | exactly the flags change: every tracker of the group, present or former, is dirty |
| NpTracker.ProcessTrackers | pkg/controllers/cloud/networkpolicy_cloudresource.go:149-168 | clean trackers stay; dirty ones drop former groups without error and are clean, or gone exactly if nothing is left; those whose status cannot be stored stay dirty |
| NpTracker.RunTrackers | pkg/controllers/cloud/networkpolicy_cloudresource.go:114-199 | after any history of joining, leaving, marking and processing: the index is right, every tracker has disjoint present and former groups and a dirty flag that can be read |
| NpTracker.PolicyStatus | pkg/controllers/cloud/networkpolicy.go:1323-1328 | no error exactly if the rules are compiled and every address group named is known, ready and without error |
| NpTracker.Verdict | pkg/controllers/cloud/networkpolicy_cloudresource.go:221-251 | the text is "applied" exactly if policy and appliedTo group both are fine; no error text can pass for it |
| NpTracker.AppliedMeans | pkg/cloud-provider/securitygroup/securitygroup.go:94-96 | a policy reported as applied has all its address groups known, ready and without error |
| NpTracker.ComputeNpStatus | pkg/controllers/cloud/networkpolicy_cloudresource.go:201-290 | a policy is reported as applied exactly if it names a present group of the resource that carries its rules, all address groups it names are fine and no former group objects; former groups without error are dropped, index and scan agree |
| AccountPoller.StatusSame | pkg/controllers/cloud/account_poller.go:264-288 | the loops compute the specified comparison |
| AccountPoller.AgreeIsEquivalent | pkg/controllers/cloud/account_poller.go:264-362 | if one status has no repetitions, comparison with any other is equality up to order and to the case of tag values and MACs |
| AccountPoller.AgreeExact | pkg/controllers/cloud/account_poller.go:264-362 | a status is compared correctly with every other exactly if no two interfaces share a name and none repeats an address |
| AccountPoller.AddressesExact | pkg/controllers/cloud/account_poller.go:334-353 | a list of addresses is compared correctly with every other, as multisets, exactly if it repeats none |
| AccountPoller.SharedNameConfuses | pkg/controllers/cloud/account_poller.go:301-332 | for every list in which two interfaces share a name, another list passes the comparison and differs |
| AccountPoller.Poller.FindByOperation | pkg/controllers/cloud/account_poller.go:183-226 | create, delete and update are exactly the new, the gone and the different machines |
| AccountPoller.Poller.DoOperations | pkg/controllers/cloud/account_poller.go:99-181 | owned objects match what was discovered wherever operations succeed and the name is not taken by another owner; objects of others, and fields not discovered, are untouched |
| AccountPoller.Poller.PollTwice | pkg/controllers/cloud/account_poller.go:99-226 | polling converges: the objects match the inventory apart from names taken by another owner, and a second poll finds nothing to do exactly if there are none |

## Left out

- Reconciler.NetworkPolicyReconciler.SyncGroup: whether the cloud's members and rules are the reconciler's is a free choice, because that comparison is approximate by design; what follows from it is specified.
- Reconciler.NetworkPolicyReconciler.Reissue: a panic ends the Go program; the model records it and goes on.
- Reconciler.NetworkPolicyReconciler.AddMembers: members are sets; a list that names a machine twice is compared by length in the code.
- Reconciler.NetworkPolicyReconciler.ProbeStatus: may happen at any time for any policy, not only for dirty trackers.
- Reconciler.NetworkPolicyReconciler.Update: trackers are modelled apart from the reconciler's state, over histories of their own.
- Liveness: nothing says that the cloud answers, or that a pending-delete entry is ever removed; an entry of a group that was never created stays.
- MemberHistory.MembersTally: is about machines; that addresses are those before without the leaving and with the joining ones is stated event by event, since a patch of addresses for a group without IP-block group is lost in the code.
- RuleCompiler.PermissionExact: takes ports literally for every protocol; what EC2 does with ports of protocols that have none is not modelled.
- IPv6, named ports, exceptions of IP blocks.
- AwsMembership.Ec2Service.UpdateSecurityGroupMembers: managed groups of a VPC have names that differ in more than letter case, as names generated by nephe do.
- AzureNsg: peer virtual networks, removal of references, application security groups of interfaces, and reading rules back.
- Ec2Filters.InstanceQueries: values of filters are sets, since EC2 does not look at their order; wildcards in values are not modelled, and machines are in some VPC.
- AccountPoller.Poller.DoOperations: an operation succeeds or fails as a whole; a creation whose status update fails is not modelled. Machines discovered in one poll have different names, as cloud ids do.
- Kubernetes clients, watches, webhooks other than the selector checks, cloud SDK calls, sessions, credentials and backoff: foreign calls, whose outcomes are parameters here.
- VirtualMachinePolicy REST objects, converters of virtual machines, resource-graph queries: would only add easy members.
