# A model of NXS

A Dafny model of NXS, an inference cluster: a scheduler places models on backends, each backend runs
every model as a chain of processes, and queues connect them. The project models the code that decides
and moves things and proves what it keeps; `dafny verify dfyconfig.toml` checks all of it.

## Parts

* **Placement and scaling** (`Ids`, `Policy*`, `Regrouping`, `SchedulingCall`, `SchedulingPolicy`,
  `Scheduler`, `Delivery`). `PolicyModel` says step by step what a call of the policy computes: expiry of
  backends, removal of sessions, deployment of pipelines with rollback, joining, scaling by ceiling, and
  GPU memory taken and returned. The class `SimpleSchedulingPolicy` does the same with the source's own
  fields and loops, and each of its methods is proved to compute its step. The other `Policy*` modules
  prove what the steps keep: the invariant `Inv` over every run of calls, memory never over-committed
  within a call, all-or-nothing deployment, scaling that reaches its target or saturates, and fastest
  profiles. `Regrouping` turns plans per session into messages per backend, and `Delivery` follows a
  placement from the table to the backend that serves it. `PolicyCosts`, with `Sums`, says what the memory, the
  rate and the demand of a model are.
* **The processes of a deployed model** (`Network`, `NetworkProgress`, `Wiring`, `WiringSafety`, `WiringRoles`,
  `WiringRoutes`, `Shutdown`, `ShutdownLosses`, `PipelineBuilder`, `InputQueue`, `Batching`, `CustomModel`,
  `Routing`, `BackendSessions`). `Network` is a system of interleaved steps with queues and stop flags. `Wiring` says
  which queues and flags every process gets, for any components, and the class `Builder` hands them out as
  the backend does. `Shutdown` proves when such a network is safe, that it can always come to its end, and
  when it delivers everything; `ShutdownLosses` has runs that lose requests. Batching, routing and session
  tables are proved for all inputs.
* **The partitioned queue** (`PartitionedQueue`), **workload rates** (`WorkloadWindow`), **suppression of
  boxes** (`Nms`, `NmsMeaning`), **cropping** (`CropPadding`) and **vehicle counting** (`VehicleCounting`, `LineTest`).

## Results

1. Over every run of scheduling calls all plans stay in order, on current backends of the right kind and for
   requested sessions (`PolicyRuns.EveryRun`), and no call commits more memory than there is
   (`PolicyRuns.ScheduleKeeps`), where a model takes what all its components need together
   (`PolicyCosts.EveryComponentFits`).
2. In a call every wanted model ends on the least number of backends that, at the rate of its slowest component,
   meets the sum of the rates asked for, or saturated, or unplaced (`PolicyRuns.ScheduleScales`), and a requested
   session is left without plans only if some pipeline found no room (`PolicyOmissions.OmittedOnlyIfFull`).
3. A pipeline is deployed for all of its sessions and models or not at all
   (`PolicyAllOrNothing.AllOrNothing`); which of the two is a matter of filling slots with needs
   (`PolicyPlacement.AttemptIsForecast`), and so is when memory is kept and when order is lost
   (`MemoryRestoredIff`, `OrderedIff`, and for whole calls `PolicySharing.CallOrderedIff`).
4. The class with the source's loops computes exactly that (`SchedulingPolicy.SimpleSchedulingPolicy.Schedule`).
5. Messages list exactly the placements of the table, with multiplicity (`Regrouping.Regroup`), and what is
   placed on a backend is served there (`Delivery.TableIsServed`) at the fastest profile
   (`PolicyComponents.MessagesAreFastest`).
6. Parent and child agree on the sessions served, and a round converges from any state
   (`BackendSessions.InputProcess.Update`, `BackendSessions.RoundConverges`), with every session under its own
   arguments or, if it joins later, those of one that was there (`BackendSessions.Backend.Round`).
7. No interleaving of the processes of a model loses or doubles a request on the way
   (`Network.EveryRunConserves`); shutdown is safe exactly for single output processes
   (`Shutdown.SafeIffSingleOutputs`), can always be completed (`Shutdown.DeployedCanEnd`), and delivers
   everything exactly if no final read is too short (`Shutdown.DeployedDeliversIff`). For up to 32 requests it
   delivers everything, in every run, exactly for single output processes (`ShutdownLosses.DeliversFewIff`). The
   backend wires every model so (`PipelineBuilder.Builder.Build`, `WiringRoles.DeployedRoles`).
8. Batching preserves meaning for every split, order of arrival and number of preprocessors: every answer has each
   output of inference on its own request under that output's name (`Batching.BatchingPreservesMeaning`,
   `Batching.AnyOrderSameAnswers`).
9. Every request comes back once, with a status that says whether it failed (`Routing.EveryRequestComesBack`);
   a custom model answers each request exactly if it returns enough (`CustomModel.OneOutputEachIff`), and with that
   request's own output (`CustomModel.EveryRequestAnswered`).
10. The partitioned queue loses nothing, keeps the order of each partition and bounds its buffer over every
    interleaving (`PartitionedQueue.EveryRun`); the bound is sharp (`BoundIsReached`) and closing loses
    nothing (`NothingLostOnClose`).
11. Every scheduling message carries the rate of the live window of the whole history of reports
    (`WorkloadWindow.WorkloadPolicy.GenerateSchedulingMessages`).
12. Suppression computes the only kernel of the overlap relation (`Nms.KernelIsKept`) and is idempotent; the relation
    is intersection over union in pixels (`NmsMeaning.PassesIsPixelRatio`).
13. Each counter is the number of tracks ever counted for its line and class, and every track that passes long
    enough is counted (`VehicleCounting.OfflineWorker.Round`, `VehicleCounting.CountedInTurn`); what counts as
   passing is exactly a matter of quadrants, not of sides (`LineTest.SameSideIffQuadrants`,
   `LineTest.EveryLineMisjudged`).

## Where the code departs from its intent

The model follows the code. What it then does is stated exactly:

* A pipeline that shares a model with one already deployed is given the other session's plan object
  (simple_policy_v2.py:139-146), and the table is then no longer in order: `SharingBreaksOrder` is such a
  case, `OrderedIff` says exactly when it happens in one attempt, from the pool and the models before it, and
  `CallOrderedIff` with `AllCleanIff` exactly when it happens in a call. Theorems on whole calls therefore ask
  that it does not (`Unshared`); `SeparateIsUnshared` gives a simple condition on the table for that.
* Emptying one plan drops its whole session (simple_policy_v2.py:247-251), so a rollback does not find the
  later models any more and keeps their memory: `RollbackKeepsMemory` is such a case, and
  `MemoryRestoredIff` says exactly when all memory comes back.
* The same makes the removal of a session stop short: what the session runs on backends of its own gives its
  memory back only up to and with the placement that takes one of its models the last backend
  (simple_policy_v2.py:464-516). `RemoveSessionReturns` says exactly what comes back, `AllReturnedIff` when all of it
  does, and `SecondModelKeepsMemory` is a case where some does not.
* A last read takes at most 32 items (input/__init__.py:115, 125-126): `LeftBehindIff` and
  `DeployedDeliversIff` say exactly when that loses something, and `OverflowLoses` gives a run that does.
* Several output processes of a component that is not the last share one flag (backend/main.py:1441-1462), so
  the next stage can make its last read too soon: `SharedFlagLoses` gives, for every such model, a run that loses
  a request. `SafeIffSingleOutputs` says exactly which models are safe, and `DeliversFewIff` which never lose one of
  at most 32 requests; they are the same.
* A result that cannot be formatted is reported as completed, with messages (output_process.py:382-417):
  `CompletedWithMessagesIff`.
* A custom component forgets the messages it receives with a failed request
  (custom_model_process.py:122-164): `MessagesArriveIff`.
* Batches are never empty only if size 1 is profiled or the limit is 1 (preprocessing_process.py:301-310):
  `NeverEmptyIff`. A custom model that returns too few outputs leaves requests unanswered
  (custom_model_process.py:244-247): `OneOutputEachIff`.
* Ids with an underscore cannot be taken apart again (simple_policy_v2.py:813, workload simple_policy.py:164):
  `StripGivesSession`, `TwoPartsIff`.
* Only one track is counted in a frame (offline_worker.py:286-292): `CountedInFrameIff` says which,
  `CountedInTurn` when a track that passes long enough is, and `SecondIsNotCounted` is a case where one is not.
* The test for passing a line compares quadrants about its midpoint, not its sides (offline_worker.py:762-766):
  `SameSideIffQuadrants`. `RightOnHorizontalIff`, `RightOnVerticalIff`, `RightOffTheLineIff` and
  `PassingIsCrossingIff` say exactly when that is right, `StandingIsPassing` and `CrossingIsNotPassing` are cases
  where it is not, and `EveryLineMisjudged` has both for every line.

## Model

| member | source | states |
|---|---|---|
| Ids.SplitOfKey | nxs_libs/interface/scheduling_policy/simple_policy_v2.py:735-738 | splitting a key gives the parts of the pipeline id followed by those of the session id, whatever the ids are |
| Ids.StripGivesSession | nxs_libs/interface/scheduling_policy/simple_policy_v2.py:813 | the session id a backend is told is the registered one exactly if that has no underscore |
| Ids.KeyInjective | nxs_libs/interface/scheduling_policy/simple_policy_v2.py:735-738 | two sessions share a key only if they are the same session of the same pipeline, given pipeline ids without underscore |
| Ids.FirstSegmentOfKey | nxs_libs/interface/scheduling_policy/simple_policy_v2.py:735-738 | the pipeline can be read off a key |
| PolicyModel.BestProfileIsFastest | nxs_libs/interface/scheduling_policy/simple_policy_v2.py:1008-1017 | the profile used is the first of the fastest, and there is none exactly if no entry has a positive rate |
| PolicyBudget.ChooseIsBest | nxs_libs/interface/scheduling_policy/simple_policy_v2.py:266-284 | no backend is chosen exactly if none is usable; otherwise a usable one that no other usable one beats |
| PolicyBudget.ChooseIsFirst | nxs_libs/interface/scheduling_policy/simple_policy_v2.py:327-362 | of equally good usable backends it is the one reported first, which fixes the choice |
| PolicyCosts.NeedIsTotal | nxs_libs/interface/scheduling_policy/simple_policy_v2.py:984-996 | the memory a model needs is the sum of what its components need at their fastest profiles |
| PolicyCosts.NeedAdds | nxs_libs/interface/scheduling_policy/simple_policy_v2.py:984-996 | no component needs nothing, one its own profile's memory, and two lists of components what both need together |
| PolicyCosts.EveryComponentFits | nxs_libs/interface/scheduling_policy/simple_policy_v2.py:984-996 | what is charged for a model is that sum, and no component needs more than its model is charged for |
| PolicyCosts.FpsIsSlowest | nxs_libs/interface/scheduling_policy/simple_policy_v2.py:645-648 | the rate of a model is at most the fastest rate of each of its components, and it is one of those rates or the cap |
| PolicyCosts.SlowestIsUnique | nxs_libs/interface/scheduling_policy/simple_policy_v2.py:645-648 | only one rate is so |
| PolicyCosts.DemandIsTotal | nxs_libs/interface/scheduling_policy/simple_policy_v2.py:627-636 | the demand for a model is the sum of the rates of all requests whose pipeline has it |
| PolicyCosts.DemandAdds | nxs_libs/interface/scheduling_policy/simple_policy_v2.py:627-636 | no request asks for nothing, one for its rate if its pipeline has the model, and two lists for what both ask for together |
| PolicyCosts.TwoNeedBoth | nxs_libs/interface/scheduling_policy/simple_policy_v2.py:984-996 | a model whose components need 6 and 3 is not placed on a backend with 5 or with 9 free; on one with 10 it is, and 1 is left |
| PolicyCosts.TwoNeedFive | nxs_libs/interface/scheduling_policy/simple_policy_v2.py:675-677 | components at 10 and 100 frames a second and a demand of 50 call for five backends |
| PolicyTables.ExpireShape | nxs_libs/interface/scheduling_policy/simple_policy_v2.py:408-454 | after expiry the table is well formed and has lost exactly the placements on departed backends |
| PolicyTables.ExpireSameHosts | nxs_libs/interface/scheduling_policy/simple_policy_v2.py:408-454 | expiry keeps all sessions of a model on the same backends |
| PolicyTables.EntryWithoutShape | nxs_libs/interface/scheduling_policy/simple_policy_v2.py:240-257 | a session is dropped whole exactly if the removed backend was the last one of the model; otherwise only that backend goes from that plan |
| PolicyTables.RemoveShape | nxs_libs/interface/scheduling_policy/simple_policy_v2.py:197-257 | a removal leaves a well-formed table that runs nothing new and no longer this model on this backend |
| PolicyTables.RemoveSameHosts | nxs_libs/interface/scheduling_policy/simple_policy_v2.py:197-257 | a removal keeps all sessions of a model on the same backends |
| PolicyTables.RemoveLone | nxs_libs/interface/scheduling_policy/simple_policy_v2.py:484-516 | taking a model off a backend that only one session uses touches no other session |
| PolicyGrowth.AddPlansTable | nxs_libs/interface/scheduling_policy/simple_policy_v2.py:286-325 | the listed sessions gain exactly one placement or a new entry, all others stay as they are |
| PolicyGrowth.AddPlansSameHosts | nxs_libs/interface/scheduling_policy/simple_policy_v2.py:281-325 | if all users of the model gain the backend, all sessions of a model stay on the same backends |
| PolicyInvariants.ExpireInv | nxs_libs/interface/scheduling_policy/simple_policy_v2.py:408-454 | expiry keeps the whole invariant, now over the remaining backends |
| PolicyInvariants.RemoveInv | nxs_libs/interface/scheduling_policy/simple_policy_v2.py:197-257 | a removal keeps the whole invariant |
| PolicyInvariants.DropSessionInv | nxs_libs/interface/scheduling_policy/simple_policy_v2.py:464-516 | dropping a session keeps the whole invariant |
| PolicyInvariants.AddPlansInv | nxs_libs/interface/scheduling_policy/simple_policy_v2.py:281-406 | adding a placement on a backend of the right kind keeps the whole invariant, at most 5 models on a CPU backend included |
| PolicyBudget.UndeployBudget | nxs_libs/interface/scheduling_policy/simple_policy_v2.py:259-264 | taking a model off never raises free memory plus the needs of what is hosted, returns the memory exactly if the model was there, and touches no other backend |
| PolicyBudget.DeployBudget | nxs_libs/interface/scheduling_policy/simple_policy_v2.py:266-284 | deploying never raises that sum, takes exactly the need from exactly the chosen backend, and leaves no backend in debt |
| PolicyRemoval.ExpireSession | nxs_libs/interface/scheduling_policy/simple_policy_v2.py:408-454 | expiry takes from each session exactly its placements on departed backends |
| PolicyRemoval.RemoveSessionReturns | nxs_libs/interface/scheduling_policy/simple_policy_v2.py:464-516 | what is to be removed with a session is what it runs on backends no other session uses; of that, exactly the first ones give their memory back, up to and with the one that takes a model its last backend |
| PolicyRemoval.AllReturnedIff | nxs_libs/interface/scheduling_policy/simple_policy_v2.py:464-516 | all memory of what only this session runs on its backends comes back if and only if what comes after that one needs none |
| PolicyRemoval.SecondModelKeepsMemory | nxs_libs/interface/scheduling_policy/simple_policy_v2.py:247-251 | a session that runs two models of 4 each, alone on one backend: removing it gives 4 back, not 8 |
| PolicyPruning.RemoveSessionExact | nxs_libs/interface/scheduling_policy/simple_policy_v2.py:464-516 | removing a session removes its entry and no other, keeps the invariant and never over-commits memory |
| PolicyPruning.PruneExact | nxs_libs/interface/scheduling_policy/simple_policy_v2.py:773-777 | after expiry and removal exactly the requested sessions are left, on exactly the backends still there, with nothing over-committed |
| PolicyDeployment.DeployGood | nxs_libs/interface/scheduling_policy/simple_policy_v2.py:266-284 | deploying a model keeps the invariant and fails exactly if no backend is usable, then changing nothing |
| PolicyDeployment.DeployModelsOk | nxs_libs/interface/scheduling_policy/simple_policy_v2.py:87-122 | in any prefix of a pipeline's models, what was deployed is new, on the one backend chosen for it, for exactly the pipeline's sessions; other sessions are untouched |
| PolicyDeployment.SharedPlansExact | nxs_libs/interface/scheduling_policy/simple_policy_v2.py:91-111 | a successful attempt shares exactly the plans that its models had before it, model after model, and so none for a model that was not planned |
| PolicyDeployment.SharedExact | nxs_libs/interface/scheduling_policy/simple_policy_v2.py:91-111 | nothing is shared if all models were new, and if nothing is shared by a successful attempt all were |
| PolicyDeployment.RollbackExact | nxs_libs/interface/scheduling_policy/simple_policy_v2.py:124-131 | a failed pipeline costs the table its own sessions and nothing else; each backend gets back what the first deployed model took and nothing of what later ones took |
| PolicyDeployment.RollbackOfFresh | nxs_libs/interface/scheduling_policy/simple_policy_v2.py:124-131 | if none of the models was planned before, a failed attempt leaves all plans as they were |
| PolicyAllOrNothing.AllOrNothing | nxs_libs/interface/scheduling_policy/simple_policy_v2.py:65-146 | on success every session of the pipeline has a plan for every model, on failure none enters; other sessions keep their plans either way |
| PolicyAllOrNothing.SharedBreaksShape | nxs_libs/interface/scheduling_policy/simple_policy_v2.py:139-146 | any shared plan leaves an entry with a foreign plan or two plans for one model |
| PolicyAllOrNothing.DeployPipelineGood | nxs_libs/interface/scheduling_policy/simple_policy_v2.py:65-146 | an attempt that shares nothing keeps the invariant and the memory bound |
| PolicyAllOrNothing.DeployPipelinesGood | nxs_libs/interface/scheduling_policy/simple_policy_v2.py:65-146 | so do any number of them, and only requested sessions gain entries |
| PolicyPlacement.PickIsRoomiest | nxs_libs/interface/scheduling_policy/simple_policy_v2.py:327-362 | the backend picked for a need is one no other with room for it is roomier than |
| PolicyPlacement.ChooseIsPick | nxs_libs/interface/scheduling_policy/simple_policy_v2.py:266-284 | a model that runs nowhere goes to the backend whose free memory, or number of models, is picked for its need |
| PolicyPlacement.AttemptIsForecast | nxs_libs/interface/scheduling_policy/simple_policy_v2.py:87-122 | an attempt succeeds exactly if all models not planned before find room one after the other, as computed from the pool before it alone, and deploys exactly those before the first that does not |
| PolicyPlacement.SaturatedFails | nxs_libs/interface/scheduling_policy/simple_policy_v2.py:87-122 | it fails if no backend is usable for one of them before it is begun |
| PolicyPlacement.MemoryRestoredIff | nxs_libs/interface/scheduling_policy/simple_policy_v2.py:124-131 | a failed attempt gives all memory back exactly if, of the new models that find room, none after the first costs any |
| PolicyPlacement.OrderedIff | nxs_libs/interface/scheduling_policy/simple_policy_v2.py:132-146 | the table stays well formed exactly if some new model finds no room or all models of the pipeline are new |
| PolicyPlacement.RollbackKeepsMemory | nxs_libs/interface/scheduling_policy/simple_policy_v2.py:247-251 | three models that need 4 each and one backend with 10 free: the attempt fails, no plan is left, and 6 of the 10 are free |
| PolicyPlacement.SharingBreaksOrder | nxs_libs/interface/scheduling_policy/simple_policy_v2.py:139-146 | a pipeline deployed after one whose model it shares leaves a table out of order |
| PolicyAssignment.MergedHosts | nxs_libs/interface/scheduling_policy/simple_policy_v2.py:159-183 | the merged plans for a model name each of its backends once and no other |
| PolicyAssignment.AssignInv | nxs_libs/interface/scheduling_policy/simple_policy_v2.py:148-195 | joining sessions keep the invariant, place nothing new, leave old entries alone and get a plan for each of their models |
| PolicyAssignment.AssignComplete | nxs_libs/interface/scheduling_policy/simple_policy_v2.py:148-195 | a requested session left out wants a model nobody has |
| PolicyScaling.TargetIsLeast | nxs_libs/interface/scheduling_policy/simple_policy_v2.py:675-677 | the number of backends aimed at is the least that, at the rate of the model's slowest component, meets the sum of the rates asked for |
| PolicyScaling.ScaleDownReaches | nxs_libs/interface/scheduling_policy/simple_policy_v2.py:682-714 | scaling down by less than all takes away exactly that many backends and costs no session a model |
| PolicyScaling.FirstHostIs | nxs_libs/interface/scheduling_policy/simple_policy_v2.py:690-714 | each time the model leaves the backend named first, in the first plan for it of the first session that has one |
| PolicyScaling.ScaleUpReaches | nxs_libs/interface/scheduling_policy/simple_policy_v2.py:716-725 | scaling up adds exactly as many backends as asked for, or fewer and then no backend is usable |
| PolicyScaling.ScaleReaches | nxs_libs/interface/scheduling_policy/simple_policy_v2.py:620-725 | for every requested, placed model; sessions and their models stay the same, invariant and memory bound hold |
| PolicyRuns.ScheduleKeeps | nxs_libs/interface/scheduling_policy/simple_policy_v2.py:727-800 | one call leaves plans of requested sessions on current backends of the right kind, no debt, and on every backend no more memory committed than there was |
| PolicyRuns.ScheduleScales | nxs_libs/interface/scheduling_policy/simple_policy_v2.py:727-800 | after one call every wanted model is unplaced, or on the least number of backends that, at the rate of its slowest component, meets the sum of the rates asked for, or saturated |
| PolicyRuns.ScheduleAllOrNothing | nxs_libs/interface/scheduling_policy/simple_policy_v2.py:65-195 | a session with plans after a call had some left from before or has all models of its pipeline |
| PolicyRuns.SeparateIsUnshared | nxs_libs/interface/scheduling_policy/simple_policy_v2.py:87-111 | if no model of the pipelines to add is planned and no two of them share one, no plan is shared in the call |
| PolicyRuns.EveryRun | nxs_libs/interface/scheduling_policy/simple_policy_v2.py:727-800 | over any sequence of calls the whole invariant holds and only sessions of the last requests have plans |
| PolicyOmissions.OmittedOnlyIfFull | nxs_libs/interface/scheduling_policy/simple_policy_v2.py:65-195 | a requested session is left without plans only if, in the call, a pipeline found no backend with room for one of its new models: its own one, if that was to be deployed |
| PolicyOmissions.ToAddIff | nxs_libs/interface/scheduling_policy/simple_policy_v2.py:899-919 | a pipeline is to be deployed exactly if it is requested and some model of it has no backend |
| PolicySharing.CallOrderedIff | nxs_libs/interface/scheduling_policy/simple_policy_v2.py:65-146 | once the pipelines of a call are deployed the table is in good order if and only if none of them, when its turn came, shared a plan |
| PolicySharing.AllCleanIff | nxs_libs/interface/scheduling_policy/simple_policy_v2.py:87-146 | and that is so exactly if each, when its turn comes, has only new models or finds no room for one of its new ones |
| PolicySharing.DeployLeaves | nxs_libs/interface/scheduling_policy/simple_policy_v2.py:65-146 | a pipeline, in whatever table, leaves the entries of other sessions alone |
| PolicyComponents.ComponentPlansAreFastest | nxs_libs/interface/scheduling_policy/simple_policy_v2.py:294-300 | a plan lists each component with the batch size of its first fastest profile |
| PolicyComponents.EveryRunIsConfigured | nxs_libs/interface/scheduling_policy/simple_policy_v2.py:286-325 | so every placement of every run is |
| PolicyComponents.MessagesAreFastest | nxs_libs/interface/scheduling_policy/simple_policy_v2.py:833-840 | every model entry of every message tells the backend to run each component at its fastest profile |
| Regrouping.Regroup | nxs_libs/interface/scheduling_policy/simple_policy_v2.py:810-845 | the placements listed per backend are those of the plans with the same multiplicity; one group per backend, one entry per model, no empty entry, one duty cycle per listed session; components come from the plans |
| Regrouping.Place | nxs_libs/interface/scheduling_policy/simple_policy_v2.py:815-845 | one placement more, in the group of its backend |
| Regrouping.ListedIsRuns | nxs_libs/interface/scheduling_policy/simple_policy_v2.py:810-845 | a model is listed for a backend exactly if it runs there |
| Regrouping.NothingDropped | main_processes/backend/main.py:858-861 | pairing models with duty cycles drops no model |
| SchedulingCall.StoredExact | nxs_libs/interface/scheduling_policy/simple_policy_v2.py:764-765 | requests are kept one per key and no key is lost |
| SchedulingCall.LatestIsStored | nxs_libs/interface/scheduling_policy/simple_policy_v2.py:764-765 | of several requests with one key the last is kept |
| SchedulingCall.StoredInOrder | nxs_libs/interface/scheduling_policy/simple_policy_v2.py:764-765 | the keys come in the order in which they are first used |
| SchedulingCall.DictionariesExact | nxs_libs/interface/scheduling_policy/simple_policy_v2.py:750-762 | what is found under an id is what is registered under it, and with a pipeline all of its models are found |
| SchedulingCall.OnlyMentioned | nxs_libs/interface/scheduling_policy/simple_policy_v2.py:750-762 | exactly the pipelines and models that the last and the new requests mention are found |
| SchedulingCall.CallIsOk | nxs_libs/interface/scheduling_policy/simple_policy_v2.py:727-771 | what the last call left and what this one is given meet every condition the steps need, so every lookup succeeds |
| SchedulingCall.AfterCall | nxs_libs/interface/scheduling_policy/simple_policy_v2.py:799-800 | what a call leaves is a good start for the next one |
| SchedulingPolicy.SimpleSchedulingPolicy.GetBestProfile | nxs_libs/interface/scheduling_policy/simple_policy_v2.py:1008-1017 | finds that profile |
| SchedulingPolicy.SimpleSchedulingPolicy.RequiredMemory | nxs_libs/interface/scheduling_policy/simple_policy_v2.py:984-1006 | the result is the sum of the components' needs |
| SchedulingPolicy.SimpleSchedulingPolicy.FindPotentialBackends | nxs_libs/interface/scheduling_policy/simple_policy_v2.py:364-406 | keeps exactly the backends that qualify, in order |
| SchedulingPolicy.SimpleSchedulingPolicy.FindBestBackend | nxs_libs/interface/scheduling_policy/simple_policy_v2.py:327-362 | picks the best of them |
| SchedulingPolicy.SimpleSchedulingPolicy.ChangeFreeMemory | nxs_libs/interface/scheduling_policy/simple_policy_v2.py:971-982 | changes the memory of exactly one backend, and only for a model that needs some |
| SchedulingPolicy.SimpleSchedulingPolicy.AddSchedulingPlan | nxs_libs/interface/scheduling_policy/simple_policy_v2.py:286-325 | adds the backend under the right session and model, and nothing else |
| SchedulingPolicy.SimpleSchedulingPolicy.DeployCModel | nxs_libs/interface/scheduling_policy/simple_policy_v2.py:266-284 | the table, the memory and the backend reported are those specified |
| SchedulingPolicy.SimpleSchedulingPolicy.RemoveCModelFromBackend | nxs_libs/interface/scheduling_policy/simple_policy_v2.py:197-264 | the table and the memory are those specified, the session-dropping behaviour of lines 247-251 included |
| SchedulingPolicy.SimpleSchedulingPolicy.RemoveExpiredBackends | nxs_libs/interface/scheduling_policy/simple_policy_v2.py:408-454 | removes exactly the backends of the last call that are gone |
| SchedulingPolicy.SimpleSchedulingPolicy.RemoveSession | nxs_libs/interface/scheduling_policy/simple_policy_v2.py:464-516 | computes the specified removal and stays ready |
| SchedulingPolicy.SimpleSchedulingPolicy.RemoveUnusedSessions | nxs_libs/interface/scheduling_policy/simple_policy_v2.py:456-462 | removes the unused sessions, each still there when its turn comes |
| SchedulingPolicy.SimpleSchedulingPolicy.ComputePipelinesToRemove | nxs_libs/interface/scheduling_policy/simple_policy_v2.py:921-938 | a pipeline is to be removed exactly if it was requested last time and is not now |
| SchedulingPolicy.NothingLeftOver | nxs_libs/interface/scheduling_policy/simple_policy_v2.py:548-563 | once only requested sessions have plans, none of them belongs to a pipeline that has left |
| SchedulingPolicy.SimpleSchedulingPolicy.RemoveUnusedPipelines | nxs_libs/interface/scheduling_policy/simple_policy_v2.py:527-618 | changes nothing after the removal of unused sessions |
| SchedulingPolicy.SimpleSchedulingPolicy.ComputePipelinesToAdd | nxs_libs/interface/scheduling_policy/simple_policy_v2.py:899-919 | finds the pipelines with a model that has no backend, once each |
| SchedulingPolicy.SimpleSchedulingPolicy.DeployEach | nxs_libs/interface/scheduling_policy/simple_policy_v2.py:87-122 | stops at the first model without a place |
| SchedulingPolicy.SimpleSchedulingPolicy.SharePlans | nxs_libs/interface/scheduling_policy/simple_policy_v2.py:138-146 | appends the shared plans for every session |
| SchedulingPolicy.SimpleSchedulingPolicy.DeployPipeline | nxs_libs/interface/scheduling_policy/simple_policy_v2.py:65-146 | deploys one pipeline or rolls it back, as specified; ready for the next if nothing is shared |
| SchedulingPolicy.SimpleSchedulingPolicy.DeployNewPipelines | nxs_libs/interface/scheduling_policy/simple_policy_v2.py:65-146 | deploys all of them in order and stays ready |
| SchedulingPolicy.SimpleSchedulingPolicy.AssignBackendsToUnscheduledSessions | nxs_libs/interface/scheduling_policy/simple_policy_v2.py:148-195 | lets the unscheduled sessions join |
| SchedulingPolicy.SimpleSchedulingPolicy.ScheduledRate | nxs_libs/interface/scheduling_policy/simple_policy_v2.py:638-666 | counts each backend of a model once, whichever session names it |
| SchedulingPolicy.SimpleSchedulingPolicy.ScaleModelDown | nxs_libs/interface/scheduling_policy/simple_policy_v2.py:682-714 | takes the model off one backend after another |
| SchedulingPolicy.SimpleSchedulingPolicy.ScaleModelUp | nxs_libs/interface/scheduling_policy/simple_policy_v2.py:716-725 | deploys until enough or none is found |
| SchedulingPolicy.SimpleSchedulingPolicy.ScaleSessions | nxs_libs/interface/scheduling_policy/simple_policy_v2.py:620-725 | scales all wanted models on what was measured before the first |
| SchedulingPolicy.SimpleSchedulingPolicy.RunSteps | nxs_libs/interface/scheduling_policy/simple_policy_v2.py:773-791 | the six steps in their order give the specified pool, keep the invariant and the memory bound |
| SchedulingPolicy.SimpleSchedulingPolicy.Schedule | nxs_libs/interface/scheduling_policy/simple_policy_v2.py:727-845 | the new table, memory and requests are the specified ones, the object is ready for the next call, the answer lists exactly the placements in the table |
| Scheduler.AliveExact | main_processes/scheduler/main.py:369-376 | exactly the backends heard of within the timeout are left |
| Scheduler.NxsSchedulerProcess.RegisterBackend | main_processes/scheduler/main.py:186-220 | a backend is added once |
| Scheduler.NxsSchedulerProcess.ProcessHeartbeat | main_processes/scheduler/main.py:350-359 | a heartbeat renews a known backend and no other |
| Scheduler.NxsSchedulerProcess.HasExpiredBackends | main_processes/scheduler/main.py:361-395 | drops exactly the expired backends and says whether there were any |
| Scheduler.NxsSchedulerProcess.ScheduleWorkloads | main_processes/scheduler/main.py:252-289 | keeps the requests as registered although the policy re-keys them, so every later call puts the pipeline id in front once; the scheduling messages list what the policy computed |
| Scheduler.NxsSchedulerProcess.RescheduleWorkloads | main_processes/scheduler/main.py:249-250 | scheduling the kept requests again leaves them as they were |
| Scheduler.NxsSchedulerProcess.CheckExpired | main_processes/scheduler/main.py:144-153 | after backends have left, the new plan sends no scheduling message to any of them |
| Scheduler.PlanNamesCurrent | main_processes/scheduler/main.py:258-282 | every scheduling message goes to a backend the plan was made for |
| Delivery.MessageIsExact | main_processes/backend/main.py:855-861 | a backend is asked to serve exactly what the table places on it |
| Delivery.TableIsServed | main_processes/backend/main.py:855-887 | after its message a backend serves every session placed on it and nothing new besides; every backend something is placed on has a message |
| Delivery.SessionIsServed | main_processes/backend/main.py:855-887 | each session of the table is served on each of its backends, under the id it was registered with |
| Network.StepConserves | main_processes/backend/compute_process.py:152-243 | no step loses or doubles a request |
| Network.StepKeepsUpstream | main_processes/backend/compute_process.py:173-184 | whoever is in its last round has only exited processes upstream |
| Network.WritersGone | main_processes/backend/preprocessing_process.py:120-127 | a process that saw its stop flag reads a queue all of whose writers have exited |
| Network.EveryRunIsSafe | main_processes/backend/compute_process.py:152-243 | both hold in every state of every interleaving of a well-wired network |
| Network.EveryRunConserves | main_processes/backend/compute_process.py:152-243 | whatever the wiring, no interleaving loses or doubles a request on the way |
| Network.NothingTaken | main_processes/backend/preprocessing_process.py:120-127 | what is in a queue when all its readers have made their last read stays there |
| Network.LeftBehindIff | nxs_libs/interface/backend/input/__init__.py:115-126 | whatever the number of its readers, something is left behind in a queue if and only if the last of their last reads is limited and finds more than 32 messages |
| Network.DeliveredIffNotLeft | main_processes/backend/output_process.py:450-457 | after all have exited a request is delivered exactly as often as it is left nowhere |
| Network.DeliversIff | main_processes/backend/output_process.py:450-457 | after a shutdown every request has come out as often as it was admitted if and only if the final read of every queue took all there was |
| NetworkProgress.ExitFirst | main_processes/backend/preprocessing_process.py:341-348 | once the outside flag is set the processes can exit one after the other, each setting the flag of the next |
| NetworkProgress.CanEnd | main_processes/backend/preprocessing_process.py:341-348 | from every state reached from a fresh start a run leads to the exit of all processes |
| Wiring.WireSound | main_processes/backend/main.py:934-988 | after any number of components, whatever their numbers of processes: every flag waited for is the outside one or set by an earlier process, every process has an output, only the first reads from outside, and every queue but the next stage's is read |
| WiringSafety.AddNode | main_processes/backend/main.py:1009-1094 | a process that waits for flags behind which all writers of its queue are gone keeps the network well wired |
| WiringSafety.WireLinked | main_processes/backend/main.py:934-988 | components that each end in one output process, but for the last, are well wired |
| WiringRoutes.WireReady | main_processes/backend/main.py:934-988 | every process waits for some flag and, but for the first, reads what an earlier one writes |
| WiringRoutes.OneReader | main_processes/backend/main.py:1162-1248 | the queue between two components is read by the input process of the second and by nobody else |
| WiringRoles.DeployedRoles | main_processes/backend/main.py:1009-1464 | every component gets as many processes of each kind as it says: preprocessors feed a reader thread each and give what fails to the output processes, reader threads feed the main loop, that the output processes, and everybody waits for exactly those before; the compute process reads to the end, everything else but the first input process at most 32 items at last |
| Shutdown.DeployedCanEnd | main_processes/backend/main.py:934-994 | from every state a deployed model can get into a run leads to the exit of all its processes |
| Shutdown.SafeIffSingleOutputs | main_processes/backend/main.py:1403-1464 | in every interleaving whoever is in its last round reads a queue whose writers have all exited, if and only if every component but the last has exactly one output process |
| Shutdown.DeployedDeliversIff | main_processes/backend/main.py:934-994 | once all processes of a deployed model have exited, every request has come out if and only if the final read of every queue found no more than its reader may take |
| Shutdown.DeployedModelDelivers | main_processes/backend/main.py:934-994 | in particular if no limited last read found more than 32 messages |
| ShutdownLosses.OverflowLoses | nxs_libs/interface/backend/input/__init__.py:115-126 | whenever more than 32 messages arrive at a model of one custom component, some run from its start to its end loses requests |
| Shutdown.FewAreDelivered | main_processes/backend/main.py:934-994 | where every component but the last has one output process, every complete run that admits at most 32 requests delivers them all |
| ShutdownLosses.SharedFlagLoses | main_processes/backend/main.py:1441-1462 | wherever a component that is not the last has several output processes, some run from the start to the end loses the one message that arrives, whatever it is |
| ShutdownLosses.DeliversFewIff | main_processes/backend/main.py:934-994 | all complete runs that admit at most 32 requests deliver them if and only if every component but the last has exactly one output process |
| PipelineBuilder.Builder.DeployInput | main_processes/backend/main.py:1162-1248 | the input process is wired as specified, the first one to the outside queue and flag, a later one to the last queue and flag |
| PipelineBuilder.Builder.DeployPreprocessors | main_processes/backend/main.py:1250-1303 | every preprocessor reads the same queue, writes its own queue and the shared one, and sets its own flag |
| PipelineBuilder.Builder.DeployCompute | main_processes/backend/main.py:1305-1358 | one reader thread per preprocessor, waiting for the flags up to its own, and a main loop behind them all |
| PipelineBuilder.Builder.DeployCustomModel | main_processes/backend/main.py:1360-1401 | a custom component is one process |
| PipelineBuilder.Builder.DeployOutputs | main_processes/backend/main.py:1403-1464 | all output processes read the shared queue; those of the last component write to the outside and set no flag, those of another all write to one queue and set one flag |
| PipelineBuilder.Builder.Deploy | main_processes/backend/main.py:1009-1160 | a component of any kind is wired as specified |
| PipelineBuilder.Builder.Build | main_processes/backend/main.py:934-988 | for any components, with any numbers of processes, every process gets exactly the queues and flags that the specification says |
| InputQueue.MultiprocessingQueue.GetBatch | nxs_libs/interface/backend/input/__init__.py:108-123 | the oldest items, at most as many as asked for, are taken and the rest stays |
| InputQueue.MultiprocessingQueue.CloseAndGetRemains | nxs_libs/interface/backend/input/__init__.py:125-126 | a last read empties the queue exactly if it holds at most 32 items |
| InputQueue.MultiprocessingQueue.DrainInto | main_processes/backend/compute_process.py:104-106 | a reader thread's last reads empty the queue whatever its length |
| Batching.FitIsLargest | main_processes/backend/preprocessing_process.py:307-310 | the largest profiled size that fits |
| Batching.NeverEmptyIff | main_processes/backend/preprocessing_process.py:301-310 | every round takes a request, whatever is waiting, exactly if requests are not batched together, the limit is 1 or size 1 is profiled |
| Batching.ChosenIsLargest | main_processes/backend/preprocessing_process.py:301-310 | what is taken is one request, or the limit, or the largest profiled size there is enough for |
| Batching.SizeIsProfiled | main_processes/backend/preprocessing_process.py:301-310 | no more is taken than waits, and every size is a profiled one within the limit |
| Batching.CutIsPartition | main_processes/backend/preprocessing_process.py:301-331 | cutting into batches loses nothing, keeps the order and uses only such sizes |
| Batching.CutFirst | main_processes/backend/preprocessing_process.py:301-331 | each batch is the longest waiting requests, as many as are to be taken of those waiting then, and cutting goes on with the rest |
| Batching.Concatenate | main_processes/backend/preprocessing_process.py:319-324 | the rows of each tensor name follow one another in the order of the requests |
| Batching.Waiting.SendBatches | main_processes/backend/preprocessing_process.py:301-331 | everything waiting is sent; data and metadata are cut alike |
| Batching.SplitIsAlone | main_processes/backend/compute_process.py:247-265 | each row of an inferred batch is what its request would have got alone |
| Batching.OutputRowExact | main_processes/backend/compute_process.py:254-258 | an answer has the output names and no other, and under each name the request's row of that output |
| Batching.AloneExact | main_processes/backend/compute_process.py:247-258 | a request alone gets, under each output name, the first row of that output of inference on its own tensors |
| Batching.OnlyAnswer | main_processes/backend/compute_process.py:254-258 | there is only one such answer |
| Batching.AnswersExact | main_processes/backend/compute_process.py:247-265 | every request is answered so, with its own metadata |
| Batching.AnswersOfBatch | main_processes/backend/compute_process.py:247-265 | and that is its row of the same output of inference on the whole batch |
| Batching.ProcessNormalBatchable | main_processes/backend/compute_process.py:247-265 | one answer per request of the batch, in order, with the request's own metadata and, under each output name, its own row of that output of the batch, which is the first row of that output of the request alone |
| Batching.ComputeRound | main_processes/backend/compute_process.py:186-222 | a round answers every batch of the buffer from the front |
| Batching.AnyPartsSameAnswers | main_processes/backend/compute_process.py:186-265 | however requests are split into batches the answers are the same |
| Batching.BatchingPreservesMeaning | main_processes/backend/preprocessing_process.py:120-331 | one preprocessor: over any rounds, arrivals and sizes the answers are those of each request alone, in arrival order, each output under its own name |
| Batching.AnyOrderSameAnswers | main_processes/backend/compute_process.py:94-106 | several preprocessors: in whatever order their batches arrive, every request gets that answer, and nothing else comes out |
| CustomModel.OneOutputEachIff | main_processes/backend/custom_model_process.py:221-247 | each request of a batch gets exactly one output if and only if infer raised or returned enough; whatever comes out is in order and for its own task |
| CustomModel.EmittedExact | main_processes/backend/custom_model_process.py:221-247 | request k of a batch gets output k of that batch with its metadata as they were, or, if infer raised, an empty output with exactly that message added |
| CustomModel.CustomModelProcess.RunBatch | main_processes/backend/custom_model_process.py:221-247 | what comes out for request k of the batch is output k of the one call of infer with its own metadata; when infer raises, every request fails with an empty output and the message |
| CustomModel.CustomModelProcess.RunFirst | main_processes/backend/custom_model_process.py:199-247 | each round shortens the four lists and emits what their first batch gives rise to |
| CustomModel.CustomModelProcess.RunBatches | main_processes/backend/custom_model_process.py:199-247 | everything waiting is run, the four lists cut alike |
| CustomModel.EveryRequestAnswered | main_processes/backend/custom_model_process.py:199-247 | if infer always raises or returns enough, every waiting request is answered once, in order, with its own output of the call for its own batch, or as failed with that call's message |
| Routing.Preprocessor.Handle | main_processes/backend/preprocessing_process.py:155-296 | a request goes exactly one of two ways, by the shortcut exactly if it has failed |
| Routing.DecodeErrorsInOrder | main_processes/backend/preprocessing_process.py:153-206 | every input that cannot be decoded leaves its message, in the order of the inputs, and no other does |
| Routing.NoDecodeErrorsIff | main_processes/backend/preprocessing_process.py:153-206 | there is none exactly if all inputs can be decoded |
| Routing.FaultsExact | main_processes/backend/custom_model_process.py:122-164 | a component does no harm exactly if nothing in it goes wrong; a pipelined one stops at the first thing that does, a custom one runs the model all the same |
| Routing.OutputProcess.Handle | main_processes/backend/output_process.py:130-421 | every item leads to exactly one emission, to the place its way prescribes |
| Routing.OutputProcess.HandleAll | main_processes/backend/output_process.py:130-421 | a round emits once per item, in order |
| Routing.StepGoesOn | main_processes/backend/output_process.py:218-284 | a step leads to the next component, to the first component of the next model, or to the frontend |
| Routing.FailedGoesHome | main_processes/backend/output_process.py:133-172 | a failed request passes the rest of its model and goes to the frontend as failed |
| Routing.WayOfUnharmed | main_processes/backend/output_process.py:218-421 | an unharmed request leaves its model unharmed exactly if no component fails it |
| Routing.EveryRequestComesBack | main_processes/backend/output_process.py:130-421 | every request comes back to the frontend once, has visited the models up to the first that failed it or all, and is reported as failed exactly in the first case |
| Routing.MessagesArriveIff | main_processes/backend/custom_model_process.py:122-164 | the messages of the failing component arrive, whatever they are, exactly if no custom component follows it in its model |
| Routing.CompletedWithMessagesIff | main_processes/backend/output_process.py:382-417 | a result with messages is reported as completed exactly if nothing failed but its formatting |
| BackendSessions.ReplayFirst | main_processes/backend/input_process.py:186-213 | replaying commands one at a time from the front is replaying them all |
| BackendSessions.InputProcess.Add | main_processes/backend/input_process.py:83-90 | adds to the parent's table and leaves a command exactly if the session is new |
| BackendSessions.InputProcess.Remove | main_processes/backend/input_process.py:92-95 | removes from the parent's table and leaves a command exactly if it was there |
| BackendSessions.InputProcess.Fetch | main_processes/backend/input_process.py:186-190 | taking a command off the shared list keeps the two tables reconcilable |
| BackendSessions.InputProcess.Execute | main_processes/backend/input_process.py:192-211 | so does carrying it out |
| BackendSessions.InputProcess.Update | main_processes/backend/input_process.py:186-215 | a whole round makes the child's table the parent's |
| BackendSessions.Backend.AddSessions | main_processes/backend/main.py:862-885 | new sessions are added with the arguments of one that is there already; old ones keep theirs |
| BackendSessions.Backend.ProcessUnscheduling | main_processes/backend/main.py:331-378 | the running models and their sessions are those specified; models left without session are stopped; whoever stays keeps its arguments |
| BackendSessions.Backend.StartInput | main_processes/backend/main.py:1177-1196 | every session of a model that is launched is registered under its own arguments |
| BackendSessions.Backend.Launch | main_processes/backend/main.py:934-1005 | a launched model serves exactly the given sessions, each under its own arguments; other models are left alone |
| BackendSessions.Backend.ProcessScheduling | main_processes/backend/main.py:855-1005 | the running models and their sessions are those specified; a model that ran keeps its sessions' arguments and who joins it has those of one that was there; one that did not run was launched by the first entry that names it |
| BackendSessions.Backend.Round | main_processes/scheduler/main.py:268-282 | both messages in the order they are sent: afterwards every running model has a session and all that is planned is served; whoever was served throughout keeps its arguments, who joined has those of one that was served, and a launched model those of the first entry that names it |
| BackendSessions.UnscheduledExact | main_processes/backend/main.py:331-378 | exactly the named sessions stop being served |
| BackendSessions.ScheduledExact | main_processes/backend/main.py:855-1005 | exactly the named sessions of models that run or can be unpacked start being served |
| BackendSessions.PlannedIsServed | main_processes/backend/main.py:855-1005 | every planned session of a model that can be unpacked is served and no running model is idle |
| BackendSessions.RoundConverges | main_processes/backend/main.py:331-378 | from any state: served afterwards is what is planned or was served and not called off |
| BackendSessions.OrderMattersIff | main_processes/scheduler/main.py:268-282 | the order of the two messages matters exactly for what both name |
| PartitionedQueue.StepKeepsAt | nxs_libs/queue/nxs_redis_queue.py:115-144 | each step keeps: pushed to a partition is pulled, buffered, in hand and queued, in this order |
| PartitionedQueue.StepKeepsBound | nxs_libs/queue/nxs_redis_queue.py:125-139 | each step keeps the buffer and the readers past their check within the bound |
| PartitionedQueue.EveryRun | nxs_libs/queue/nxs_redis_queue.py:115-235 | both under all interleavings of pushes, readers, resizing, pulls and closing; the buffer never exceeds the largest size set, less one, plus the largest number of readers |
| PartitionedQueue.StartIsGood | nxs_libs/queue/nxs_redis_queue.py:46-73 | a puller just made is within the bound and has lost nothing |
| PartitionedQueue.NothingLostOnClose | nxs_libs/queue/nxs_redis_queue.py:217-230 | from every state closing leads to the end of all readers and pulling then to an empty buffer; no queue is touched, and whatever had left them has been returned |
| PartitionedQueue.BoundIsReached | nxs_libs/queue/nxs_redis_queue.py:125-139 | for every size and every number of readers some run from a fresh start fills the buffer up to the bound |
| PartitionedQueue.NextInTurn | nxs_libs/queue/nxs_redis_queue.py:355-358 | taking turns keeps any two loads within one of each other |
| PartitionedQueue.Pusher.Refresh | nxs_libs/queue/nxs_redis_queue.py:345-352 | a look-up starts with the first partition again |
| PartitionedQueue.Pusher.Choose | nxs_libs/queue/nxs_redis_queue.py:354-358 | the partition whose turn it is gets the item |
| PartitionedQueue.Pusher.Push | nxs_libs/queue/nxs_redis_queue.py:344-368 | one item to one partition; between look-ups loads differ by at most one |
| WorkloadWindow.YoungIsSuffix | nxs_libs/interface/workload_manager/simple_policy.py:106-116 | with a clock that never goes back, the reports younger than the timeout are the end of the history |
| WorkloadWindow.WindowIsYoung | nxs_libs/interface/workload_manager/simple_policy.py:106-125 | the two lists, once their front is young, are that filter of the whole history |
| WorkloadWindow.RateExact | nxs_libs/interface/workload_manager/simple_policy.py:131-142 | a rate times the age of the oldest young report is the sum of the young reports; an age below a second counts as one; there is a rate exactly if that sum is positive |
| WorkloadWindow.PinnedAdds | nxs_libs/interface/workload_manager/simple_policy.py:155-159 | a pinned rate comes on top of what is reported, and a pinned workload always has a message |
| WorkloadWindow.WorkloadPolicy.AddWorkload | nxs_libs/interface/workload_manager/simple_policy.py:87-104 | the report goes to the end of both lists of its workload, no other changes; it is new exactly if the key was not there |
| WorkloadWindow.WorkloadPolicy.Prune | nxs_libs/interface/workload_manager/simple_policy.py:106-116 | the lists become the filter of the whole history at the last look at the clock |
| WorkloadWindow.WorkloadPolicy.RemoveExpiredOf | nxs_libs/interface/workload_manager/simple_policy.py:106-125 | and the key is there exactly if that filter is not empty |
| WorkloadWindow.WorkloadPolicy.RemoveExpired | nxs_libs/interface/workload_manager/simple_policy.py:127-129 | for every workload |
| WorkloadWindow.WorkloadPolicy.GetWorkloads | nxs_libs/interface/workload_manager/simple_policy.py:131-142 | a workload has a rate exactly if its window, taken at some moment of the call, adds up to something: the sum over the age of its oldest report, at least one second, at a later moment of the call |
| WorkloadWindow.WorkloadPolicy.GenerateMessages | nxs_libs/interface/workload_manager/simple_policy.py:150-172 | one message per workload that has a rate or is pinned, with the sum of both; an error exactly if one of their keys does not have two parts |
| WorkloadWindow.WorkloadPolicy.GenerateSchedulingMessages | nxs_libs/interface/workload_manager/simple_policy.py:144-172 | one message per workload whose history has a live window or that is pinned, with the rate of that window of the history plus the pinned rate; an error exactly if one of their keys does not have two parts |
| WorkloadWindow.TwoPartsIff | nxs_libs/interface/workload_manager/simple_policy.py:162-164 | a key can be taken apart into its two ids exactly if neither has an underscore |
| Nms.RatioInRange | examples/yolox_s/yolox_postprocessing.py:42-57 | for well-formed boxes the denominator is positive and the overlap between 0 and 1 |
| NmsMeaning.PassesIsPixelRatio | examples/yolox_s/yolox_postprocessing.py:49-59 | for boxes whose corners are pixels the test is that of intersection over union, counted in pixels |
| Nms.SurvivorsOf | examples/yolox_s/yolox_postprocessing.py:49-60 | exactly the candidates that do not overlap the kept box too much are left |
| Nms.Nms | examples/yolox_s/yolox_postprocessing.py:35-62 | the loop ends and computes the greedy selection |
| Nms.GreedyIsKept | examples/yolox_s/yolox_postprocessing.py:46-62 | the greedy algorithm computes the simple form: keep what survives next to everything kept so far |
| Nms.DroppedIsSuppressed | examples/yolox_s/yolox_postprocessing.py:59-60 | every dropped box is suppressed by a better kept one |
| Nms.KernelIsKept | examples/yolox_s/yolox_postprocessing.py:46-62 | the kept set is the only one in which a box is exactly if no better member suppresses it |
| Nms.NmsIsIdempotent | examples/yolox_s/yolox_postprocessing.py:35-62 | a second run on the kept boxes, in whatever order they are sorted then, keeps them all |
| Nms.NmsIsCorrect | examples/yolox_s/yolox_postprocessing.py:35-62 | all of this for boxes and scores, and the result is not empty for non-empty input |
| Nms.ArgMaxIsFirstHighest | examples/yolox_s/yolox_postprocessing.py:67-68 | the class chosen is the first with the highest score |
| Nms.NmsAbove | examples/yolox_s/yolox_postprocessing.py:70-76 | only boxes above the threshold, and some exactly if there are any |
| NmsMeaning.KeptAboveIsKept | examples/yolox_s/yolox_postprocessing.py:70-76 | what is kept are numbers of boxes in the whole list: those the simple form keeps of all boxes above the threshold, in descending order of their scores |
| Nms.BestScoresExact | examples/yolox_s/yolox_postprocessing.py:67-68 | a box counts with the highest of its scores |
| Nms.MulticlassAgnostic | examples/yolox_s/yolox_postprocessing.py:65-86 | there is a result exactly if some best score is above the threshold; then it is bound, not empty, and each box carries its best class |
| Nms.MulticlassAware | examples/yolox_s/yolox_postprocessing.py:89-110 | suppression within each class; no result exactly if no score of any class is above the threshold |
| NmsMeaning.ByClassExact | examples/yolox_s/yolox_postprocessing.py:89-110 | a box is reported for a class exactly if it is kept among the boxes with their scores for that class; classes come in order |
| CropPadding.Pad | apps/vehicle_counting/worker/utils.py:162-175 | the border is all average, corners included, and the image is unchanged inside |
| CropPadding.Crop | apps/vehicle_counting/worker/utils.py:143-190 | wherever the square lies, every slice is in bounds, the patch has the size asked for, and each cell is the pixel there or the average |
| CropPadding.Round | apps/vehicle_counting/worker/utils.py:146-148 | to the nearest integer, to the even one of two |
| CropPadding.CornerCentres | apps/vehicle_counting/worker/utils.py:145-149 | the middle of the square lies between half a pixel and one and a half before the centre asked for |
| CropPadding.Preprocess | apps/vehicle_counting/worker/utils.py:143-190 | the same for any centre, even far off the image |
| VehicleCounting.OfflineWorker.RemoveInactiveTracks | apps/vehicle_counting/worker/offline_worker.py:770-778 | exactly the active tracks stay |
| VehicleCounting.OfflineWorker.RemoveOutOfRoisTracks | apps/vehicle_counting/worker/offline_worker.py:780-798 | exactly the tracks still touching their region stay |
| VehicleCounting.OfflineWorker.RemoveExpiredObjects | apps/vehicle_counting/worker/offline_worker.py:800-811 | exactly the tracks seen recently stay |
| VehicleCounting.OfflineWorker.FindMatchedObjects | apps/vehicle_counting/worker/offline_worker.py:881-908 | the first of the best overlapping eligible tracks, and all that overlap enough to be duplicates |
| VehicleCounting.OfflineWorker.DetectionIsPlaced | apps/vehicle_counting/worker/offline_worker.py:821-875 | a detection that matters prolongs, with its box and score, the first of the tracks whose latest boxes it overlaps best, or starts a track under the next id in the first region it lies in; any other changes nothing |
| VehicleCounting.OfflineWorker.DuplicatesExact | apps/vehicle_counting/worker/offline_worker.py:881-908 | to be dropped is exactly who overlaps a detection enough with its latest box, all but the best |
| VehicleCounting.OfflineWorker.NewTracksStay | apps/vehicle_counting/worker/offline_worker.py:813-879 | tracks begun in a frame are neither prolonged nor dropped in it, ids count up, older tracks keep their places |
| VehicleCounting.OfflineWorker.ProcessDetection | apps/vehicle_counting/worker/offline_worker.py:816-875 | one detection has exactly that effect, duplicates being reported |
| VehicleCounting.OfflineWorker.ProcessDetections | apps/vehicle_counting/worker/offline_worker.py:813-879 | all detections in order, then exactly the duplicates go |
| VehicleCounting.OfflineWorker.FollowTracks | apps/vehicle_counting/worker/offline_worker.py:167-187 | every track gains one box and one score per remaining frame and turns inactive exactly if a score is too low |
| VehicleCounting.OfflineWorker.CountFrame | apps/vehicle_counting/worker/offline_worker.py:275-299 | in one frame the first uncounted track that passes is counted, no other; every prefix of boxes looked at is non-empty |
| VehicleCounting.OfflineWorker.CountFrames | apps/vehicle_counting/worker/offline_worker.py:268-299 | frame after frame; the tally grows by exactly the tracks counted |
| VehicleCounting.OfflineWorker.Round | apps/vehicle_counting/worker/offline_worker.py:228-326 | the tracks and counts after a whole round are the specified ones; ids are never used again, counts never drop and each counter is the number of tracks ever counted for its line and class |
| VehicleCounting.IsPassingLine | apps/vehicle_counting/worker/offline_worker.py:746-768 | true exactly if three pairs of boxes, outermost first, are all on different sides in the sense of the product test, for at least six boxes |
| VehicleCounting.KeepInOrder | apps/vehicle_counting/worker/offline_worker.py:770-811 | tracks that stay keep their order |
| VehicleCounting.FollowedExact | apps/vehicle_counting/worker/offline_worker.py:165-187 | a track has gained the tracker's boxes and scores in their order, and is still active exactly if it was and no score is below the threshold |
| VehicleCounting.SeenUpTo | apps/vehicle_counting/worker/offline_worker.py:275-292 | the boxes looked at in frame f of a round are those from before, that of the first frame, and one for each frame since up to this one |
| LineTest.SameSideIffQuadrants | apps/vehicle_counting/worker/offline_worker.py:746-766 | two boxes count as being on the same side if and only if their centres lie strictly in the same or in opposite quadrants about the midpoint of the line |
| LineTest.OnlyMidpointMatters | apps/vehicle_counting/worker/offline_worker.py:746-768 | lines with the same midpoint are passed by the same tracks |
| LineTest.RightOnHorizontalIff | apps/vehicle_counting/worker/offline_worker.py:758-766 | on a horizontal line exactly when that agrees with being strictly on one side of it, over coordinates |
| LineTest.RightOnVerticalIff | apps/vehicle_counting/worker/offline_worker.py:758-766 | the same for a vertical line |
| LineTest.RightOffTheLineIff | apps/vehicle_counting/worker/offline_worker.py:758-766 | on an oblique line, boxes in the two quadrants it does not run through always count as being on the same side, which is right if and only if they are in the same one |
| LineTest.PassingIsCrossingIff | apps/vehicle_counting/worker/offline_worker.py:746-768 | on a horizontal line exactly when the whole test agrees with crossing |
| LineTest.EveryLineMisjudged | apps/vehicle_counting/worker/offline_worker.py:746-768 | for every line there is a track that passes without leaving its side and one that crosses without passing |
| LineTest.StandingIsPassing | apps/vehicle_counting/worker/offline_worker.py:746-768 | a vehicle that stands still above the middle of a line passes it |
| LineTest.CrossingIsNotPassing | apps/vehicle_counting/worker/offline_worker.py:746-768 | one that crosses from the left half of a line to the right half does not |
| LineTest.CountedInFrameIff | apps/vehicle_counting/worker/offline_worker.py:275-292 | a track not counted yet is counted in a frame if and only if it passes its line there and no uncounted track before it does |
| LineTest.SecondIsNotCounted | apps/vehicle_counting/worker/offline_worker.py:286-292 | of two vehicles that pass only in the last frame, side by side, the second is not counted |
| VehicleCounting.CountOne | apps/vehicle_counting/worker/offline_worker.py:286-291 | counting a track not counted before raises exactly one counter and keeps all of them exact |
| VehicleCounting.CountsNeverDrop | apps/vehicle_counting/worker/offline_worker.py:286-291 | a tally that only grows lets no counter go down |
| VehicleCounting.CountedInTurn | apps/vehicle_counting/worker/offline_worker.py:275-292 | although only one track is counted per frame, one that passes for as many frames as there are uncounted ones before it, and one more, has been counted by then |

## Left out

Placement and scaling:

- The report of what is unscheduled: lines 437-443 name a stale backend and lines 229-238 report only the first removal per session, so it is neither complete nor correct.
- Aliasing of shared plan objects: a shared plan is appended as a value, which is what the code does up to that point; later changes through the alias are not modelled, and theorems on whole calls exclude sharing.
- GPU memory from one call to the next: every call starts again from what backends report, so the memory claims are per call.
- Rounding of floating point: rates, memory, scores and overlaps are reals.
- Dictionaries are sequences in insertion order, and a loop that collects keys and pops them afterwards is one pass that keeps the rest.
- PolicyAllOrNothing.DeployPipelineGood: excludes a pipeline that shares a model with one already deployed, because the order of the table is then lost; `PolicyPlacement.OrderedIff` and `PolicySharing.CallOrderedIff` have the exact condition, for this and the following members.
- PolicyAllOrNothing.DeployPipelinesGood: excludes such pipelines.
- PolicyRuns.ScheduleKeeps: excludes calls that deploy such pipelines.
- PolicyRuns.ScheduleScales: excludes such calls.
- PolicyRuns.ScheduleAllOrNothing: excludes such calls.
- PolicyOmissions.OmittedOnlyIfFull: excludes such calls.
- SchedulingPolicy.SimpleSchedulingPolicy.DeployNewPipelines: excludes such pipelines.
- SchedulingPolicy.SimpleSchedulingPolicy.RunSteps: excludes such calls.
- SchedulingPolicy.SimpleSchedulingPolicy.Schedule: excludes such calls.
- Scheduler.NxsSchedulerProcess.CheckExpired: excludes such calls, and so do `ScheduleWorkloads` and `RescheduleWorkloads`; unscheduling messages, which can name a backend that has left, are not modelled.
- Scheduler.PlanNamesCurrent: speaks of scheduling messages only.
- SchedulingPolicy.SimpleSchedulingPolicy.RemoveCModelFromBackend: the report of what is unscheduled is not modelled.
- SchedulingPolicy.SimpleSchedulingPolicy.RemoveExpiredBackends: the report of what is unscheduled is not modelled.
- SchedulingPolicy.SimpleSchedulingPolicy.RemoveSession: the report of what is unscheduled is not modelled.
- PolicyRuns.EveryRun: excludes such calls as well, and asks that pipeline definitions are fixed per id, requested rates and profiled rates are positive, models of a pipeline are distinct, ids have no underscore, and a backend never changes between GPU and CPU.
- PolicyComponents.EveryRunIsConfigured: speaks of the profiles registered for an id, which are fixed over a run.
- SchedulingPolicy.SimpleSchedulingPolicy.RemoveUnusedPipelines: the reference counting inside is only bounded, because nothing is ever removed by it.
- SchedulingPolicy.SimpleSchedulingPolicy.ScheduledRate: measured model by model where the code walks the sessions once; the counted keys are the same.
- Scheduler.NxsSchedulerProcess.ScheduleWorkloads: sends its messages by returning them; logs, the state database and the caches of pipeline definitions are not modelled.
- Scheduler.NxsSchedulerProcess.RegisterBackend: the heartbeat interval sent back is not modelled.
- Delivery.TableIsServed: what a backend should stop serving comes from the unschedule message, which is a parameter of the backend's round.

Processes:

- Network.EveryRunIsSafe: queues are atomic and reliable; timeouts of concurrent reads, failures of inference in the compute process, the pause flag, process termination and sleeps are not modelled.
- Network.DeliversIff: the input dispatcher is one that schedules everything at once, as the default one does.
- NetworkProgress.CanEnd: says that a run to the end exists from every state; that the operating system schedules every process often enough is not modelled.
- PipelineBuilder.Builder.Build: asks for at least one component and at least one process of every kind.
- Batching.ProcessNormalBatchable: the other path, with a transforming function or without batching, is not modelled; inference is row-wise with one row per request.
- InputQueue.MultiprocessingQueue.GetBatch: a read cut short by its timeout is not modelled; it is one more round.
- Routing.EveryRequestComesBack: inference that raises in a compute process, and a custom model that returns too few outputs, are not among the faults; it follows one request; what can go wrong with it is given, whichever batch it was in.
- BackendSessions.Backend.ProcessScheduling: downloads are a given set of models that cannot be unpacked; files, latencies and statistics are not modelled.
- Model files, caches, monitoring totals, throughput logs and latency bookkeeping.

Queues and rates:

- PartitionedQueue.EveryRun: list operations and queue commands are atomic; reconnecting and key expiry are not modelled.
- PartitionedQueue.Pusher.Push: the stored number of partitions is at least one.
- WorkloadWindow.WorkloadPolicy.GenerateSchedulingMessages: the loop that calls it and its reporting interval are not modelled.

Vision:

- Nms.NmsIsCorrect: sorting is any order of descending scores; box decoding, grids and array conversions are not modelled.
- CropPadding.Crop: the resizing of the patch at the end is not modelled.
- CropPadding.Preprocess: the average is given and the final resizing is not modelled.
- VehicleCounting.OfflineWorker.Round: detector, tracker, overlap and region tests are parameters; tracks are followed one after another where the code uses threads; video, reporting and drawing are not modelled; there is a line for every region and the merging threshold is not negative.
- The online worker, the batcher process and the older scheduling plan, which repeat or are not wired in.
