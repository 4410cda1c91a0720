# DomeOS deployment rollout and custom base images, in Dafny

This project models two services of DomeOS, a Kubernetes-based deployment platform.

**`DeploymentUpdater`** rolls a deployment over to a destination version:
- It finds or creates the replication controller (RC) of the destination version.
- It repeatedly picks the highest-version RC still running and moves its replicas over, one generation at a time, through a single-step converger.
- In fixed-replica mode, once the destination has enough replicas, it cuts over: it deletes every other RC and its pods.
- Finally it tops up the destination and waits until all pods are ready.

Around this sit a small status machine (`start`, `getStatus`, `stop`, `close`, `checkStatus`) and the background task (`UpdateDeployment.run`).

**`BaseImageCustomServiceImpl`** accepts a request for a custom base image. It:
- drops unusable environment settings and files;
- generates the Dockerfile and the `{"files" : [...]}` manifest when none was submitted;
- builds the build job's environment map;
- answers the build job's secret-gated downloads;
- checks a name before a build;
- records the build job's status callback and publishes the image into the base-image catalogue.

The files:

- `java_text.dfy` (module `JavaText`) holds what both services take from the JDK and commons-lang:
  - nullable references as `Option` and thrown exceptions as `Result`;
  - list filtering, `String.valueOf(int)` and `Integer.parseInt`;
  - `Character.isWhitespace`, `StringUtils.isBlank` and `String.startsWith`.
- `kube_cluster.dfy` (module `KubeCluster`) is the Kubernetes cluster as the client sees it:
  - RCs, pods and secrets form a value of type `Cluster`;
  - each client call (list by labels, read, create, scale, delete) is a function from one cluster to the next;
  - names identify objects within the namespace (`NamesIdentify`), as the API server guarantees.
- `updater.dfy` (module `Updater`) is the rollout:
  - the class `DeploymentUpdater` holds the fields the source updates in place;
  - the loops of `selectMaxVersionRC`, `deleteOtherRC`, `waitRCSuccess` and the migration loop of `run` are methods with loop invariants;
  - each method is proved against a specification function or predicate (`MaxVersionRC`, `PlanGeneration`, `WaitOutcome`, `Acquisition`, `RolloutRecorded`).
- `image_service.dfy` (module `ImageService`) is the base-image service:
  - `BaseImageCustom` is a class whose fields the service sets;
  - the filter and generation loops are methods proved against functions (`KeptEnvs`, `GeneratedDockerfile`, `Saved`, `FileJson`);
  - the lookups and decisions that change nothing are functions.

Some source quirks are kept as written:
- The readiness wait compares pod counts with the field `replicas`, which stays 0 for the keep-quantity constructors.
- `deleteOtherRC` reads element 0 of a possibly empty list. On an empty list it throws `IndexOutOfBoundsException`, which `run` turns into a failure reason.
- `checkStatus` never marks Failed.
- `selectMaxVersionRC` starts its running maximum at -1, so an RC labelled with a version of -1 or less is never chosen.
- The Env loop of `addRelatedFileInfo` repeats an emptiness guard that filtering has already made pass. The file loop does the same with its blank-name guard.

Parameters stand in for everything outside the two classes:
- how each converger step ends (`outcome`);
- what each readiness poll observes (`waitTrace`);
- the MD5 file store (`saveFile`);
- `FileInfo.toJson` (`toJson`);
- the DAO lookups;
- the private registry;
- the clock (`now`);
- the current user;
- `checkLegality`.

## Model

| member | source | states |
|---|---|---|
| JavaText.Filter | DomeOS/src/main/java/org/domeos/framework/api/service/image/impl/BaseImageCustomServiceImpl.java:131-146 | the copy loops keep exactly the elements that pass the test, and never grow the list |
| JavaText.FilterConcat | DomeOS/src/main/java/org/domeos/framework/api/service/image/impl/BaseImageCustomServiceImpl.java:131-146 | filtering distributes over concatenation, so kept elements keep their relative order |
| JavaText.ParseIntToString | DomeOS/src/main/java/org/domeos/framework/engine/k8s/updater/DeploymentUpdater.java:136 | `Integer.parseInt(String.valueOf(n)) == n`: a version label or IMAGEID written in decimal reads back as the same number |
| JavaText.IntToStringInjective | DomeOS/src/main/java/org/domeos/framework/api/service/image/impl/BaseImageCustomServiceImpl.java:471 | different numbers have different decimal texts |
| KubeCluster.RcsOfDeployment | DomeOS/src/main/java/org/domeos/framework/engine/k8s/updater/DeploymentUpdater.java:121 | listing by the deployment selector returns exactly the RCs carrying that deployment id |
| KubeCluster.RcsOfVersion | DomeOS/src/main/java/org/domeos/framework/engine/k8s/updater/DeploymentUpdater.java:309-310 | listing by the target RC's labels returns exactly the RCs of that deployment and version |
| KubeCluster.PodsOf | DomeOS/src/main/java/org/domeos/framework/engine/k8s/updater/DeploymentUpdater.java:164 | listing by an RC's selector returns exactly the pods it selects |
| KubeCluster.FindRc | DomeOS/src/main/java/org/domeos/framework/engine/k8s/updater/DeploymentUpdater.java:344 | reading an RC by name finds a listed RC of that name, or reports that none exists |
| KubeCluster.CreateRc | DomeOS/src/main/java/org/domeos/framework/engine/k8s/updater/DeploymentUpdater.java:327 | creation fails exactly when the name is taken; otherwise the RC is added |
| KubeCluster.ScaleRc | DomeOS/src/main/java/org/domeos/framework/engine/k8s/updater/DeploymentUpdater.java:384 | scaling changes the desired count of the RC of that name and nothing else |
| KubeCluster.DeleteRc | DomeOS/src/main/java/org/domeos/framework/engine/k8s/updater/DeploymentUpdater.java:165 | deleting by name removes exactly the RC of that name |
| KubeCluster.DeletePod | DomeOS/src/main/java/org/domeos/framework/engine/k8s/updater/DeploymentUpdater.java:168 | deleting by name removes exactly the pod of that name |
| KubeCluster.CreateSecret | DomeOS/src/main/java/org/domeos/framework/engine/k8s/updater/DeploymentUpdater.java:318-321 | the pull secret exists afterwards and nothing else changes |
| KubeCluster.CreateThenInfo | DomeOS/src/main/java/org/domeos/framework/engine/k8s/updater/DeploymentUpdater.java:327 | a created RC is found under its name afterwards, and names still identify RCs |
| KubeCluster.ScaleThenInfo | DomeOS/src/main/java/org/domeos/framework/engine/k8s/updater/DeploymentUpdater.java:381-384 | after a scale, reading the RC reports the new count |
| KubeCluster.ScaleOtherInfo | DomeOS/src/main/java/org/domeos/framework/engine/k8s/updater/DeploymentUpdater.java:381-384 | a scale leaves every RC of another name as it was |
| KubeCluster.ScaleKeepsNames | DomeOS/src/main/java/org/domeos/framework/engine/k8s/updater/DeploymentUpdater.java:384 | scaling keeps names identifying RCs |
| KubeCluster.SubClusterKeepsNames | DomeOS/src/main/java/org/domeos/framework/engine/k8s/updater/DeploymentUpdater.java:159-171 | deleting objects keeps names identifying the rest |
| Updater.HealedStatus | DomeOS/src/main/java/org/domeos/framework/engine/k8s/updater/DeploymentUpdater.java:200-210 | a finished task always leaves a terminal phase; a non-terminal phase becomes Failed with the executor message; otherwise the status is untouched |
| Updater.MaxVersionRC | DomeOS/src/main/java/org/domeos/framework/engine/k8s/updater/DeploymentUpdater.java:119-143 | none exactly when no listed RC has nonzero replicas, a version other than the destination's and a version above the running maximum's start of -1; otherwise such an RC from the list whose version is the largest among all such RCs |
| Updater.MaxVersionRCIsFirst | DomeOS/src/main/java/org/domeos/framework/engine/k8s/updater/DeploymentUpdater.java:137-140 | among RCs of equal version the first listed wins: every candidate before it has a strictly smaller version |
| Updater.SelectMaxVersionRC | DomeOS/src/main/java/org/domeos/framework/engine/k8s/updater/DeploymentUpdater.java:119-143 | the scan with a running maximum starting at -1 returns exactly MaxVersionRC |
| Updater.ScaleToZeroShrinks | DomeOS/src/main/java/org/domeos/framework/engine/k8s/updater/DeploymentUpdater.java:342-378 | scaling a source candidate to zero leaves strictly fewer candidates |
| Updater.StepShrinksCandidates | DomeOS/src/main/java/org/domeos/framework/engine/k8s/updater/DeploymentUpdater.java:342-378 | a successful converger step keeps names identifying RCs, gives the destination the planned count, and removes one candidate, so the migration loop terminates |
| Updater.TopUpKeepsNoCandidate | DomeOS/src/main/java/org/domeos/framework/engine/k8s/updater/DeploymentUpdater.java:383-385 | the final top-up of the destination creates no new source candidate |
| Updater.PlanGeneration | DomeOS/src/main/java/org/domeos/framework/engine/k8s/updater/DeploymentUpdater.java:344-361 | cut over exactly in fixed mode with current ≥ replicas; keep-quantity mode targets current + source; fixed mode targets min(replicas, current + source), never above replicas; a source with replicas always raises the target |
| Updater.WaitTimeoutMillis | DomeOS/src/main/java/org/domeos/framework/engine/k8s/updater/DeploymentUpdater.java:386-387 | five minutes per destination replica, and five minutes when the count is not positive |
| Updater.WaitTimeoutMonotone | DomeOS/src/main/java/org/domeos/framework/engine/k8s/updater/DeploymentUpdater.java:386-387 | a larger destination count never gets a shorter wait |
| Updater.DeletePods | DomeOS/src/main/java/org/domeos/framework/engine/k8s/updater/DeploymentUpdater.java:166-170 | every listed pod's name is gone, every other pod stays, and RCs and secrets are unchanged |
| Updater.DeleteOneOther | DomeOS/src/main/java/org/domeos/framework/engine/k8s/updater/DeploymentUpdater.java:164-170 | the RC and every pod it selects are gone; what was gone stays gone; nothing outside the other RCs and their pods is touched |
| Updater.DeleteOtherRC | DomeOS/src/main/java/org/domeos/framework/engine/k8s/updater/DeploymentUpdater.java:153-172 | fails with IndexOutOfBounds(0, 0) exactly when the deployment has no RC; otherwise names still identify RCs, an RC is left exactly when it was there and is not another version of the deployment, a pod is left exactly when it was there and no deleted RC selects it, and secrets are kept |
| Updater.CutOverDone | DomeOS/src/main/java/org/domeos/framework/engine/k8s/updater/DeploymentUpdater.java:159-172 | once every other RC is gone and everything else kept, the cluster is exactly the cut-over of the one the deletion started from |
| Updater.FirstSettled | DomeOS/src/main/java/org/domeos/framework/engine/k8s/updater/DeploymentUpdater.java:271-285 | the poll loop stops at the first observation with a null pod list, all replicas up, or the budget spent |
| Updater.WaitPassesIffAllUp | DomeOS/src/main/java/org/domeos/framework/engine/k8s/updater/DeploymentUpdater.java:260-285 | the wait passes exactly when the RC exists and the first stopping observation has ready count and pod count both equal to `replicas` |
| Updater.WaitRCSuccess | DomeOS/src/main/java/org/domeos/framework/engine/k8s/updater/DeploymentUpdater.java:257-286 | a missing RC throws; otherwise the loop ends as the first stopping observation says: null list, all up, or timeout with its message |
| Updater.ReplaysGrounded | DomeOS/src/main/java/org/domeos/framework/engine/k8s/updater/DeploymentUpdater.java:340-379 | every generation of a replayed history chose the source selectMaxVersionRC picks in the cluster it started from, and read the destination's live count there |
| Updater.ReplaysLinked | DomeOS/src/main/java/org/domeos/framework/engine/k8s/updater/DeploymentUpdater.java:363-379 | each generation after the first started in the cluster the previous generation's successful converger step left |
| Updater.ExtendReplays | DomeOS/src/main/java/org/domeos/framework/engine/k8s/updater/DeploymentUpdater.java:340-379 | appending a generation grounded in the cluster the last one left keeps the history replaying from the loop's starting cluster |
| Updater.AfterShiftInfo | DomeOS/src/main/java/org/domeos/framework/engine/k8s/updater/DeploymentUpdater.java:344-376 | a successful converger step leaves names identifying RCs, the destination at the count it set, and its source RC at 0 replicas |
| Updater.ReplaysHandOver | DomeOS/src/main/java/org/domeos/framework/engine/k8s/updater/DeploymentUpdater.java:344-379 | the next generation reads back the destination count the previous one set, and finds the previous source drained |
| Updater.ReplaysPlannedHandOver | DomeOS/src/main/java/org/domeos/framework/engine/k8s/updater/DeploymentUpdater.java:344-379 | the count a generation set is PlanGeneration of the live count it read and its source's count, and the next generation reads that count back |
| Updater.ResumedLive | DomeOS/src/main/java/org/domeos/framework/engine/k8s/updater/DeploymentUpdater.java:378-383 | after generations that all shifted replicas, the destination holds the count the last one set |
| Updater.Generation | DomeOS/src/main/java/org/domeos/framework/engine/k8s/updater/DeploymentUpdater.java:344-376 | one generation follows PlanGeneration of the live destination count: a cut-over is deleteOtherRC's cut-over of the cluster it found; otherwise the cached target takes the planned count; a failed step reports the converger's reason over the cluster it found; a successful one scales the source to 0 and the destination to the plan and shrinks the candidates |
| Updater.CutOverKeepsLoopState | DomeOS/src/main/java/org/domeos/framework/engine/k8s/updater/DeploymentUpdater.java:350-355 | a cut-over generation keeps the loop's invariant with the cut-over recorded last |
| Updater.StepFailureKeepsLoopState | DomeOS/src/main/java/org/domeos/framework/engine/k8s/updater/DeploymentUpdater.java:363-373 | a generation whose step failed keeps the loop's invariant with that step's reason |
| Updater.StepSuccessKeepsLoopState | DomeOS/src/main/java/org/domeos/framework/engine/k8s/updater/DeploymentUpdater.java:344-378 | a successful generation keeps the loop's invariant; in keep-quantity mode the destination count is the acquired count plus every source moved |
| Updater.ShiftedCluster | DomeOS/src/main/java/org/domeos/framework/engine/k8s/updater/DeploymentUpdater.java:344-378 | after a successful step the destination keeps its name and labels, holds the count set, secrets are kept and names still identify RCs |
| Updater.LoopStarts | DomeOS/src/main/java/org/domeos/framework/engine/k8s/updater/DeploymentUpdater.java:340-342 | before the first generation the loop's state holds with an empty history over the acquired cluster |
| Updater.Advance | DomeOS/src/main/java/org/domeos/framework/engine/k8s/updater/DeploymentUpdater.java:342-378 | one turn of the migration loop appends exactly the generation it ran (a Cutover, or a Shift with the live count it read and the planned count, both over the current cluster and selectMaxVersionRC's pick), keeps the loop's invariant, and leaves fewer candidates if it goes on |
| Updater.MigrationLoop | DomeOS/src/main/java/org/domeos/framework/engine/k8s/updater/DeploymentUpdater.java:340-379 | the loop ends in a cut-over, a failed step, or with no source RC left; every recorded generation chose selectMaxVersionRC's pick in the cluster it started from, read the live count there, followed PlanGeneration, and started where the previous successful step left off |
| Updater.FinalStep | DomeOS/src/main/java/org/domeos/framework/engine/k8s/updater/DeploymentUpdater.java:381-387 | reads the live count first; tops up to `replicas` only in fixed mode when short; the wait budget comes from the count read before the top-up; the wait's outcome is WaitOutcome |
| Updater.CutOverRecorded | DomeOS/src/main/java/org/domeos/framework/engine/k8s/updater/DeploymentUpdater.java:350-355 | a cut-over ends the rollout Succeed with no final step |
| Updater.StepFailureRecorded | DomeOS/src/main/java/org/domeos/framework/engine/k8s/updater/DeploymentUpdater.java:367-372 | a failed converger step ends the rollout Failed with that reason, and no further generation runs |
| Updater.DrainedRecorded | DomeOS/src/main/java/org/domeos/framework/engine/k8s/updater/DeploymentUpdater.java:381-393 | after the final step over the cluster the last successful step left, the rollout is Succeed exactly when the wait passes, otherwise Failed with the catch arm's reason |
| Updater.DrainedFinal | DomeOS/src/main/java/org/domeos/framework/engine/k8s/updater/DeploymentUpdater.java:381-389 | the final top-up and wait are recorded over the cluster the last successful step left, with the budget from the count read before the top-up |
| Updater.Conclude | DomeOS/src/main/java/org/domeos/framework/engine/k8s/updater/DeploymentUpdater.java:350-393 | the task concludes as RolloutRecorded says for each way the loop ended |
| Updater.Rollout | DomeOS/src/main/java/org/domeos/framework/engine/k8s/updater/DeploymentUpdater.java:340-393 | after acquisition the task leaves a terminal status and a history replaying from the acquired cluster; a failed step fails with its reason over the cluster it found, a cut-over succeeds with deleteOtherRC's cut-over, and a drained loop ends as the final wait says |
| Updater.FixedModeNeverOvershoots | DomeOS/src/main/java/org/domeos/framework/engine/k8s/updater/DeploymentUpdater.java:356-361 | in fixed mode every later generation finds the live destination count at most `replicas`, and a drained rollout that ran a generation leaves exactly `replicas` |
| Updater.KeepModeMovesAll | DomeOS/src/main/java/org/domeos/framework/engine/k8s/updater/DeploymentUpdater.java:346-349 | in keep-quantity mode each generation followed by another grows the live destination count by exactly the source's replicas and leaves the source drained |
| Updater.AmbiguityFailsAcquisition | DomeOS/src/main/java/org/domeos/framework/engine/k8s/updater/DeploymentUpdater.java:328-332 | more than one RC of the destination version makes acquisition fail |
| Updater.Acquire | DomeOS/src/main/java/org/domeos/framework/engine/k8s/updater/DeploymentUpdater.java:309-337 | none: create the secret when needed, then the built RC with 0 replicas (a refused create fails with the client's message); one: adopt it with cached count 0; more: Failed with the ambiguity message and nothing else changes |
| Updater.DeploymentUpdater.KeepQuantity | DomeOS/src/main/java/org/domeos/framework/engine/k8s/updater/DeploymentUpdater.java:61-77 | keep-quantity mode with `replicas` left at 0, phase Unknown, the empty converger, no task |
| Updater.DeploymentUpdater.FixedReplicas | DomeOS/src/main/java/org/domeos/framework/engine/k8s/updater/DeploymentUpdater.java:79-98 | fixed mode with the given `replicas`, phase Unknown, the empty converger, no task |
| Updater.DeploymentUpdater.Start | DomeOS/src/main/java/org/domeos/framework/engine/k8s/updater/DeploymentUpdater.java:100-117 | a missing client, deployment or version changes nothing; a second start sets Failed and submits nothing; otherwise the phase becomes Running, the selector is set and exactly one task is submitted |
| Updater.DeploymentUpdater.Stop | DomeOS/src/main/java/org/domeos/framework/engine/k8s/updater/DeploymentUpdater.java:174-187 | the converger pointer is dropped and a pending task is cancelled |
| Updater.DeploymentUpdater.Close | DomeOS/src/main/java/org/domeos/framework/engine/k8s/updater/DeploymentUpdater.java:189-198 | the converger is closed and still pointed to |
| Updater.DeploymentUpdater.GetStatus | DomeOS/src/main/java/org/domeos/framework/engine/k8s/updater/DeploymentUpdater.java:200-210 | the stored status is healed as HealedStatus says and a copy is returned |
| Updater.DeploymentUpdater.CheckStatus | DomeOS/src/main/java/org/domeos/framework/engine/k8s/updater/DeploymentUpdater.java:288-299 | true exactly when the cached count is positive and the five-minute wait passes; only then Succeed; a failure leaves the status as it was |
| Updater.DeploymentUpdater.AcquireTarget | DomeOS/src/main/java/org/domeos/framework/engine/k8s/updater/DeploymentUpdater.java:309-337 | the fields change exactly as Acquisition relates them to the old fields, on success and on failure alike, and the acquired cluster, RC and status are recorded; a destination RC is had exactly when acquisition can succeed, and it is then in the cluster with cached count 0 and the status unchanged; otherwise the phase is terminal |
| Updater.DeploymentUpdater.Drive | DomeOS/src/main/java/org/domeos/framework/engine/k8s/updater/DeploymentUpdater.java:340-393 | with a destination RC, the fields after the loop and its conclusion are what RolloutRecorded describes over the acquired cluster and status; without one, no generation runs and the cluster, RC and status stay as acquisition left them; the task ends complete with a terminal phase |
| Updater.DeploymentUpdater.Run | DomeOS/src/main/java/org/domeos/framework/engine/k8s/updater/DeploymentUpdater.java:303-394 | acquisition is related by Acquisition to the cluster, cached RC and status the task began with; a destination RC is had exactly when acquisition can succeed; without one no generation runs and the cluster, RC and status are exactly what the failed acquisition produced (its failure reason, and a secret it created); with one, the status it starts from is the old status and the fields satisfy RolloutRecorded over the acquired cluster; the task always ends complete with a terminal phase |
| ImageService.KeptEnvs | DomeOS/src/main/java/org/domeos/framework/api/service/image/impl/BaseImageCustomServiceImpl.java:131-137 | exactly the settings whose key and value are both non-blank |
| ImageService.KeptFiles | DomeOS/src/main/java/org/domeos/framework/api/service/image/impl/BaseImageCustomServiceImpl.java:138-146 | exactly the files whose name and path are both non-blank |
| ImageService.KeptEnvsInOrder | DomeOS/src/main/java/org/domeos/framework/api/service/image/impl/BaseImageCustomServiceImpl.java:131-137 | the kept settings of a list are those of its first part followed by those of the rest |
| ImageService.KeptFilesInOrder | DomeOS/src/main/java/org/domeos/framework/api/service/image/impl/BaseImageCustomServiceImpl.java:138-146 | the kept files of a list are those of its first part followed by those of the rest |
| ImageService.KeepWhere | DomeOS/src/main/java/org/domeos/framework/api/service/image/impl/BaseImageCustomServiceImpl.java:131-146 | the skip-or-append loop builds exactly the filtered list |
| ImageService.DockerFromHttps | DomeOS/src/main/java/org/domeos/framework/api/service/image/impl/BaseImageCustomServiceImpl.java:153-161 | an `https://` registry URL loses its scheme |
| ImageService.DockerFromHttp | DomeOS/src/main/java/org/domeos/framework/api/service/image/impl/BaseImageCustomServiceImpl.java:153-161 | an `http://` registry URL loses its scheme, and an `https://` right after it is stripped as well |
| ImageService.DockerFromPlain | DomeOS/src/main/java/org/domeos/framework/api/service/image/impl/BaseImageCustomServiceImpl.java:153-161 | a registry URL without either scheme is used as it is, whatever its length, unless a short URL containing `/`, or an image name starting with `/`, makes the joined reference itself start with a scheme, which the source then strips |
| ImageService.EnvLinesCount | DomeOS/src/main/java/org/domeos/framework/api/service/image/impl/BaseImageCustomServiceImpl.java:163-168 | one line per setting |
| ImageService.CopyLinesCount | DomeOS/src/main/java/org/domeos/framework/api/service/image/impl/BaseImageCustomServiceImpl.java:170-187 | one line per file |
| ImageService.DockerfileLineCount | DomeOS/src/main/java/org/domeos/framework/api/service/image/impl/BaseImageCustomServiceImpl.java:152-187 | the generated Dockerfile has 1 + #settings + #files lines when no part spans lines |
| ImageService.SavedRecordsMd5 | DomeOS/src/main/java/org/domeos/framework/api/service/image/impl/BaseImageCustomServiceImpl.java:175-176 | saving changes each file only in its MD5, which is the store's answer for that file's name and content |
| ImageService.JsonItemsConcat | DomeOS/src/main/java/org/domeos/framework/api/service/image/impl/BaseImageCustomServiceImpl.java:177-181 | joining two non-empty lists joins their texts with one `, ` |
| ImageService.FileJson | DomeOS/src/main/java/org/domeos/framework/api/service/image/impl/BaseImageCustomServiceImpl.java:170-193 | empty exactly when there are no files; otherwise it starts with `{"files" : [`, ends with `]}`, and holds the joined items in between |
| ImageService.AppendEnvLines | DomeOS/src/main/java/org/domeos/framework/api/service/image/impl/BaseImageCustomServiceImpl.java:163-168 | the Env loop appends exactly EnvLines |
| ImageService.AppendFiles | DomeOS/src/main/java/org/domeos/framework/api/service/image/impl/BaseImageCustomServiceImpl.java:170-190 | the file loop appends exactly CopyLines, saves every file, and builds exactly FileJson of the saved files |
| ImageService.Generate | DomeOS/src/main/java/org/domeos/framework/api/service/image/impl/BaseImageCustomServiceImpl.java:152-190 | the generation branch yields GeneratedDockerfile, the saved files and their FileJson |
| ImageService.AddRelatedFileInfo | DomeOS/src/main/java/org/domeos/framework/api/service/image/impl/BaseImageCustomServiceImpl.java:126-205 | the lists are always filtered; a null source image with blank content throws exactly then; non-blank content and fileJson are kept; blank content is replaced by the generated Dockerfile and manifest; success leaves Preparing |
| ImageService.AddBaseImageCustom | DomeOS/src/main/java/org/domeos/framework/api/service/image/impl/BaseImageCustomServiceImpl.java:69-96 | a null record and a legality message are parameter errors that change nothing; a blank registry URL takes the global registry's, which throws if none is set; past that, time and user are stamped and the lists filtered; success keeps a submitted Dockerfile or generates one with its manifest and leaves Preparing; a failure of addRelatedFileInfo is wrapped and leaves the Dockerfile, manifest and state as they were; only the named fields of the record change |
| ImageService.PutAppends | DomeOS/src/main/java/org/domeos/framework/api/service/image/impl/BaseImageCustomServiceImpl.java:470-478 | putting a new key appends the entry |
| ImageService.PutReplaces | DomeOS/src/main/java/org/domeos/framework/api/service/image/impl/BaseImageCustomServiceImpl.java:470-478 | putting a present key overwrites its value in place |
| ImageService.PutKeys | DomeOS/src/main/java/org/domeos/framework/api/service/image/impl/BaseImageCustomServiceImpl.java:470-478 | after a put the keys are the old keys and the put key |
| ImageService.PutKeepsDistinct | DomeOS/src/main/java/org/domeos/framework/api/service/image/impl/BaseImageCustomServiceImpl.java:470-478 | a put keeps keys distinct |
| ImageService.GenerateEnvs | DomeOS/src/main/java/org/domeos/framework/api/service/image/impl/BaseImageCustomServiceImpl.java:458-480 | the eight keys in insertion order with their values, distinct, and IMAGEID parses back to the image id |
| ImageService.SecretGate | DomeOS/src/main/java/org/domeos/framework/api/service/image/impl/BaseImageCustomServiceImpl.java:347-349 | passes exactly for an existing record with a set secret equal to the given one; a record without a secret throws |
| ImageService.DownloadDockerfile | DomeOS/src/main/java/org/domeos/framework/api/service/image/impl/BaseImageCustomServiceImpl.java:345-352 | "Forbidden" for a missing record or a wrong secret; the stored content when the secret matches; a record without a secret throws a null-pointer error |
| ImageService.GetFileJson | DomeOS/src/main/java/org/domeos/framework/api/service/image/impl/BaseImageCustomServiceImpl.java:355-361 | null for a missing record or a wrong secret; the stored manifest when the secret matches; a record without a secret throws a null-pointer error |
| ImageService.FirstWithMd5 | DomeOS/src/main/java/org/domeos/framework/api/service/image/impl/BaseImageCustomServiceImpl.java:370-377 | the content of the first file whose MD5 matches; null when none does; a file without an MD5 met earlier throws |
| ImageService.DownloadFile | DomeOS/src/main/java/org/domeos/framework/api/service/image/impl/BaseImageCustomServiceImpl.java:364-378 | null for a missing record or a wrong secret; otherwise FirstWithMd5 over the record's files; a record without a secret throws a null-pointer error |
| ImageService.TagListed | DomeOS/src/main/java/org/domeos/framework/api/service/image/impl/BaseImageCustomServiceImpl.java:105-111 | true exactly when some listed image carries the tag |
| ImageService.Validation | DomeOS/src/main/java/org/domeos/framework/api/service/image/impl/BaseImageCustomServiceImpl.java:99-124 | no registry is the only error; a registry-listed tag wins, then a project of that name, then a catalogued base image, else NEITHER |
| ImageService.Publish | DomeOS/src/main/java/org/domeos/framework/api/service/image/impl/BaseImageCustomServiceImpl.java:419-424 | the image is added exactly when none of that name, tag and registry is catalogued, and is catalogued afterwards |
| ImageService.PublishIdempotent | DomeOS/src/main/java/org/domeos/framework/api/service/image/impl/BaseImageCustomServiceImpl.java:419-424 | publishing the same image twice catalogues it once |
| ImageService.SetBuildStatus | DomeOS/src/main/java/org/domeos/framework/api/service/image/impl/BaseImageCustomServiceImpl.java:396-430 | no status: nothing happens; a missing record or a wrong secret is Forbidden, a record without a secret throws, and both change nothing; otherwise state, message and finish time are recorded, and a Success with a registry publishes the image built from the record's name, tag and description when the record asks for it; only those three fields of the record change |

## Left out

- Concurrency in `DeploymentUpdater` is not modelled: the thread pool, `Future` cancellation and interruption, the `ReentrantLock`, and `synchronized` blocks. Each status change is atomic, and `Run` is the one execution of the submitted task.
- The clock and `Thread.sleep` are not modelled. The readiness wait sees a finite trace of polls (pod list, elapsed milliseconds) chosen by the parameter `waitTrace`, and that trace ends with an observation at which the loop stops.
- The internals of `ReplicationControllerUpdater` are not modelled. How each converger step ends comes from the parameter `outcome`. A successful step scales the source RC to 0 and the destination to the planned count.
- `RcBuilder` and `DomeOSSecretBuilder` are not modelled. The built RC and the secret name prefix are constructor parameters. A `JSONException` while building the secret is not modelled, so creating a secret always succeeds.
- Label maps are reduced to the deployment id and the version. An RC's selector is those two labels.
- The null pointer at `currentTargetRC.getSpec()` (DeploymentUpdater.java lines 345 and 382) is not modelled. In the model no other actor changes the cluster, and the destination RC stays in it, an invariant that is proved.
- A null list from the client, an RC without a spec or selector, and the client's I/O failures other than a refused create are not modelled.
- 32-bit overflow is not modelled: replica sums and counts are unbounded integers, and the timeout product is computed in `long`.
- Logging is left out, as are `runPhase`, `stopPhase` and `startPhase`, which `DeploymentUpdater` never calls, and the `Policy` and load balancers passed through to the converger.
- The DAO layer is not modelled. The looked-up record, the base-image catalogue and the project and base-image lookups are parameters; saving the record is not modelled.
- The MD5 file store is not modelled. The source's `saveFile` catches its own failures and returns null, and the model's `saveFile` parameter returns an optional MD5.
- Multipart upload reading, `JobWrapper` job submission, UUID generation, `tokenService` and `PrivateRegistry` queries are not modelled. The registry's image list is a parameter.
- The `double` image size in `setBuildStatus` is left out, because it is floating point.
- `String.getBytes` is not modelled. File content is kept as text, and every `FileInfo` has non-null content.
- `checkLegality` is a parameter (`legality`). The two calls in the source are assumed to agree.
- `GlobalConstant.HTTP_PREFIX` and `HTTPS_PREFIX` are not part of this model. They are taken to be `http://` and `https://`, consistent with the 7 and 8 characters the source strips.
- The service methods of `BaseImageCustomServiceImpl` outside the ones above are not modelled (listing, deletion, build start, log download).
- Updater.Generation: a converger step that fails is taken to leave the cluster as the generation found it. A step that fails after moving some pods is not modelled.
- Updater.Generation: how a converger step ends is reduced to success or failure with a reason (`StepOutcome`). The converger's other phases, and a step cut short by `stop()`, are not modelled.
- `DeploymentUpdateStatus` is not part of this model. Its `succeed` and `failed` are taken to leave a phase of Succeed or Failed unchanged, since no transition leaves a terminal phase; `start` is taken to enter Running.
- ImageService.Saved: its own contract states only the length. The per-file facts are stated by `ImageService.SavedRecordsMd5`.
