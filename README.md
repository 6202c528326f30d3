# cordova-build orchestration core in Dafny

This project models the orchestration layer of cordova-build. cordova-build is a build farm for Cordova apps:

- **Clients** upload a build request, with its files grouped by platform, to a central **server**.
- The server splits each request into one **master build** plus one **child build** per platform.
- It queues the children and dispatches each one to an idle **agent** that declared that platform.
- The agent runs a fixed **build pipeline** and reports the output files back.
- The server forwards the outputs to the client.

Everything runs on one event loop. The model is therefore one sequential state machine:

- Mutated objects are Dafny classes, or entries in a heap map whose keys stand for object identity.
- Each socket handler and each asynchronous continuation is a method.
- The outcome of each I/O operation is a method parameter.
- Each method states its effect as a pure function of the old state. The lemmas state the promised properties about those functions.

| module | file | models |
|---|---|---|
| `Wrappers`, `Lists`, `Strings` | wrappers.dfy, lists.dfy, strings.dfy | `Option`/`Result`, list helpers (first-occurrence `remove`, filters), substring search, `;`/`,` splitting, lower-casing, the `{k}` template formatter |
| `Builds` | builds.dfy | `lib/common/Build.js`: the status order, both constructor forms, `Id`, `serialize`, `updateStatus` with max-status propagation to the master |
| `Messages` | msg.dfy | `lib/common/Msg.js`: priorities, `update`, `toString` and its prefix rules |
| `Base64` | base64.dfy | the base64 alphabet of section 4 of RFC 4648, used by `readFiles`/`writeFiles` |
| `BrowserDetect` | browser_detect.dfy | `lib/common/BrowserDetect.js` |
| `Coordinator` | coordinator.dfy | `lib/server/Server.js`: the registry (`builds`, `buildsQueue`, `agents`, per-platform worklists), `findBuildById`, `updateBuildStatus` (including `deleted`), `log`, `forwardLog` |
| `PreviousBuilds` | previous_builds.dfy | the registration part of `readPreviousBuilds` |
| `Scheduler` | scheduler.dfy | `processQueue` and `loopAgents` |
| `ServerSockets` | server_sockets.dfy | the agent `register`/`disconnect` and dashboard `rebuild`/`cancel` handlers of `lib/server/ServerSockets.js` |
| `AgentSessions`, `AgentReports` | agents.dfy, agent_reports.dfy | `lib/server/sockets/Agent.js`: `onRegister`, `getUnique`, `startBuild`, `onBuildSuccess`, `onBuildFailed`, `updateStatus` |
| `ClientSessions`, `ClientUploads` | client_sessions.dfy, client_uploads.dfy | `lib/server/sockets/Client.js`: `validateBuildRequest`, `onRegisterBuild`, `onUploadBuild`, `saveFiles`, `onFailBuild` |
| `ServerUtils` | server_utils.dfy | `lib/common/serverUtils.js`: `writeFiles`, `readFiles`, `freeMemFiles`, `cleanLastFolders` |
| `GenericBuilds` | generic_build.dfy | `lib/agent/GenericBuild.js`: stages `s1Cleanup` to `s8BuildExecuted`, cancellation guards, reuse mode, bundle id rewrite, hook gating, command formatting |
| `AgentWorkers` | agent_worker.dfy | `lib/agent/AgentWorker.js`: `onBuild`, `emit`, `onCancelBuild`, exit classification, `buildSuccess`, `uploadFiles`, `buildFailed` |
| `ClientWorkers` | client_worker.dfy | `lib/client/ClientWorker.js`: `parseGroupFiles`, the build-number prefix strip, the completion counter |
| `LegacyServer` | legacy_server.dfy | `server/Server.js`: `registerBuild`, the legacy `processQueue`, `detectPlatform`, `parseBuildRequest`, `mime_types` |

`lib/server/ServerSockets.js` exports the wrong name at line 166. `lib/server/Server.js:158-160` calls the socket builders without a `server` argument. The model follows the evident intent: `_self` and `server` are the same coordinator.

## Model

| member | source | states |
|---|---|---|
| Builds.IndexOf | lib/common/Build.js:6 | the position of a status in the status order, and -1 exactly for a status that is not listed |
| Builds.NewBuild | lib/common/Build.js:8-40 | the eight-argument constructor: the given platform replaces `conf.platform`, an empty id is replaced by a generated one, a master object links the build and gives its id as `masterId`, a bare id is kept as `masterId` only |
| Builds.IdChoice | lib/common/Build.js:42-44 | `Id()` is the build number when there is one and the id otherwise |
| Builds.Serialize | lib/common/Build.js:46-84 | `conf`, `id` and `masterId` always; files, output files and children only when the options ask; children exactly when the build has them, one per child |
| Builds.SerializeAll | lib/common/Build.js:73-80 | each child is serialised with the child options and no options of its own |
| Builds.SerializeBare | lib/common/Build.js:46-53 | without options only `conf`, `id` and `masterId` are present |
| Builds.SerializeContent | lib/common/Build.js:55-71 | file contents appear only when `content` is asked for |
| Builds.ReviveOneFields | lib/common/Build.js:8-11 | the one-argument constructor keeps the serialised id (or a generated one), the configuration and `masterId`, and links no master |
| Builds.ReviveShape | lib/common/Build.js:12-19 | a revived root has no master and lists as many children as were serialised, at fresh references |
| Builds.ReviveKid | lib/common/Build.js:14-18 | each revived child has the root as master and the serialised child's id and configuration |
| Builds.ReviveWf | lib/common/Build.js:8-20 | reviving keeps every master/child link consistent and every existing build unchanged |
| Builds.ReviveInputs | lib/common/Build.js:55-63 | input files saved without contents come back with their path and group, no content and no name |
| Builds.ReviveOutputs | lib/common/Build.js:64-72 | output files saved without contents come back with their path only |
| Builds.ReviveOneSaved | lib/common/Build.js:8-11 | a build serialised with files and without contents comes back with its configuration, `masterId`, files as saved, and its id when it had one |
| Builds.SavedChildRevived | lib/common/Build.js:12-18 | the `i`-th saved child comes back right after the root and the children before it, linked to the root, with its configuration, id and files as saved |
| Builds.SaveReviveRoundTrip | lib/common/Build.js:108-118 | what `save` writes revives to a root without a master with the configuration, id, `masterId` and files (as saved) of the saved build, listing as many children as it had, each linked to the root and carrying the configuration, id and files of the child at the same position |
| Builds.MaxIndexIsHighest | lib/common/Build.js:90-96 | the master status index is the highest index among the children's listed statuses, or 0 (`unknown`) |
| Builds.UpdateStatus | lib/common/Build.js:86-106 | the links between builds stay consistent and no build appears or disappears |
| Builds.UpdateStatusKeeps | lib/common/Build.js:86-106 | `updateStatus` changes statuses and nothing else |
| Builds.UpdateRoot | lib/common/Build.js:87-105 | a root takes the new status and is saved to `<location>/<Id()>/build.json` exactly when its status changed |
| Builds.UpdateChild | lib/common/Build.js:87-99 | a child takes the new status, its master takes the highest status among its children, no other build changes, and the master is saved exactly when its status changed |
| Builds.UpdateTwice | lib/common/Build.js:86-106 | setting the same status a second time changes nothing and saves nothing |
| Builds.MasterStatusAfter | lib/common/Build.js:90-98 | after a child's update the master already has the status its children give |
| Builds.WfAfterWrite | lib/common/Build.js:88 | writing a build that keeps its links keeps every link consistent |
| BrowserDetect.New | lib/common/BrowserDetect.js:1-3 | a missing user agent is stored as the empty string |
| BrowserDetect.MatchesIff | lib/common/BrowserDetect.js:5-23 | each check holds exactly when its pattern occurs in the user agent up to ASCII case |
| BrowserDetect.CaseDoesNotMatter | lib/common/BrowserDetect.js:5-23 | changing the case of the user agent changes no check |
| BrowserDetect.MissingUserAgent | lib/common/BrowserDetect.js:1-23 | with no user agent, `android`, `blackBerry`, `iOS`, `opera` and `windows` are all false |
| Messages.Make | lib/common/Msg.js:33-50 | a new message takes the priority and signature, the ids of its build and sender, the build number and sender name when present, and keeps the template and arguments |
| Messages.RenderWithoutPrefix | lib/common/Msg.js:52-62 | with the prefix left out (flag true, or a build log without flag false), a message without placeholders renders as its text |
| Messages.RenderWithPrefix | lib/common/Msg.js:52-62 | with the prefix, a message renders as the signature name, ` @` and the sender (name before id) when there is one, ` about #` and the build (number before id) when there is one, then `: ` and the text |
| Messages.RenderPrefixed | lib/common/Msg.js:59-62 | the prefix and the text are formatted together with the sender and the build as `{0}` and `{1}` |
| Base64.Char | lib/common/serverUtils.js:70 | every 6-bit value maps to a character of the base64 alphabet |
| Base64.EncodeLength | lib/common/serverUtils.js:70 | the encoding has four characters per group of three bytes begun |
| Base64.EncodeAlphabet | lib/common/serverUtils.js:70 | the encoding consists of alphabet characters and `=` padding |
| Base64.DecodeEncode | lib/common/serverUtils.js:26-70 | decoding the content an agent or client encoded gives back the original bytes |
| Builds.IndexIn | lib/common/Build.js:6 | the first position of a value in a list, and -1 exactly when the value is absent |
| Builds.WireInputs | lib/common/Build.js:55-63 | `files` is serialised one entry per input file, in order |
| Builds.WireOutputs | lib/common/Build.js:64-71 | `outputFiles` is serialised one entry per output file, in order |
| Builds.ReviveFiles | lib/common/Build.js:11 | serialised files come back one per entry, in order, and a missing list gives none |
| Builds.ReviveAt | lib/common/Build.js:8-20 | reviving adds exactly the root at the next reference and one child per serialised child after it, and keeps every existing build |
| Builds.MaxIndex | lib/common/Build.js:90-96 | the master's status index is always a listed status |
| Builds.MaxIndexStep | lib/common/Build.js:92-95 | one more child raises the index exactly when the child's index is higher |
| Builds.MaxIndexSame | lib/common/Build.js:90-96 | the master's status depends on its children's statuses only |
| Coordinator.FindBuildById | lib/server/Server.js:312-323 | an id finds a build exactly when it is registered, and then the registered build |
| Coordinator.AfterLog | lib/server/Server.js:272-291 | logging keeps the registry consistent and changes only the builds' logs, the server log and the emissions |
| Coordinator.LogKeys | lib/server/Server.js:272-291 | logging adds and removes no build |
| Coordinator.LogKeeps | lib/server/Server.js:281-284 | logging changes no build but for its log |
| Coordinator.LogNewestFirst | lib/server/Server.js:281-286 | a logged message comes first in the server log and, when its build is registered, first in that build's log; no other build changes |
| Coordinator.LogForwarded | lib/server/Server.js:287-290 | a logged message is announced to the dashboards, and sent on exactly when a recipient is given |
| Coordinator.LogFrame | lib/server/Server.js:272-291 | logging depends on the builds, the id map, the log and the emissions only |
| Coordinator.AfterForwardLog | lib/server/Server.js:293-310 | forwarding a log keeps the registry consistent and changes only logs and emissions |
| Coordinator.ForwardTarget | lib/server/Server.js:298-304 | without a recipient the log is kept on the registered build of the same id; without a build on none |
| Coordinator.ForwardLogNoEcho | lib/server/Server.js:305-308 | a forwarded message comes first in the server log and is never sent back to its sender |
| Coordinator.ForwardLogReaches | lib/server/Server.js:305-307 | a message forwarded to a recipient other than its sender reaches that recipient |
| Coordinator.LogsOnlyConsistent | lib/server/Server.js:272-310 | changing only logs keeps every invariant of the server |
| Coordinator.SavedEvents | lib/common/Build.js:101-104 | one save is recorded per build `updateStatus` saved, in order |
| Coordinator.AfterApplyStatus | lib/server/Server.js:230 | `build.updateStatus` adds and removes no build and changes only the builds and the emissions |
| Coordinator.AfterDelete | lib/server/Server.js:216-228 | deleting adds and removes no build object and changes only the id map, the builds list and the queue (and a master's children) |
| Coordinator.AfterUpdateBuildStatus | lib/server/Server.js:200-238 | `updateBuildStatus` removes no build object and leaves the agents as they were |
| Coordinator.AfterUpdateFound | lib/server/Server.js:211-232 | once the build is found the same holds |
| Coordinator.AfterLogOnMaster | lib/server/Server.js:211-214 | a child's status change is logged on its master unless told not to; only logs change |
| Coordinator.ObjFound | lib/server/Server.js:203-206 | a build object is used as is, without a lookup |
| Coordinator.FoundKeeps | lib/server/Server.js:229-231 | a status other than `deleted` changes statuses and logs only, and no list of the server |
| Coordinator.FoundStatus | lib/server/Server.js:229-231 | a status other than `deleted` is set on the build, and its master gets the highest status among its children |
| Coordinator.NotFoundOnlyLogs | lib/server/Server.js:203-210 | an id that is not registered changes no build and no list and only logs `Build not found with id` |
| Coordinator.StatusDelegated | lib/server/Server.js:229-231 | any status other than `deleted` goes to `Build.updateStatus`: the build gets it, its master the highest status of its children, and nothing is unregistered |
| Coordinator.UnregisterAllIds | lib/server/Server.js:223-227 | unregistering children one by one removes their ids from the id map |
| Coordinator.UnregisterAllLists | lib/server/Server.js:223-227 | and removes one occurrence of each from the builds list and from the queue |
| Coordinator.DeletedFound | lib/server/Server.js:211-232 | a `deleted` update logs on the master, unregisters, and announces the deletion |
| Coordinator.DeleteRoot | lib/server/Server.js:216-228 | deleting a root unregisters it and every child from the id map, the builds list and the queue; no build object changes |
| Coordinator.DeleteLone | lib/server/Server.js:216-222 | deleting a build with neither master nor children only unregisters it |
| Coordinator.DeleteChild | lib/server/Server.js:216-221 | deleting a child unregisters it and takes it out of its master's children; no other build changes |
| Coordinator.Server.constructor | lib/server/Server.js:24-37 | a new server has no builds, agents, logs or worklists and is consistent |
| Coordinator.Server.Log | lib/server/Server.js:272-291 | the new state is the one `AfterLog` gives |
| Coordinator.Server.ForwardLog | lib/server/Server.js:293-310 | the new state is the one `AfterForwardLog` gives |
| Coordinator.Server.UpdateBuildStatus | lib/server/Server.js:200-238 | the new state is the one `AfterUpdateBuildStatus` gives |
| Coordinator.Server.UpdateFound | lib/server/Server.js:211-232 | the new state is the one `AfterUpdateFound` gives |
| Coordinator.Server.LogOnMaster | lib/server/Server.js:211-214 | the new state is the one `AfterLogOnMaster` gives |
| Coordinator.Server.ApplyStatus | lib/common/Build.js:86-106 | `updateStatus` in place: the new state is the one `AfterApplyStatus` gives |
| Coordinator.Server.MaxStatusIndex | lib/common/Build.js:90-96 | the pass over a master's children finds the highest status index |
| Coordinator.Server.Delete | lib/server/Server.js:216-228 | the new state is the one `AfterDelete` gives |
| Coordinator.Server.UnregisterChildren | lib/server/Server.js:223-227 | the loop over a deleted root's children ends in the state `AfterUnregisterAll` gives |
| Coordinator.Server.Unregister | lib/server/Server.js:217-219 | the build's id leaves the id map and the build leaves the builds list and the queue |
| Coordinator.PrependLog | lib/server/Server.js:281-283 | `build.conf.logs.unshift(msg)` changes the build's log and nothing else |
| Coordinator.Target | lib/server/Server.js:203-206 | the build object passed, or the build an id names, is always a build of the server |
| Coordinator.AfterUnregister | lib/server/Server.js:217-219 | unregistering one build keeps the invariant and changes only the id map, the builds list and the queue |
| Coordinator.AfterUnregisterAll | lib/server/Server.js:223-227 | unregistering a root's children keeps the invariant and changes only the id map, the builds list and the queue |
| Coordinator.UnregisterAllStep | lib/server/Server.js:223-227 | the loop unregisters the children one at a time, in order |
| Coordinator.Unlinked | lib/server/Server.js:221 | taking a child out of its master's list keeps every link consistent and adds and removes no build |
| Coordinator.LogOnMasterKeys | lib/server/Server.js:211-214 | logging on the master adds and removes no build |
| Coordinator.LogOnMasterKeeps | lib/server/Server.js:211-214 | logging on the master changes every build's log at most |
| Scheduler.Worklist | lib/server/Server.js:244-247 | the worklist of a build's platform holds registered agents only; a missing worklist is empty |
| Scheduler.FirstIdle | lib/server/Server.js:261-268 | the first agent of the worklist that is not busy, every agent before it busy; none exactly when all are busy |
| Scheduler.FirstIdleAt | lib/server/Server.js:261-268 | an idle agent preceded only by busy ones is the one chosen |
| Scheduler.BeginBuildOthers | lib/server/sockets/Agent.js:183-200 | `startBuild` changes no agent but the one it is called on |
| Scheduler.BeginBuildSchedulable | lib/server/sockets/Agent.js:183-200 | `startBuild` keeps the server consistent and leaves the queue alone |
| Scheduler.LoopAgentsEffect | lib/server/Server.js:259-270 | `loopAgents` returns true exactly when an agent of the worklist is idle; it then starts the build on the first idle one, which becomes busy with it, the build becomes `uploading`, and every other agent is as it was; otherwise nothing changes |
| Scheduler.LoopAgents | lib/server/Server.js:259-270 | the `every` loop returns whether an agent was idle and ends in the state `AfterLoopAgents` gives |
| Scheduler.BlockedHeadEndsPass | lib/server/Server.js:243-253 | a build that finds no idle agent goes to the tail of the queue and ends the pass; nothing else changes |
| Scheduler.DispatchedHeadContinues | lib/server/Server.js:243-255 | a build that finds an idle agent is started on the first one and the pass goes on with the next build |
| Scheduler.DispatchStep | lib/server/Server.js:259-267 | one dispatch uses an idle agent and changes no other agent |
| Scheduler.BusyAgentsKeepTheirBuild | lib/server/Server.js:240-270 | an agent busy when a pass starts is busy with the same build when it ends: no agent gets a second build |
| Scheduler.ProcessQueueShape | lib/server/Server.js:240-257 | after a pass, the queue is the undispatched rest with the first build that found no agent at its tail, or empty |
| Scheduler.HeadShape | lib/server/Server.js:240-257 | the head of the queue is shifted off and dispatched: it either goes back to the tail, or the rest of the pass takes one of the pass shapes |
| Scheduler.PassEndsAtFirstMiss | lib/server/Server.js:240-257 | a pass ends with the queue in one of those shapes |
| Scheduler.ProcessQueue | lib/server/Server.js:240-257 | the `while` loop ends in the state `AfterProcessQueue` gives |
| PreviousBuilds.SortPaths | lib/server/Server.js:74 | `paths.sort()` gives a permutation of the paths in which no path sorts after a later one |
| PreviousBuilds.InsertOrdered | lib/server/Server.js:74 | inserting into a sorted list keeps it sorted |
| PreviousBuilds.Loaded | lib/server/Server.js:77-91 | the reads, finishing in any order: each parsed file is revived and recorded; the first failure ends the loop |
| PreviousBuilds.LoadedNoFailure | lib/server/Server.js:81-85 | the loop ends without an error exactly when every finished read parsed |
| PreviousBuilds.LoadedPaths | lib/server/Server.js:86-88 | every recorded path was read and parsed |
| PreviousBuilds.LoadedRoots | lib/server/Server.js:86-88 | every recorded root was revived as a root with the configuration of its file |
| PreviousBuilds.LoadedAll | lib/server/Server.js:86-89 | without an error every path read has its root recorded, one build per read |
| PreviousBuilds.LoadedStopped | lib/server/Server.js:84-91 | once a read has failed, what finishes later changes nothing |
| PreviousBuilds.IndexChildren | lib/server/Server.js:97-101 | every child is indexed by its id; every other key keeps its build |
| PreviousBuilds.AddRoot | lib/server/Server.js:93-102 | a root is pushed on the builds list, indexed by its id and its children by theirs |
| PreviousBuilds.AfterRegister | lib/server/Server.js:92-103 | the recorded roots are registered in the order of the sorted paths |
| PreviousBuilds.RegisterAppends | lib/server/Server.js:92-96 | the roots are pushed in sorted path order after the roots already registered |
| PreviousBuilds.RegisterIndexes | lib/server/Server.js:95-101 | registering indexes every root and each of its children by its id, and every other key names a build with that id or is as it was |
| PreviousBuilds.AfterLoaded | lib/server/Server.js:91-114 | the final callback registers the roots, logs the count when something was read and the error when a read failed |
| PreviousBuilds.AfterReadPrevious | lib/server/Server.js:71-115 | `readPreviousBuilds` for reads finishing in a given order |
| PreviousBuilds.LoadedLogs | lib/server/Server.js:105-113 | logs without a build id change no build and no registration |
| PreviousBuilds.UnattachedLog | lib/server/Server.js:272-291 | a message about no build goes to the top of the server log and changes no build, id or list |
| PreviousBuilds.AllLoaded | lib/server/Server.js:77-90 | when every read parses, the loop ends without an error, having read one file per path and recorded a root for each |
| PreviousBuilds.PickedInOrder | lib/server/Server.js:92-96 | registering the revived roots in sorted order puts them in that order after the roots already there |
| PreviousBuilds.SortedRegistration | lib/server/Server.js:74-103 | when every read parses, one root per path is registered, in sorted path order, each with the configuration of its file |
| PreviousBuilds.CountLogged | lib/server/Server.js:105-109 | when every read parses, the number of files read is logged and nothing else |
| PreviousBuilds.RevivedAll | lib/server/Server.js:86 | when every read parses, every sorted path has its root revived from its file |
| PreviousBuilds.CompletionOrderIrrelevant | lib/server/Server.js:74-103 | the order in which the reads finish changes neither which roots are registered nor their order, when every read parses |
| PreviousBuilds.ChildrenIndexed | lib/server/Server.js:95-101 | every registered root and each of its children is indexed by its id, every other key as it was |
| PreviousBuilds.FirstFailureEnds | lib/server/Server.js:84-113 | after the first failed read the final callback has already run, registering only what was parsed before, and the error is the newest log |
| PreviousBuilds.Load | lib/server/Server.js:77-90 | the loop over the finished reads computes `Loaded` |
| PreviousBuilds.IndexEach | lib/server/Server.js:98-100 | the children are indexed one by one as `IndexChildren` says |
| PreviousBuilds.RegisterRoot | lib/server/Server.js:93-102 | one root registered as `AddRoot` says |
| PreviousBuilds.Register | lib/server/Server.js:92-103 | the `forEach` over the sorted paths ends as `AfterRegister` says |
| PreviousBuilds.ReadPreviousBuilds | lib/server/Server.js:71-115 | the server ends in the state `AfterReadPrevious` gives |
| Scheduler.DispatchBusyKept | lib/server/Server.js:259-267 | dispatching one build leaves an already busy agent busy with the same build |
| Scheduler.DispatchShape | lib/server/Server.js:240-257 | the rest of the pass, once the head is dispatched, gives the shape of the whole queue |
| PreviousBuilds.Insert | lib/server/Server.js:74 | inserting a path adds it once to the list's elements |
| PreviousBuilds.BeforeTotal | lib/server/Server.js:74 | of two distinct paths, one sorts before the other |
| PreviousBuilds.BeforeAsymmetric | lib/server/Server.js:74 | no two paths sort before each other |
| PreviousBuilds.BeforeTransitive | lib/server/Server.js:74 | sorting before is transitive |
| PreviousBuilds.Picked | lib/server/Server.js:92-96 | every root picked for registration was revived from some path |
| ServerSockets.Delisted | lib/server/ServerSockets.js:38-40 | the worklists after removing the agent from each of its platforms in turn; a platform without a worklist makes the loop throw, keeping the removals done so far |
| ServerSockets.DelistedOk | lib/server/ServerSockets.js:38-40 | the loop runs to its end exactly when every platform has a worklist |
| ServerSockets.DelistedOthers | lib/server/ServerSockets.js:38-40 | worklists of other platforms are left alone |
| ServerSockets.DelistedCounts | lib/server/ServerSockets.js:38-40 | each worklist loses one occurrence of the agent per occurrence of its platform |
| ServerSockets.DelistedStopped | lib/server/ServerSockets.js:38-40 | once the loop has thrown it stays thrown |
| ServerSockets.DelistUndoesEnlist | lib/server/ServerSockets.js:38-72 | removing an agent from the worklists it was added to gives back the worklists it found |
| ServerSockets.Delist | lib/server/ServerSockets.js:38-40 | the loop computes `Delisted` |
| ServerSockets.AfterRequeue | lib/server/ServerSockets.js:41-61 | a busy agent's build is logged about, loses its agent, becomes `queued`, is saved with its master, and goes to the tail of the queue |
| ServerSockets.AfterLeave | lib/server/ServerSockets.js:37-64 | the handler once the agent is out of `agents`: worklists, requeue when busy, then the `disconnected` news |
| ServerSockets.AfterDisconnect | lib/server/ServerSockets.js:33-65 | the whole `disconnect` handler, including the agent's own listener |
| ServerSockets.Requeue | lib/server/ServerSockets.js:41-61 | the new state is the one `AfterRequeue` gives |
| ServerSockets.Leave | lib/server/ServerSockets.js:37-64 | the new state is the one `AfterLeave` gives |
| ServerSockets.Disconnect | lib/server/ServerSockets.js:33-65 | the new state is the one `AfterDisconnect` gives |
| ServerSockets.DisconnectDelists | lib/server/ServerSockets.js:37-40 | the agent leaves `agents` and, once per declared platform, its worklist; other worklists are left alone |
| ServerSockets.DisconnectSteps | lib/server/ServerSockets.js:35-37 | the steps before the worklists change only logs, emissions and `agents` |
| ServerSockets.DisconnectRequeues | lib/server/ServerSockets.js:41-61 | a busy agent's build loses its agent, becomes `queued`, and is appended once to the tail of the queue |
| ServerSockets.RequeueEffect | lib/server/ServerSockets.js:42-60 | what the requeue branch does to the build and the queue |
| ServerSockets.DisconnectIdle | lib/server/ServerSockets.js:33-65 | disconnecting an idle agent leaves every build and the queue as they were |
| ServerSockets.AfterRebuildFound | lib/server/ServerSockets.js:101-109 | a found build becomes `queued`, is logged about, and its children (or itself, for a child) go to the queue |
| ServerSockets.AfterRebuild | lib/server/ServerSockets.js:99-110 | an unknown id is ignored |
| ServerSockets.Enqueue | lib/server/ServerSockets.js:106-108 | the builds are appended to the queue one at a time, in order |
| ServerSockets.RebuildFound | lib/server/ServerSockets.js:101-109 | the new state is the one `AfterRebuildFound` gives |
| ServerSockets.Rebuild | lib/server/ServerSockets.js:99-110 | the new state is the one `AfterRebuild` gives |
| ServerSockets.RebuildFoundEffect | lib/server/ServerSockets.js:102-104 | the status change and the log leave the queue alone and set the status |
| ServerSockets.RebuildChild | lib/server/ServerSockets.js:102-108 | rebuilding a child makes it `queued` and puts just that child on the tail of the queue |
| ServerSockets.RebuildRoot | lib/server/ServerSockets.js:102-108 | rebuilding a root makes it `queued` and puts every child on the tail of the queue, in order |
| ServerSockets.RebuildUnknown | lib/server/ServerSockets.js:100-101 | a rebuild of an unknown id changes nothing |
| ServerSockets.AfterCancelled | lib/server/ServerSockets.js:113-124 | the status, the queue, the client told the build failed, and the log |
| ServerSockets.AfterCancelFound | lib/server/ServerSockets.js:113-133 | the agent the build is assigned to is told to cancel and freed |
| ServerSockets.AfterCancel | lib/server/ServerSockets.js:111-135 | an unknown id is ignored |
| ServerSockets.Cancelled | lib/server/ServerSockets.js:113-124 | the new state is the one `AfterCancelled` gives |
| ServerSockets.CancelFound | lib/server/ServerSockets.js:113-133 | the new state is the one `AfterCancelFound` gives |
| ServerSockets.Cancel | lib/server/ServerSockets.js:111-135 | the new state is the one `AfterCancel` gives |
| ServerSockets.CancelledEffect | lib/server/ServerSockets.js:114-115 | the status becomes `cancelled` and one occurrence of the build leaves the queue |
| ServerSockets.CancelEffect | lib/server/ServerSockets.js:114-133 | cancelling sets `cancelled`, takes one occurrence of the build off the queue, and frees its agent |
| ServerSockets.CancelUnknown | lib/server/ServerSockets.js:112-113 | a cancel of an unknown id changes nothing |
| AgentSessions.Dedup | lib/server/sockets/Agent.js:250-278 | every value of the input occurs in the result and nothing else does |
| AgentSessions.DedupDistinct | lib/server/sockets/Agent.js:250-278 | `getUnique` returns no value twice |
| AgentSessions.DedupOrder | lib/server/sockets/Agent.js:250-278 | the values keep the order of their first occurrences in the input |
| AgentSessions.OrderExtended | lib/server/sockets/Agent.js:258-271 | the first-occurrence order survives appending one more input value |
| AgentSessions.IndexInExtended | lib/server/sockets/Agent.js:258-271 | appending keeps the first index of a value already present and puts a new value last |
| AgentSessions.GetUnique | lib/server/sockets/Agent.js:250-278 | the loop with its set of values seen returns the first occurrence of each value, in order |
| AgentSessions.DedupStep | lib/server/sockets/Agent.js:258-271 | one loop step: a value already seen adds nothing, a new one is appended |
| AgentSessions.PrototypeNameDropped | lib/server/sockets/Agent.js:255-270 | with a plain object as the seen-map, a platform named `constructor` is dropped although it was never seen |
| AgentSessions.AsWrittenAgrees | lib/server/sockets/Agent.js:255-270 | on values that are not prototype names the code as written equals `Dedup` |
| AgentSessions.ConnectFresh | lib/server/ServerSockets.js:31-32 | a new agent session has a fresh reference, no platforms and no build, and nothing else changes |
| AgentSessions.Connect | lib/server/ServerSockets.js:31-32 | the server gains exactly the fresh session of `AfterConnect` |
| AgentSessions.EnlistedStep | lib/server/ServerSockets.js:70-72 | one more platform pushes the agent onto that platform's worklist, creating it if missing |
| AgentSessions.EnlistedSpec | lib/server/ServerSockets.js:70-72 | each worklist gains the agent at its tail once per occurrence of its platform; a worklist is created exactly for a declared platform that had none; other worklists are unchanged |
| AgentSessions.EnlistAgentEffect | lib/server/ServerSockets.js:68-76 | enlisting keeps builds, ids and the queue, marks the agent `ready` when there is a conf, and enlists it under its platforms |
| AgentSessions.RegisterHandlerEffect | lib/server/ServerSockets.js:66-77 | the server's handler gives the agent the id of `conf`, keeps builds and queue, and enlists the agent |
| AgentSessions.RegisterEffect | lib/server/sockets/Agent.js:33-39 | registering appends the deduplicated declared platforms to the agent's, sets the id of `conf`, and leaves the agent `ready` when there is a conf (corrected; see Findings lib/server/sockets/Agent.js:250-278) |
| AgentSessions.RegisterKeeps | lib/server/ServerSockets.js:66-77 | registering appends the agent to `agents` and to every worklist of its platforms and leaves builds, queue and other agents alone |
| AgentSessions.RegisterConsistent | lib/server/ServerSockets.js:66-77 | registering keeps the server's consistency invariant |
| AgentSessions.EnlistConsistent | lib/server/ServerSockets.js:69-72 | changing one agent's platforms and status and enlisting it keeps the invariant |
| AgentSessions.WorklistMembers | lib/server/ServerSockets.js:70-72 | a worklist after enlisting holds exactly its old agents and the new one |
| AgentSessions.Register | lib/server/sockets/Agent.js:33-39 | the agent's own handler followed by the server's leaves the state `AfterRegister` (corrected; see Findings lib/server/sockets/Agent.js:250-278) |
| AgentSessions.EnlistAll | lib/server/ServerSockets.js:70-72 | the loop leaves the worklists `Enlisted` |
| AgentSessions.RegisterWithServer | lib/server/ServerSockets.js:66-77 | the server's handler leaves the state `AfterRegisterHandler` |
| AgentSessions.EnlistAgent | lib/server/ServerSockets.js:68-76 | logging and enlisting leave the state `AfterEnlistAgent` |
| AgentSessions.UpdateAgentStatus | lib/server/sockets/Agent.js:174-178 | the agent's status and building platform are set and an `agent-status` notice is sent; nothing else changes |
| AgentSessions.AgentLog | lib/server/sockets/Agent.js:180-186 | the agent's message about the build is logged and forwarded to the build's client |
| AgentSessions.AfterBeginBuild | lib/server/sockets/Agent.js:188-196 | the server stays consistent and no build or agent appears or disappears |
| AgentSessions.BeginBuild | lib/server/sockets/Agent.js:188-196 | the synchronous part of `startBuild` leaves the state `AfterBeginBuild` |
| AgentSessions.StatusStep | lib/server/sockets/Agent.js:191 | setting a status other than `deleted` sets it, changes only the build's log and keeps the queue |
| AgentSessions.AgentLogKeeps | lib/server/sockets/Agent.js:180-186 | an agent's log entry changes only the builds' logs |
| AgentSessions.AgentLogAppends | lib/server/sockets/Agent.js:180-186 | an agent's log entry only appends events |
| AgentSessions.BeginBuildMarks | lib/server/sockets/Agent.js:188-196 | `startBuild` makes the agent busy with the build, assigns the build to the agent and marks it `uploading`, keeping its files |
| AgentSessions.RestoreUndoesBasenames | lib/server/sockets/Agent.js:206-233 | putting back the saved paths undoes cutting them to basenames |
| AgentSessions.SumSizes | lib/server/sockets/Agent.js:210-213 | the loop returns the total content size of the files |
| AgentSessions.BasenameAll | lib/server/sockets/Agent.js:215-217 | the loop cuts every path to its basename, keeping the contents |
| AgentSessions.RestorePaths | lib/server/sockets/Agent.js:231-233 | the loop sets every file's path back to the saved one |
| AgentSessions.ReadFailed | lib/server/sockets/Agent.js:199-204 | the failed read leaves the state `AfterReadFailed` |
| AgentSessions.Send | lib/server/sockets/Agent.js:206-234 | the successful read leaves the state `AfterSend` |
| AgentSessions.FilesRead | lib/server/sockets/Agent.js:197-239 | the `readFiles` callback leaves the state `AfterFilesRead` |
| AgentSessions.ReadFailedEffect | lib/server/sockets/Agent.js:199-204 | a failed read keeps the build's files, fails the build, and frees the agent as `ready` |
| AgentSessions.SendEffect | lib/server/sockets/Agent.js:206-234 | after sending, the build's files are as before and the last event sends the agent the files with basenames for paths and their contents |
| AgentSessions.FilesReadFrees | lib/server/sockets/Agent.js:236-238 | after the callback the build's files keep their paths and hold no content, whether the read failed or succeeded |
| AgentSessions.FreedAfterError | lib/server/sockets/Agent.js:236-238 | on the error path the files are freed |
| AgentSessions.FreedAfterSend | lib/server/sockets/Agent.js:236-238 | on the send path the files are freed |
| AgentSessions.FreedReadPaths | lib/server/sockets/Agent.js:236-238 | reading and freeing keep the paths |
| AgentSessions.ReadFailedFrees | lib/server/sockets/Agent.js:197-205 | when a file is missing the build fails and the agent is freed |
| AgentSessions.SentWhenRead | lib/server/sockets/Agent.js:197-234 | when every file is on disk the agent is sent the files, with basenames and base64 contents, and stays busy |
| AgentSessions.AfterRegister | lib/server/sockets/Agent.js:33-39 | a `register` event, the agent's own handler and then the server's, keeps the server's invariant |
| AgentSessions.AfterRegisterHandler | lib/server/ServerSockets.js:66-77 | the server's `register` handler keeps the server's invariant |
| AgentSessions.AfterEnlistAgent | lib/server/ServerSockets.js:68-76 | logging the connection and enlisting the agent under its platforms keeps the server's invariant |
| AgentSessions.AfterUpdateAgentStatus | lib/server/sockets/Agent.js:174-178 | the agent takes the new status and building platform and keeps its build and platforms; every other agent is unchanged and one `agent-status` notice is appended; nothing else changes |
| AgentSessions.AfterAgentLog | lib/server/sockets/Agent.js:180-186 | an agent's log entry keeps the invariant, adds and removes no build, and changes only the builds, the log and the emissions |
| AgentSessions.AfterReadFailed | lib/server/sockets/Agent.js:199-204 | failing the build and freeing the agent keeps the invariant and adds and removes no build |
| AgentSessions.AfterSend | lib/server/sockets/Agent.js:206-234 | sending the build with basenames and setting the paths back keeps the invariant and adds and removes no build |
| AgentSessions.AfterFilesRead | lib/server/sockets/Agent.js:197-239 | the whole `readFiles` callback keeps the invariant and adds and removes no build |
| AgentReports.RenamedNames | lib/server/sockets/Agent.js:65-67 | each output file is named the build number, a dot and its name when the build has a number, and just its name otherwise; nothing else about it changes |
| AgentReports.RenameOutputs | lib/server/sockets/Agent.js:65-67 | the renaming loop returns exactly the renamed files of `RenamedNames` |
| AgentReports.UnknownResponseNotGuarded | lib/server/sockets/Agent.js:50-53 | for a response about an unregistered build `findBuildById` returns the response itself, so the `!build` guard never fires; as written the handler then throws at `build.Id()` with the state unchanged, logging and storing nothing, while the corrected handler logs one error and changes no build |
| AgentReports.RegisteredResponseFound | lib/server/sockets/Agent.js:50 | a registered response is found by both lookups |
| AgentReports.WithOutputs | lib/server/sockets/Agent.js:63-64 | setting a build's output files keeps the invariant, the builds and the agents |
| AgentReports.SetOutputs | lib/server/sockets/Agent.js:63-64 | only the build's output files change |
| AgentReports.AfterBuildSuccess | lib/server/sockets/Agent.js:49-67 | the invariant is kept and no build appears or disappears (corrected; see Findings lib/server/sockets/Agent.js:50-53) |
| AgentReports.BuildSuccess | lib/server/sockets/Agent.js:49-67 | returns the build the id finds and the folder its outputs go to (its master's id, or its own), and leaves the state `AfterBuildSuccess` (corrected; see Findings lib/server/sockets/Agent.js:50-53) |
| AgentReports.BuildSuccessFound | lib/server/sockets/Agent.js:55-67 | a known build keeps all but its log and takes the renamed output files; agents and queue are untouched |
| AgentReports.BuildSuccessUnknown | lib/server/sockets/Agent.js:50-53 | an unknown build changes no build and one error is logged |
| AgentReports.AfterFolderMade | lib/server/sockets/Agent.js:68-73 | the invariant and the agents are kept |
| AgentReports.FolderMade | lib/server/sockets/Agent.js:68-73 | the `mkdirs` callback leaves the state `AfterFolderMade` |
| AgentReports.FolderFailedEffect | lib/server/sockets/Agent.js:69-71 | a folder that cannot be made fails the build and leaves the agent busy with it |
| AgentReports.Completed | lib/server/sockets/Agent.js:79 | stamping the completion time keeps the invariant and the agents |
| AgentReports.SetCompleted | lib/server/sockets/Agent.js:79 | only the completion time changes |
| AgentReports.AfterWriteFailed | lib/server/sockets/Agent.js:74-77 | the invariant and the agents are kept |
| AgentReports.AfterMasterDone | lib/server/sockets/Agent.js:85-105 | the invariant and the agents are kept |
| AgentReports.AfterSucceeded | lib/server/sockets/Agent.js:78-105 | the invariant and the agents are kept |
| AgentReports.AfterSuccessStatus | lib/server/sockets/Agent.js:79-82 | the invariant and the agents are kept |
| AgentReports.AfterNotified | lib/server/sockets/Agent.js:106-115 | the invariant and the agents are kept |
| AgentReports.AfterReported | lib/server/sockets/Agent.js:106-117 | the invariant and the agents are kept |
| AgentReports.AfterOutputsWritten | lib/server/sockets/Agent.js:73-118 | the invariant is kept and no build appears or disappears |
| AgentReports.AfterWriteDone | lib/server/sockets/Agent.js:74-118 | the invariant is kept and no build appears or disappears |
| AgentReports.WriteFailed | lib/server/sockets/Agent.js:74-77 | the failed write leaves the state `AfterWriteFailed` |
| AgentReports.MasterDone | lib/server/sockets/Agent.js:85-105 | completing the master leaves the state `AfterMasterDone` |
| AgentReports.ChildrenDone | lib/server/sockets/Agent.js:86-88 | the `every` loop answers whether every child of the master is `success` or `failed` |
| AgentReports.Succeeded | lib/server/sockets/Agent.js:78-105 | the success path leaves the state `AfterSucceeded` |
| AgentReports.Notify | lib/server/sockets/Agent.js:106-115 | announcing the build leaves the state `AfterNotified` |
| AgentReports.Reported | lib/server/sockets/Agent.js:106-117 | reporting leaves the state `AfterReported` |
| AgentReports.OutputsWritten | lib/server/sockets/Agent.js:73-118 | `writeFiles` and its callback leave the state `AfterOutputsWritten` and the disk holds the files written |
| AgentReports.WriteDone | lib/server/sockets/Agent.js:74-118 | the `writeFiles` callback leaves the state `AfterWriteDone` |
| AgentReports.AfterCleaned | lib/server/sockets/Agent.js:118-124 | the invariant is kept and no build appears or disappears |
| AgentReports.Cleaned | lib/server/sockets/Agent.js:118-124 | the `cleanLastFolders` callback leaves the state `AfterCleaned` |
| AgentReports.AfterSaveLogged | lib/server/sockets/Agent.js:125-127 | the invariant, the builds and the agents are kept |
| AgentReports.SaveLogged | lib/server/sockets/Agent.js:125-127 | a failed save is logged and nothing else changes |
| AgentReports.AfterFreed | lib/server/sockets/Agent.js:128-129 | the invariant and the builds are kept |
| AgentReports.Free | lib/server/sockets/Agent.js:128-129 | freeing the agent leaves the state `AfterFreed` |
| AgentReports.AfterSaved | lib/server/sockets/Agent.js:124-139 | the invariant is kept (corrected; see Findings lib/server/sockets/Agent.js:131-137) |
| AgentReports.SaveDone | lib/server/sockets/Agent.js:124-139 | the `save` callback leaves the state `AfterSaved` (corrected; see Findings lib/server/sockets/Agent.js:131-137) |
| AgentReports.AfterDeleteFolder | lib/server/sockets/Agent.js:131-137 | the invariant is kept (corrected; see Findings lib/server/sockets/Agent.js:131-137) |
| AgentReports.AfterDeleteStale | lib/server/sockets/Agent.js:130-138 | the invariant is kept (corrected; see Findings lib/server/sockets/Agent.js:131-137) |
| AgentReports.DeleteStale | lib/server/sockets/Agent.js:130-138 | the loop over the pruned folders leaves the state `AfterDeleteStale` (corrected; see Findings lib/server/sockets/Agent.js:131-137) |
| AgentReports.DeleteFolder | lib/server/sockets/Agent.js:132-136 | one pruned folder leaves the state `AfterDeleteFolder` (corrected; see Findings lib/server/sockets/Agent.js:131-137) |
| AgentReports.AfterDeleteFolderAsWritten | lib/server/sockets/Agent.js:131-137 | the invariant is kept |
| AgentReports.AsWrittenDeletesNothing | lib/server/sockets/Agent.js:131-137 | reading `stat.path`, which the stats do not have, no pruned folder leads to a deletion unless a build has the id "undefined" |
| AgentReports.DeleteFolderShrinks | lib/server/sockets/Agent.js:132-136 | deleting a folder's build unregisters it, registers nothing and changes no build's id |
| AgentReports.FolderBuildDeleted | lib/server/sockets/Agent.js:132-136 | a pruned folder named after a registered build leaves that build unregistered |
| AgentReports.FolderStep | lib/server/sockets/Agent.js:131-137 | one folder: the id map only shrinks and the folder's build is unregistered |
| AgentReports.StaleBuildsDeleted | lib/server/sockets/Agent.js:130-138 | every pruned folder named after a registered build leaves it unregistered, whatever the order of the folders |
| AgentReports.SiblingsKept | lib/server/sockets/Agent.js:82-88 | a child's status update changes no other child's status, the master's children or its completion time |
| AgentReports.AllDoneAfter | lib/server/sockets/Agent.js:82-88 | after a child's update the completion check holds exactly when every child is done, the child counted with its new status |
| AgentReports.DoneWithIff | lib/server/sockets/Agent.js:86-88 | the children are all done after replacing one status exactly when they are with that child counted at the new status |
| AgentReports.SuccessStatusMarks | lib/server/sockets/Agent.js:79-82 | the build succeeds and keeps its new completion time |
| AgentReports.MasterDoneEffect | lib/server/sockets/Agent.js:85-105 | completing the master keeps the build's status and completion time |
| AgentReports.SucceededMarks | lib/server/sockets/Agent.js:78-105 | on success the build is completed at `now` and succeeds |
| AgentReports.CompletedKeepsMaster | lib/server/sockets/Agent.js:79 | stamping a child's completion changes neither its master nor its siblings' statuses |
| AgentReports.MasterCompletion | lib/server/sockets/Agent.js:85-105 | the master of a child that succeeds is completed at `now` exactly when all its children are done, counting the child as `success`; otherwise its completion time is kept |
| AgentReports.WriteFailedEffect | lib/server/sockets/Agent.js:74-77 | a failed write frees the output files, fails the build and leaves the agent busy |
| AgentReports.ClientNotified | lib/server/sockets/Agent.js:110-115 | a build with a client is announced by the last event, with its output files and contents exactly when it asked to `save` them |
| AgentReports.ReportedEffect | lib/server/sockets/Agent.js:106-117 | the report frees the output files, keeps the status and leaves the agent busy |
| AgentReports.ReportedKeepsNotice | lib/server/sockets/Agent.js:110-117 | after the announcement no event is taken back |
| AgentReports.SavedFrees | lib/server/sockets/Agent.js:124-139 | once the build is saved the agent is free and `ready`, whatever the pruning deleted (corrected; see Findings lib/server/sockets/Agent.js:131-137) |
| AgentReports.MarkMasterIfDone | lib/server/sockets/Agent.js:151-157 | the invariant and the agents are kept |
| AgentReports.FailAndFree | lib/server/sockets/Agent.js:158-162 | the invariant is kept |
| AgentReports.AfterBuildFailed | lib/server/sockets/Agent.js:147-172 | the invariant is kept (the completion check placed after the status update) |
| AgentReports.AfterBuildFailedAsWritten | lib/server/sockets/Agent.js:147-172 | the invariant is kept (the completion check before the status update, as written) |
| AgentReports.FailFree | lib/server/sockets/Agent.js:158-162 | failing and freeing leave the state `FailAndFree` |
| AgentReports.MarkMaster | lib/server/sockets/Agent.js:151-157 | the completion check leaves the state `MarkMasterIfDone` |
| AgentReports.BuildFailed | lib/server/sockets/Agent.js:147-172 | returns the build registered under the id, if any, and leaves the state `AfterBuildFailed` |
| AgentReports.BuildFailedUnknown | lib/server/sockets/Agent.js:169-171 | a failure report for an unknown build only logs an error |
| AgentReports.FailAndFreeStatus | lib/server/sockets/Agent.js:158-162 | the build is failed and keeps its master; the agent is freed if the build was not failed, and otherwise nothing changes |
| AgentReports.FailAndFreeMaster | lib/server/sockets/Agent.js:151-162 | the master's completion time is kept, and its children are all done afterwards exactly when they are with the build counted as `failed` |
| AgentReports.MarkMasterEffect | lib/server/sockets/Agent.js:151-157 | the check stamps the master if all its children are done, and changes nothing else |
| AgentReports.BuildFailedFrees | lib/server/sockets/Agent.js:147-168 | a known build ends up failed and saved; if it was not failed before the agent is freed and `ready`, otherwise no agent changes |
| AgentReports.BuildFailedCompletion | lib/server/sockets/Agent.js:147-168 | a failed build's master is completed at `now` exactly when all its children are done, the failed build counted as `failed` |
| AgentReports.AsWrittenMissesLastFailure | lib/server/sockets/Agent.js:151-162 | as written, when the failing build is the last child not done its master is never completed, while the corrected order completes it |
| ClientSessions.WarnedExactly | lib/server/sockets/Client.js:146-151 | a warning names a platform exactly when that platform was requested and no agent serves it |
| ClientSessions.AfterWarnings | lib/server/sockets/Client.js:146-151 | the pass keeps the invariant and changes only logs and events |
| ClientSessions.WarningsLogged | lib/server/sockets/Client.js:146-151 | the pass logs exactly the warnings, newest first, and changes only the builds' logs |
| ClientSessions.AfterReject | lib/server/sockets/Client.js:137-144 | a refusal keeps the invariant and makes no build (corrected; see Findings lib/server/sockets/Client.js:137-143) |
| ClientSessions.AfterValidate | lib/server/sockets/Client.js:134-153 | validation keeps the invariant and makes no build (corrected; see Findings lib/server/sockets/Client.js:137-143) |
| ClientSessions.ValidateVerdict | lib/server/sockets/Client.js:134-153 | a request is refused exactly when it has no configuration or no platforms, accepted only with a non-empty platform list, and a throw changes nothing |
| ClientSessions.ValidateAcceptOnlyWarns | lib/server/sockets/Client.js:146-152 | an accepted request only logs its warnings: no build but for its log, and no list of the server, changes |
| ClientSessions.ValidateRejectMarks | lib/server/sockets/Client.js:137-144 | a refused request naming a registered build marks that build failed |
| ClientSessions.RejectAsWrittenMarksNothing | lib/server/sockets/Client.js:137-143 | as written the status update looks the request object up as `[object Object]`, so no registered build is marked failed |
| ClientSessions.WarnEach | lib/server/sockets/Client.js:146-151 | the loop leaves the state `AfterWarnings` |
| ClientSessions.Reject | lib/server/sockets/Client.js:137-144 | a refusal leaves the state `AfterReject` (corrected; see Findings lib/server/sockets/Client.js:137-143) |
| ClientSessions.Validate | lib/server/sockets/Client.js:134-153 | returns the verdict and leaves the state of `AfterValidate` (corrected; see Findings lib/server/sockets/Client.js:137-143) |
| ClientSessions.UpdateLeavesOthers | lib/server/sockets/Client.js:118 | updating a build's status leaves every build other than it and its master with its status |
| ClientSessions.ChildApart | lib/server/sockets/Client.js:113-117 | a child is neither its master nor the master's master |
| ClientSessions.MarkFailed | lib/server/sockets/Client.js:113-115 | exactly the listed builds become `failed`; the others are unchanged and the build graph keeps its shape |
| ClientSessions.MarkFailedStep | lib/server/sockets/Client.js:113-115 | one more child marked |
| ClientSessions.FailedHeap | lib/server/sockets/Client.js:112-117 | the build graph keeps its shape |
| ClientSessions.FailedState | lib/server/sockets/Client.js:112-117 | the invariant is kept |
| ClientSessions.AfterFailBuild | lib/server/sockets/Client.js:109-120 | the invariant is kept |
| ClientSessions.FailBuildMarks | lib/server/sockets/Client.js:109-120 | `onFailBuild` on a registered build leaves it `failed` and unregisters nothing |
| ClientSessions.FailBuildMarksChildren | lib/server/sockets/Client.js:112-116 | each child of a failed build is left `failed` |
| ClientSessions.FailedChild | lib/server/sockets/Client.js:112-116 | a child of the failed build is marked `failed` directly, and is neither the build nor its master |
| ClientSessions.FailBuildIs | lib/server/sockets/Client.js:109-120 | on a registered build, `onFailBuild` sets the statuses directly and then updates the build through `updateBuildStatus` |
| ClientSessions.FailBuildUnknown | lib/server/sockets/Client.js:110-111 | an id that is not registered changes nothing |
| ClientSessions.FailBuild | lib/server/sockets/Client.js:109-120 | `onFailBuild` leaves the state `AfterFailBuild` |
| ClientSessions.MarkAll | lib/server/sockets/Client.js:112-117 | the loop marks the children and then the build, as `FailedHeap` |
| ClientSessions.MarkNext | lib/server/sockets/Client.js:113-115 | one turn marks the next child |
| ClientSessions.ChildNumber | lib/server/sockets/Client.js:50 | a child's number is the master's, a dot and the platform when the master has one, and empty otherwise |
| ClientSessions.MadeIdsStep | lib/server/sockets/Client.js:54 | one more child is indexed under its generated id |
| ClientSessions.MadeKeys | lib/server/sockets/Client.js:44-55 | the references are the old ones, the root and its children |
| ClientSessions.MadeKeeps | lib/server/sockets/Client.js:44-55 | old builds are left as they were |
| ClientSessions.MadeRootAt | lib/server/sockets/Client.js:44-52 | the root lists its children |
| ClientSessions.MadeChildAt | lib/server/sockets/Client.js:49-55 | the children follow the root, one per platform |
| ClientSessions.MadeAt | lib/server/sockets/Client.js:44-55 | what is at each reference once the root and its children are made |
| ClientSessions.MadeWf | lib/server/sockets/Client.js:44-55 | the made builds keep the shape of the build graph |
| ClientSessions.MadeIdsIn | lib/server/sockets/Client.js:46-54 | every indexed id names an old build, the root or a made child |
| ClientSessions.MadeCore | lib/server/sockets/Client.js:44-55 | the made state keeps the invariant, every reference below the next free one |
| ClientSessions.MadeIs | lib/server/sockets/Client.js:44-55 | the made state, field by field |
| ClientSessions.RootGrows | lib/server/sockets/Client.js:52 | the root with one more child listed |
| ClientSessions.MakeRoot | lib/server/sockets/Client.js:44-48 | the root goes on the builds list and into the id map with no children yet |
| ClientSessions.MadeStepHeap | lib/server/sockets/Client.js:49-55 | the builds after one more pass |
| ClientSessions.AddChild | lib/server/sockets/Client.js:49-55 | one pass makes the child for the next platform at the next free reference, listed by the root and indexed by its id |
| ClientSessions.AddChildren | lib/server/sockets/Client.js:49-55 | the `forEach` over the platforms adds one child per requested platform in request order, and changes nothing else of the server |
| ClientSessions.MakeAll | lib/server/sockets/Client.js:44-55 | the root and one child per requested platform, in request order |
| ClientSessions.MadeIdsChild | lib/server/sockets/Client.js:54 | where later generated ids do not repeat it, each child is indexed under its id |
| ClientSessions.MadeIdsRoot | lib/server/sockets/Client.js:46-54 | where no child's id repeats it, the root is indexed under its id |
| ClientSessions.MadeIdsKeep | lib/server/sockets/Client.js:46-54 | a registered id that no made build takes keeps its build |
| ClientSessions.Announced | lib/server/sockets/Client.js:56 | the announcement keeps the invariant and changes only logs and events |
| ClientSessions.AfterCreate | lib/server/sockets/Client.js:44-57 | the invariant is kept over the made builds |
| ClientSessions.CreateRoot | lib/server/sockets/Client.js:44-57 | the root is made at the next free reference as the request asked, with the sending client, no master, its children and the requested status, and is appended to the builds list |
| ClientSessions.AnnouncedKeeps | lib/server/sockets/Client.js:56 | announcing changes no build but for its log |
| ClientSessions.CreateAt | lib/server/sockets/Client.js:57 | the status update leaves every made build but the root as made, but for its log |
| ClientSessions.CreateChild | lib/server/sockets/Client.js:49-55 | the child for the j-th platform is a copy of the configuration for that platform, numbered after the root, linked to the root and with the requested status |
| ClientSessions.MadeChild | lib/server/sockets/Client.js:49-55 | the child made for the j-th requested platform sits at the j-th reference after the root |
| ClientSessions.CreateKeepsOld | lib/server/sockets/Client.js:44-57 | builds already registered keep their status and all but their log |
| ClientSessions.CreateIndexes | lib/server/sockets/Client.js:46-54 | the id map gains the root's and the children's ids and the next free reference moves past the last child |
| ClientSessions.Create | lib/server/sockets/Client.js:44-57 | making and announcing leave the state `AfterCreate` |
| ClientSessions.Stamped | lib/server/sockets/Client.js:40-41 | the request with `started` set to now and nothing else changed |
| ClientSessions.AfterRegisterBuild | lib/server/sockets/Client.js:39-59 | the invariant is kept |
| ClientSessions.RegisterRefusedMakesNothing | lib/server/sockets/Client.js:39-42 | a request without configuration, or one validation refuses, makes no build and leaves registry, builds list and queue alone |
| ClientSessions.RegisterAcceptedRoot | lib/server/sockets/Client.js:39-57 | an accepted request makes its root at the next free reference with its status and start time, appended to the builds list, and its children at the next references; the queue is untouched |
| ClientSessions.RegisterIsCreate | lib/server/sockets/Client.js:39-57 | an accepted registration is the warnings, then the root and its children made from the stamped configuration |
| ClientSessions.RegisterKeepsOld | lib/server/sockets/Client.js:39-57 | an accepted request leaves every older build with its status |
| ClientSessions.ChildBuildIs | lib/server/sockets/Client.js:50-53 | the child for a platform has that platform alone, the derived number, the root as master, its own id and an empty log |
| ClientSessions.RegisterBuild | lib/server/sockets/Client.js:39-59 | `onRegisterBuild` leaves the state `AfterRegisterBuild` |
| ClientUploads.ForPlatformIff | lib/server/sockets/Client.js:95-99 | a file is among the child's exactly when it was uploaded and has no group or the child's platform as group |
| ClientUploads.ForPlatformAppend | lib/server/sockets/Client.js:95-99 | the selection keeps the upload order: selecting from a concatenation is concatenating the selections |
| ClientUploads.UngroupedEverywhere | lib/server/sockets/Client.js:96 | files without a group go to every platform |
| ClientUploads.SelectFiles | lib/server/sockets/Client.js:94-99 | the loop returns exactly the files meant for the platform, in upload order |
| ClientUploads.KeptTrans | lib/server/sockets/Client.js:93-105 | keeping all but statuses, logs and files is transitive |
| ClientUploads.WithFiles | lib/server/sockets/Client.js:100 | the invariant is kept |
| ClientUploads.Enqueued | lib/server/sockets/Client.js:101-103 | the invariant is kept |
| ClientUploads.AfterQueueChild | lib/server/sockets/Client.js:93-105 | the invariant is kept |
| ClientUploads.QueueChildKeeps | lib/server/sockets/Client.js:93-105 | a turn changes only statuses, logs and the child's files |
| ClientUploads.QueueChildLists | lib/server/sockets/Client.js:103 | a turn appends the child to the queue and leaves the registry alone |
| ClientUploads.QueueChildSets | lib/server/sockets/Client.js:100-101 | a turn leaves the child `queued` with the files meant for its platform |
| ClientUploads.QueueChildLeaves | lib/server/sockets/Client.js:93-105 | a turn leaves the status of every build other than the child and its master, and every other build's files, as they were |
| ClientUploads.QueueChildMaster | lib/server/sockets/Client.js:101 | after a turn the master's status is the one its children give |
| ClientUploads.AfterQueueChildren | lib/server/sockets/Client.js:93-105 | the invariant is kept |
| ClientUploads.QueueChildrenKept | lib/server/sockets/Client.js:93-105 | the children's turns change only statuses, logs and the children's files |
| ClientUploads.QueueChildrenQueue | lib/server/sockets/Client.js:93-105 | the children go on the queue once each, in order, and the registry is untouched |
| ClientUploads.AppendLast | lib/server/sockets/Client.js:103 | appending the children one at a time is appending them all |
| ClientUploads.ChildrenOfRootKept | lib/server/sockets/Client.js:93-105 | the root keeps its children through the turns |
| ClientUploads.QueueChildrenEach | lib/server/sockets/Client.js:93-105 | each child ends `queued` with the files meant for its platform |
| ClientUploads.QueueLastSets | lib/server/sockets/Client.js:93-105 | after all the turns, the last child is `queued` with the files meant for its platform |
| ClientUploads.QueueLastLeaves | lib/server/sockets/Client.js:93-105 | the last child's turn leaves an earlier child `queued` with the files it already had |
| ClientUploads.QueuedIndex | lib/server/sockets/Client.js:101 | `queued` is the fifth status of the ordering a master's status is taken from |
| ClientUploads.AllSame | lib/server/sockets/Client.js:101 | children that all have the same status give their master that status |
| ClientUploads.QueueChildrenMaster | lib/server/sockets/Client.js:93-105 | after the last turn the root's status is the one its children give |
| ClientUploads.QueueChildren | lib/server/sockets/Client.js:93-105 | the loop leaves the state `AfterQueueChildren` |
| ClientUploads.QueueChildrenStep | lib/server/sockets/Client.js:93-105 | one more turn |
| ClientUploads.QueueChild | lib/server/sockets/Client.js:94-104 | one turn leaves the state `AfterQueueChild` |
| ClientUploads.RootQueued | lib/server/sockets/Client.js:91-92 | the invariant is kept |
| ClientUploads.AfterSaveFiles | lib/server/sockets/Client.js:84-107 | the invariant is kept and no build appears or disappears |
| ClientUploads.SaveFailedMarks | lib/server/sockets/Client.js:87-89 | a write error fails the build and queues nothing |
| ClientUploads.RootQueuedKeeps | lib/server/sockets/Client.js:91-92 | queuing the root keeps all but statuses and logs and leaves the server's lists alone |
| ClientUploads.SaveQueuesChildren | lib/server/sockets/Client.js:90-106 | with the files saved, the build's children go on the queue once each, in order, and nothing else does |
| ClientUploads.SaveQueuesChild | lib/server/sockets/Client.js:93-105 | with the files saved, each child is `queued` and holds exactly the root's files meant for its platform, in upload order |
| ClientUploads.SaveQueuesRoot | lib/server/sockets/Client.js:90-106 | with the files saved, the root ends `queued`, directly or through its children |
| ClientUploads.SaveFiles | lib/server/sockets/Client.js:84-107 | `saveFiles` leaves the state `AfterSaveFiles` |
| ClientUploads.Stored | lib/server/sockets/Client.js:72-80 | the invariant is kept and the pending write names the build |
| ClientUploads.AfterUploadBuild | lib/server/sockets/Client.js:61-82 | the invariant is kept and a pending write names a build |
| ClientUploads.UploadUnknownStoresNothing | lib/server/sockets/Client.js:65-69 | an upload naming no registered build stores and queues nothing; every build keeps all but its log |
| ClientUploads.ValidateKeepsFiles | lib/server/sockets/Client.js:134-153 | validation changes no build's files, the queue or the registry |
| ClientUploads.RejectKeepsFiles | lib/server/sockets/Client.js:137-144 | a refusal changes no build's files, the queue or the registry |
| ClientUploads.UploadStores | lib/server/sockets/Client.js:64-80 | an accepted upload naming a registered build gives it the uploaded files, moved to its input folder without content, or as they came when the folder could not be made; `saveFiles` gets the write error |
| ClientUploads.UploadedFile | lib/server/sockets/Client.js:76-78 | a written file sits in the input folder under the text after its path's last separator, with its content freed |
| ClientUploads.UploadBuild | lib/server/sockets/Client.js:61-82 | `onUploadBuild` leaves the state and the disk of `AfterUploadBuild` |
| ClientUploads.Store | lib/server/sockets/Client.js:72-80 | the `writeFiles` call stores into the build's input folder and leaves the disk with the files written |
| ServerUtils.Slashed | lib/common/serverUtils.js:22 | every backslash becomes a slash and every other character stays |
| ServerUtils.StoredNameIsReplace | lib/common/serverUtils.js:22 | the stored name is what remains after the last slash once backslashes are slashes |
| ServerUtils.SlashedInit | lib/common/serverUtils.js:22 | converting separators commutes with dropping the last character |
| ServerUtils.StoredNameIsTail | lib/common/serverUtils.js:22 | the stored name holds no separator of either kind and is a tail of the path |
| ServerUtils.StoredNamePlain | lib/common/serverUtils.js:22 | a path without separators is stored under its own name |
| ServerUtils.WrittenFile | lib/common/serverUtils.js:22-35 | a written file's path is its stored name inside the folder, its group and name are kept, and it keeps its content only when `doNotFreeMem` is set |
| ServerUtils.WrittenAll | lib/common/serverUtils.js:21-42 | each file of the list is written as `WrittenFile` |
| ServerUtils.WriteFiles | lib/common/serverUtils.js:9-53 | the outcome is the folder error, or the files written and the first write error; the disk is unchanged when the folder cannot be made and otherwise holds the files |
| ServerUtils.WriteEach | lib/common/serverUtils.js:20-50 | the loop writes every file, leaves the disk with all the writes and reports the first error |
| ServerUtils.Appended | lib/common/serverUtils.js:21-42 | one more written file at the end of the list |
| ServerUtils.WriteStep | lib/common/serverUtils.js:21-42 | one more file written: the disk and the first error of the longer prefix |
| ServerUtils.WriteOneFile | lib/common/serverUtils.js:22-41 | one file is moved, its error computed and the disk updated |
| ServerUtils.WriteErrorIff | lib/common/serverUtils.js:25-41 | writing reports an error exactly when some file has no content or its write fails |
| ServerUtils.ResolveInjective | lib/common/serverUtils.js:23 | distinct stored names give distinct paths in one folder |
| ServerUtils.WrittenBytes | lib/common/serverUtils.js:26-28 | the bytes at a file's stored path are its decoded content when it is the last file of the list stored there |
| ServerUtils.UntouchedPaths | lib/common/serverUtils.js:21-42 | paths no file is stored under keep their bytes |
| ServerUtils.OmittedFrees | lib/common/serverUtils.js:10-13 | with the fourth argument left out, contents are freed as with `doNotFreeMem` false |
| ServerUtils.FreeMemFiles | lib/common/serverUtils.js:55-59 | every file loses its content and keeps everything else |
| ServerUtils.Freed | lib/common/serverUtils.js:55-59 | every file loses its content and keeps everything else |
| ServerUtils.ReadFile | lib/common/serverUtils.js:64-75 | a file found on disk gets the base64 encoding of its bytes as content; its path, group and name are kept |
| ServerUtils.ReadAll | lib/common/serverUtils.js:62-82 | each file of the list is read as `ReadFile` |
| ServerUtils.ReadFiles | lib/common/serverUtils.js:61-86 | every file is read and the error names the first missing file with the location |
| ServerUtils.ReadAppended | lib/common/serverUtils.js:63-76 | one more read file at the end of the list |
| ServerUtils.ReadStep | lib/common/serverUtils.js:63-76 | one more file read: the first error of the longer prefix |
| ServerUtils.ReadErrorIff | lib/common/serverUtils.js:63-81 | reading fails exactly when some file is missing on disk |
| ServerUtils.ReadThenWrite | lib/common/serverUtils.js:26-70 | a file read from a path and written into a folder holds the bytes that were at that path, unless a later file has the same stored name |
| ServerUtils.Dirs | lib/common/serverUtils.js:115-117 | the result holds only directories, drawn from the entries |
| ServerUtils.DirsKeepsDirs | lib/common/serverUtils.js:115-117 | every directory entry is kept |
| ServerUtils.Insert | lib/common/serverUtils.js:120-122 | inserting adds exactly the one entry |
| ServerUtils.InsertWithTime | lib/common/serverUtils.js:120-122 | an inserted entry goes before the entries as old as it, and the entries of every other age keep their order |
| ServerUtils.InsertSorted | lib/common/serverUtils.js:120-122 | inserting into a list sorted newest first keeps it sorted |
| ServerUtils.InsertFrom | lib/common/serverUtils.js:120-122 | an entry of the result is the inserted one or one of the list |
| ServerUtils.ConsSorted | lib/common/serverUtils.js:120-122 | an entry at least as new as every entry of a sorted list can go in front |
| ServerUtils.ByAge | lib/common/serverUtils.js:120-122 | the sort is a permutation of the entries |
| ServerUtils.ByAgeSorted | lib/common/serverUtils.js:120-122 | the sort puts the newest entries first |
| ServerUtils.ByAgeStable | lib/common/serverUtils.js:120-122 | the sort is stable: the entries of each age come out in their input order |
| ServerUtils.ByAgeTie | lib/common/serverUtils.js:120-122 | two directories of the same age keep the order in which they were listed |
| ServerUtils.CleanLastFolders | lib/common/serverUtils.js:88-133 | a `keepLast` of zero or less does nothing; a glob error or an empty listing ends early; a failed `fs.stat` crashes at `filestats.isDirectory()` and `done` never runs; otherwise the directories beyond the newest `keepLast` are removed and returned, with the first removal error |
| ServerUtils.FilterDirs | lib/common/serverUtils.js:115-117 | the loop returns `Dirs` |
| ServerUtils.DirsStep | lib/common/serverUtils.js:115-117 | one more entry filtered |
| ServerUtils.RemoveEach | lib/common/serverUtils.js:126-130 | no error exactly when every removal succeeds; an error is that of a failed removal |
| ServerUtils.PrunedDirs | lib/common/serverUtils.js:114-124 | only directories are deleted; a positive `keepLast` deletes all but that many; zero or less deletes nothing |
| ServerUtils.PrunedKeepsNewest | lib/common/serverUtils.js:114-124 | every directory is kept or deleted, and each kept one is at least as new as each deleted one |
| ServerUtils.SortedSplit | lib/common/serverUtils.js:120-124 | in a list sorted newest first, each entry before a cut is at least as new as each after it |
| AgentWorkers.Gate | lib/agent/AgentWorker.js:172-177 | events go out exactly while the current build is not cancelled (or there is none), and are dropped otherwise |
| AgentWorkers.GateAppend | lib/agent/AgentWorker.js:172-177 | gating a list is gating its parts |
| AgentWorkers.Alone | lib/agent/AgentWorker.js:146 | the agent's build stands alone in a well-formed one-build heap |
| AgentWorkers.Freed | lib/agent/AgentWorker.js:383 | after `buildFailed` the input files lose their contents and everything else about the build is kept |
| AgentWorkers.FailureReport | lib/agent/AgentWorker.js:373-390 | a failure emits the error, the `BUILD FAILED` banner, then `build-failed` with the build whose files were freed |
| AgentWorkers.ExitClassification | lib/agent/AgentWorker.js:240-255 | exit code 1 is never a failure, any other non-zero code is, and an error without a code fails like one with a code other than 1 |
| AgentWorkers.ExecLogs | lib/agent/AgentWorker.js:237-245 | the callback logs at most the output, the error and the standard error, nothing when all are empty, and the output first when there is any |
| AgentWorkers.Label | lib/agent/AgentWorker.js:327-339 | a package file gets `conf.name` plus its extension as name when a name is configured; other files keep their name; path, group and content are kept |
| AgentWorkers.Kept | lib/agent/AgentWorker.js:346-351 | the agent keeps each output file labelled, with its full path and no content |
| AgentWorkers.Shipped | lib/agent/AgentWorker.js:327-345 | each output file is uploaded as labelled with its base name |
| AgentWorkers.UploadedNames | lib/agent/AgentWorker.js:339-348 | the upload sends base names with contents, while the files kept have their full paths back and no contents |
| AgentWorkers.AgentWorker.constructor | lib/agent/AgentWorker.js:30-34 | the worker takes its generated id and options, works in `agentwork` or `work`, and has no build and has sent nothing |
| AgentWorkers.AgentWorker.Send | lib/agent/AgentWorker.js:172-177 | the event is sent exactly when the gate is open, and the result says whether it was |
| AgentWorkers.AgentWorker.Log | lib/agent/AgentWorker.js:187-200 | the message goes out through the gate |
| AgentWorkers.AgentWorker.EnsureWorkFolder | lib/agent/AgentWorker.js:207-220 | the folder error is handed on; a failure is logged first and success sends nothing |
| AgentWorkers.AgentWorker.OnCancelBuild | lib/agent/AgentWorker.js:122-131 | the current build becomes `cancelled` and the worker is halted; with no build nothing changes |
| AgentWorkers.AgentWorker.BuildFailed | lib/agent/AgentWorker.js:368-391 | nothing once the build is cancelled; otherwise `FailureReport` is sent, the files are freed and the build is saved |
| AgentWorkers.AgentWorker.Announce | lib/agent/AgentWorker.js:318-348 | returns the saved paths and the shipped files and sends `UploadReport` |
| AgentWorkers.AgentWorker.NoteSize | lib/agent/AgentWorker.js:319-325 | the size announcement is logged exactly when the output files have contents, and only while the current build is not cancelled |
| AgentWorkers.AgentWorker.OnBuild | lib/agent/AgentWorker.js:138-167 | a missing payload, or one without `conf`, throws in `buildFailed` and changes nothing; a `conf` whose platform is unset or empty is refused with the intended report (corrected; see Findings lib/agent/AgentWorker.js:142-143); otherwise `building` is announced through the old build's gate, the payload becomes the current build located in the work folder, and is started when its platform is the name `wp8`, `android` or `ios`; any other platform, a list of platforms (even an empty one) included, fails it, is saved and is reported |
| AgentWorkers.AgentWorker.RejectPayload | lib/agent/AgentWorker.js:139-144 | a refused payload is reported with the intended events (corrected; see Findings lib/agent/AgentWorker.js:142-143) |
| AgentWorkers.AgentWorker.ExecFinished | lib/agent/AgentWorker.js:233-249 | nothing for a cancelled build; otherwise the logs of `ExecLogs` are sent, the callback runs, and the build fails when there is standard error or a failing error |
| AgentWorkers.AgentWorker.ExecClosed | lib/agent/AgentWorker.js:250-257 | a code other than 0 and 1 fails a live build with `exitCodeError` or the default message; otherwise nothing changes |
| AgentWorkers.AgentWorker.ExecStdout | lib/agent/AgentWorker.js:258-263 | output mentioning `error:` fails a live build; any other output is logged |
| AgentWorkers.AgentWorker.ExecStderr | lib/agent/AgentWorker.js:264-266 | every chunk on the standard error stream is logged as an error about the build, and nothing else changes |
| AgentWorkers.AgentWorker.Globbed | lib/agent/AgentWorker.js:283-295 | nothing for a cancelled build; a glob error fails it; otherwise the files, resolved in the build's folder, are announced as `uploading` |
| AgentWorkers.AgentWorker.FilesRead | lib/agent/AgentWorker.js:296-305 | nothing for a cancelled build; a read error fails it; otherwise the files are uploaded |
| AgentWorkers.AgentWorker.UploadFiles | lib/agent/AgentWorker.js:315-359 | the build keeps the `Kept` output files, is saved next to its folder, and the upload report is sent through the gate |
| AgentWorkers.AsBuild | lib/agent/AgentWorker.js:139-144 | the payload as a standalone build with its id |
| AgentWorkers.Accepted | lib/agent/AgentWorker.js:146 | the new build has the payload's conf, files and master id, no output files, and the payload's id or a fresh one |
| AgentWorkers.RejectAsWrittenNeverReports | lib/agent/AgentWorker.js:142-143 | as written, `buildFailed` on the raw payload logs the error and the banner and then throws, at `freeMemFiles` when the payload has no files and otherwise at `path.resolve(build.locationPath, …)`, so the coordinator never hears of the failure |
| AgentWorkers.RejectIntendedReports | lib/agent/AgentWorker.js:142-143 | the intended refusal of a payload that is not cancelled ends with `build-failed` for the payload's id, whatever the previous build's status, and otherwise sends what the code as written sends |
| AgentWorkers.BuildingGatedByOldBuild | lib/agent/AgentWorker.js:145-147 | after a cancelled build, `building` is not announced for the next one, because the gate still looks at the old build |
| AgentWorkers.LocatedAll | lib/agent/AgentWorker.js:292-294 | each globbed path is resolved in the build's folder |
| AgentWorkers.UploadReport | lib/agent/AgentWorker.js:323-345 | the size announcement when the total is non-zero, then `build-success` with the shipped files |
| AgentWorkers.SizeOf | lib/agent/AgentWorker.js:319-322 | the loop adds up the content sizes |
| AgentWorkers.Rename | lib/agent/AgentWorker.js:326-340 | the loop remembers each path and returns the shipped files |
| AgentWorkers.Restore | lib/agent/AgentWorker.js:346-348 | every file gets its remembered path back |
| AgentWorkers.KeptIs | lib/agent/AgentWorker.js:339-351 | renaming, restoring and freeing leave the labelled files with their own paths and no contents |
| GenericBuilds.EmptyGlobShape | lib/agent/GenericBuild.js:98-102 | the emptying glob is the location, a separator (added only when the location does not end in one) and `*` |
| GenericBuilds.BundleId | lib/agent/GenericBuild.js:206 | the platform's own bundle id setting when set, and the general `bundleid` otherwise |
| GenericBuilds.CloseFrom | lib/agent/GenericBuild.js:216 | the lazy match closes at a quote at or after the start, or there is none |
| GenericBuilds.MatchLength | lib/agent/GenericBuild.js:216 | a match of the widget pattern is at least `<widget id=` and two quotes long and fits the text |
| GenericBuilds.RewriteUntouched | lib/agent/GenericBuild.js:216 | a text without `<widget id=` is left as it is |
| GenericBuilds.CloseAfter | lib/agent/GenericBuild.js:216 | a value without quotes or line ends is closed by the quote right after it |
| GenericBuilds.RewriteWidget | lib/agent/GenericBuild.js:216 | a widget id in either kind of quotes is replaced by `<widget id="bundleid"` and the rewrite goes on after it |
| GenericBuilds.DefaultFormat | lib/agent/GenericBuild.js:43 | the default template with its three arguments is `cordova build <platform> <args> --<mode>` |
| GenericBuilds.DefaultCommandLine | lib/agent/GenericBuild.js:285-311 | the default command line starts with `cordova build <platform> <args> --<mode>`, mode `release` when unset; the log pipeline is appended on iOS and Android only |
| GenericBuilds.FirstLineEnd | lib/agent/GenericBuild.js:336 | the first line end of the text, or its length, with no line end before it |
| GenericBuilds.TrimEolOneLine | lib/agent/GenericBuild.js:335-337 | a chunk that is one line followed by `\n`, `\r\n` or `\r` loses the line break |
| GenericBuilds.TrimEolMultiLine | lib/agent/GenericBuild.js:335-337 | a chunk of several lines ending in `\n` or `\r` keeps its trailing line break, because the multiline pattern matches at the first line end |
| GenericBuilds.TrimEolMultiLineCrLf | lib/agent/GenericBuild.js:335-337 | with `\r\n` line ends, the first line loses its `\r` and the last line break is kept |
| GenericBuilds.FirstLineEndAt | lib/agent/GenericBuild.js:336 | the first line end is where the prefix without line ends stops |
| GenericBuilds.AsWrittenOutputPrefixed | lib/agent/GenericBuild.js:338 | as written, the priority `Msg.build_output` is undefined, so build output is rendered behind the signature prefix and never as itself |
| GenericBuilds.OutputUnprefixed | lib/agent/GenericBuild.js:338 | with the build-log priority intended, a plain output line is rendered as itself |
| GenericBuilds.EnsureFailureAsWrittenLosesReason | lib/agent/GenericBuild.js:94-96 | as written, passing the build again shifts the arguments, so the text logged is the object's text and the stack; the reason and folder are lost |
| GenericBuilds.EnsureFailureNamesFolder | lib/agent/GenericBuild.js:94-96 | the intended text names the folder and the error |
| GenericBuilds.ExtractNotes | lib/agent/GenericBuild.js:160-172 | one note per file |
| GenericBuilds.Paths | lib/agent/GenericBuild.js:166 | the paths of the files, in order |
| GenericBuilds.Emptied | lib/agent/GenericBuild.js:103-111 | a glob error goes on as if the folder were empty; otherwise the removal error is handed on |
| GenericBuilds.LocationNoteFormatted | lib/agent/GenericBuild.js:130 | the location message is `the agentworker on <platform>` |
| GenericBuilds.WrittenBuildFiles | lib/agent/GenericBuild.js:130-131 | writing changes only the build's files: once the folder exists each points at its stored name in the location without contents, and otherwise nothing changes |
| GenericBuilds.BuildNotes | lib/agent/GenericBuild.js:282-314 | two notes, the second the status line `Executing <cmd>` |
| GenericBuilds.GenericBuild.constructor | lib/agent/GenericBuild.js:37-46 | the sequence keeps the agent and hooks, and the command is the given one or the default |
| GenericBuilds.GenericBuild.Start | lib/agent/GenericBuild.js:47 | in reuse mode the work folder is ensured and then files are written; otherwise the cleanup starts unless the build is cancelled |
| GenericBuilds.GenericBuild.S1Cleanup | lib/agent/GenericBuild.js:61-66 | nothing for a cancelled build; otherwise the old folders beyond `keep` in the work folder are pruned |
| GenericBuilds.GenericBuild.S1CleanupDone | lib/agent/GenericBuild.js:73-83 | nothing for a cancelled build; a cleanup error is only logged, with keep, platform, folder and error; then the work folder is ensured |
| GenericBuilds.GenericBuild.S2EmptyWorkFolder | lib/agent/GenericBuild.js:90-113 | nothing for a cancelled build; a missing work folder fails the build with the intended message; otherwise everything in the location is removed |
| GenericBuilds.GenericBuild.S3WriteFiles | lib/agent/GenericBuild.js:120-132 | nothing for a cancelled build; a cleaning error fails it; otherwise the files are written into the location |
| GenericBuilds.GenericBuild.WriteBuildFiles | lib/agent/GenericBuild.js:130-131 | the build takes its written files, the disk holds them, and the write outcome goes to `s4ProcessFiles` |
| GenericBuilds.GenericBuild.S4ProcessFiles | lib/agent/GenericBuild.js:139-152 | nothing for a cancelled build; a write error fails it; otherwise the extraction note and one note per file are logged and every file is extracted |
| GenericBuilds.GenericBuild.NoteEach | lib/agent/GenericBuild.js:151-172 | the loop logs one note per file, in order |
| GenericBuilds.GenericBuild.S6AllFilesExtracted | lib/agent/GenericBuild.js:179-192 | nothing for a cancelled build; an extraction error fails it; otherwise the `filesDone` hook runs, or the config step directly |
| GenericBuilds.GenericBuild.S6ModifyConfigXML | lib/agent/GenericBuild.js:201-229 | a non-empty command replaces the build command even when cancelled; then, unless cancelled, the bundle id is written into `config.xml` when there is one, or the hooks step follows |
| GenericBuilds.GenericBuild.ConfigWasRead | lib/agent/GenericBuild.js:212-217 | a read error fails a live build with the failure report, freeing its files and saving it, and changes nothing on a cancelled one; otherwise the rewritten text is written back and nothing is sent or saved |
| GenericBuilds.GenericBuild.ConfigWasWritten | lib/agent/GenericBuild.js:218-224 | a write error fails a live build naming the bundle id and path, freeing its files and saving it, and changes nothing on a cancelled one; otherwise the sequence goes on without touching the build |
| GenericBuilds.GenericBuild.S6DeleteHooks | lib/agent/GenericBuild.js:234-247 | the decision to build follows at once |
| GenericBuilds.GenericBuild.S6DecideExecuteCordovaBuild | lib/agent/GenericBuild.js:252-265 | nothing for a cancelled build; the hook decides when there is one, otherwise the standard build runs |
| GenericBuilds.GenericBuild.HookAnswered | lib/agent/GenericBuild.js:257-261 | the standard build runs unless the hook passed `false`; a hook error fails a live build with the failure report, freeing its files and saving it; a cancelled build is left as it is |
| GenericBuilds.GenericBuild.S7BuildCordova | lib/agent/GenericBuild.js:275-350 | nothing for a cancelled build; a hook error fails it with the failure report, its files freed and the build saved; otherwise the command is logged and run in the location |
| GenericBuilds.GenericBuild.Launch | lib/agent/GenericBuild.js:282-323 | the two notes are logged and the command for the arguments is run in the location |
| GenericBuilds.GenericBuild.Closed | lib/agent/GenericBuild.js:325-332 | a code other than 0 and 1 fails a live build; otherwise nothing changes |
| GenericBuilds.GenericBuild.Stdout | lib/agent/GenericBuild.js:334-339 | a live build logs the chunk without its line break as unprefixed build output (corrected; see Findings lib/agent/GenericBuild.js:338) |
| GenericBuilds.GenericBuild.Stderr | lib/agent/GenericBuild.js:341-349 | a chunk saying `BUILD FAILED` fails a live build; any other is logged as an error |
| GenericBuilds.GenericBuild.S8BuildExecuted | lib/agent/GenericBuild.js:361-384 | nothing for a cancelled build; the output and errors are logged; a failing error fails the build with the `undefined` message, otherwise `done` runs; the output is logged with the build-log priority (corrected; see Findings lib/agent/GenericBuild.js:366) |
| GenericBuilds.EnsureFailureReported | lib/agent/GenericBuild.js:94-96 | the intended message is the first event of the failure report |
| ClientWorkers.NonEmpty | lib/client/ClientWorker.js:280-284 | the pieces kept are no more than the pieces |
| ClientWorkers.Entries | lib/client/ClientWorker.js:282 | one entry per name |
| ClientWorkers.NonEmptyKeeps | lib/client/ClientWorker.js:281 | every piece kept is non-empty and one of the pieces |
| ClientWorkers.EntriesAt | lib/client/ClientWorker.js:282 | each entry is the name at the same place, in the group, with no content |
| ClientWorkers.ParseGroupFiles | lib/client/ClientWorker.js:274-288 | the nested loops return `GroupFiles`: the entries of `files` without a group, then each platform's, or nothing when a group has no list |
| ClientWorkers.AddGroup | lib/client/ClientWorker.js:277-285 | the entry loop of one group appends the entries of its list, in order, with the group label |
| ClientWorkers.AddEntry | lib/client/ClientWorker.js:278-285 | one entry's non-empty pieces are appended |
| ClientWorkers.PushPiece | lib/client/ClientWorker.js:280-284 | a non-empty piece is appended and an empty one skipped |
| ClientWorkers.PieceStep | lib/client/ClientWorker.js:280-284 | one more piece |
| ClientWorkers.EntryStep | lib/client/ClientWorker.js:278-285 | one more entry |
| ClientWorkers.CollectedStep | lib/client/ClientWorker.js:277-286 | one more group with a list appends its entries, labelled unless it is the first |
| ClientWorkers.CollectedStops | lib/client/ClientWorker.js:278 | once a group has no list, nothing is collected |
| ClientWorkers.PlatformEntriesSnoc | lib/client/ClientWorker.js:277-286 | adding a platform at the end adds its entries at the end |
| ClientWorkers.CollectedPrefix | lib/client/ClientWorker.js:275-286 | the list built group by group is the one stated from the front |
| ClientWorkers.FrontFirst | lib/client/ClientWorker.js:275-286 | the first group alone gives the `files` entries |
| ClientWorkers.FrontGrows | lib/client/ClientWorker.js:275-286 | each further group extends the list stated from the front |
| ClientWorkers.Assoc | lib/client/ClientWorker.js:282 | appending is associative |
| ClientWorkers.CollectedIsGroupFiles | lib/client/ClientWorker.js:274-288 | the loop over all groups gives `GroupFiles` |
| ClientWorkers.PlatformEntriesDefined | lib/client/ClientWorker.js:278 | the platform entries exist exactly when every platform has a list |
| ClientWorkers.GroupFilesDefined | lib/client/ClientWorker.js:275-278 | parsing succeeds exactly when `files` and every platform have a list |
| ClientWorkers.EntriesOfShape | lib/client/ClientWorker.js:278-285 | every entry of a group is in that group, has a non-empty name without `;` or `,`, and no content |
| ClientWorkers.PlatformEntriesShape | lib/client/ClientWorker.js:277-286 | every platform entry belongs to one of the platforms |
| ClientWorkers.GroupFilesShape | lib/client/ClientWorker.js:274-288 | the `files` entries come first without a group, every later one belongs to a platform, and no name is empty or holds a separator |
| ClientWorkers.StripZeroDot | lib/client/ClientWorker.js:92-94 | a number starting with `0.` loses exactly that prefix; any other is kept |
| ClientWorkers.ClientWorker.constructor | lib/client/ClientWorker.js:26-32 | the worker takes its id and options, the parsed files and the number, has built nothing and has sent nothing |
| ClientWorkers.ClientWorker.OnConnect | lib/client/ClientWorker.js:87-118 | the number loses a `0.` prefix, the client registers, and only when the build is not completed is it registered, with the requested platforms, the number and the raw file lists of its configuration but none of the parsed entries, and its files are read |
| ClientWorkers.ClientWorker.Disconnect | lib/client/ClientWorker.js:172-184 | the build is completed, the socket closed, and the process exits unless it serves something else |
| ClientWorkers.ClientWorker.OnBuildFailed | lib/client/ClientWorker.js:162-167 | one more report is counted; the client disconnects exactly when the count reaches the number of platforms requested |
| ClientWorkers.ClientWorker.Done | lib/client/ClientWorker.js:229-240 | one more report is counted; the client disconnects exactly when the count reaches the number of platforms requested |
| ClientWorkers.ClientWorker.OnBuildSuccess | lib/client/ClientWorker.js:191-210 | a success is counted exactly once, whether its outputs were saved, failed to save or not asked for, and disconnects at the last report |
| LegacyServer.FirstIdle | server/Server.js:339-346 | the position of the first agent of the worklist that is not busy, or -1 exactly when every agent is busy |
| LegacyServer.TickDispatchesOnce | server/Server.js:332-350 | one tick starts at most one build, and only the head of the queue, on the first idle agent of its platform's worklist |
| LegacyServer.TickKeepsBuilds | server/Server.js:332-350 | a tick loses no build: a dispatched head leaves the queue, an undispatched head goes to its tail, and the multiset of queued builds is otherwise kept |
| LegacyServer.IdleTicksRotate | server/Server.js:332-350 | while every agent is busy, n ticks rotate the queue by n places |
| LegacyServer.IdleTick | server/Server.js:347-348 | with every agent busy one tick moves the head to the tail |
| LegacyServer.RotateStep | server/Server.js:347-348 | rotating a rotation by one more place |
| LegacyServer.Ticks | server/Server.js:332-350 | repeated ticks only ever hold builds that were queued |
| LegacyServer.LastWith | server/Server.js:136-138 | the last child with the id, or -1 exactly when no child has it |
| LegacyServer.IndexedAt | server/Server.js:133-139 | after registration an id maps to the last child carrying it, and an id no child carries keeps its old entry |
| LegacyServer.ChildrenFindable | server/Server.js:133-139 | with distinct ids every child is found under its own id |
| LegacyServer.SniffPrecedence | server/Server.js:391-397 | Windows Phone wins over iOS, which wins over Android, because each later test overrides the earlier ones |
| LegacyServer.ExplicitWins | server/Server.js:383-388 | an explicit `android`, `ios` or `wp8` is kept whatever the user agent |
| LegacyServer.UserAgentDecides | server/Server.js:389-400 | a Windows Phone user agent gives `wp8`; without a user agent the asked value stays |
| LegacyServer.RootOf | server/Server.js:404 | the build itself or its master, which has no master |
| LegacyServer.FirstSuccessful | server/Server.js:406-412 | the first child that succeeded, or -1 exactly when none did |
| LegacyServer.ChildAsksMaster | server/Server.js:402-404 | a child detects the platform exactly as its master does |
| LegacyServer.FallbackChoice | server/Server.js:402-416 | an undetected platform becomes that of the root's first successful child, and stays `autodetect` when the root has no children or none succeeded |
| LegacyServer.FindOnPlatform | server/Server.js:527-539 | the first build of the list on the platform, or -1 exactly when there is none |
| LegacyServer.Pick | server/Server.js:524-547 | a position among the candidates, or -1 when there are none |
| LegacyServer.ParseOrder | server/Server.js:511-559 | each rejection happens exactly when its check is the first to fail: unknown id, undetected platform, no build on the platform, not successful, no output files |
| LegacyServer.ParseServes | server/Server.js:511-559 | a served build is a child of the root on the detected platform, with status `success` and at least one output file |
| LegacyServer.ParseAccepts | server/Server.js:511-559 | when every check passes the first candidate on the detected platform is served |
| LegacyServer.ContentType | server/Server.js:505-510 | the package type for `android`, the Silverlight type for `wp8`, and the octet-stream type for any other platform |
| LegacyServer.Server.constructor | server/Server.js:26-34 | the server starts with no builds, no index, an empty queue, no worklists, no busy agents and nothing started |
| LegacyServer.Server.RegisterBuild | server/Server.js:133-139 | the build is appended and indexed under its id; without a children list the loop throws after that; otherwise the index is `Indexed` over the children |
| LegacyServer.Server.FindIdle | server/Server.js:339-346 | the `every` loop returns `FirstIdle` |
| LegacyServer.Server.ProcessQueue | server/Server.js:332-350 | the queue and the started builds are those of one tick |
| LegacyServer.Server.FallbackPlatform | server/Server.js:405-412 | the loop returns the fallback of the root |
| LegacyServer.Server.DetectPlatform | server/Server.js:382-416 | the method returns `Detect` |
| LegacyServer.Server.ParseBuildRequest | server/Server.js:511-559 | the method returns `Parse` |
| Lists.Remove | lib/server/Server.js:218-219 | `list.remove(x)` takes away exactly one occurrence of `x` when there is one, and nothing else |
| Lists.RemoveAbsent | lib/server/Server.js:218-219 | removing a value that is not in the list changes nothing |
| Lists.RemoveLength | lib/server/Server.js:218-219 | the list shrinks by one exactly when the value was in it |
| Lists.RemoveSubset | lib/server/Server.js:218-219 | removal adds no element |
| Lists.RemoveOnce | lib/server/Server.js:218-219 | a value that occurs at most once is gone after its removal |
| Lists.RemoveOthers | lib/server/Server.js:218-219 | every other value keeps its number of occurrences |
| Lists.RemoveAt | lib/server/Server.js:218-219 | removal cuts out the first occurrence and keeps the values before and after it in order |
| Lists.RemoveFirst | lib/server/Server.js:218-219 | a value in the list is removed at its first occurrence, the rest in order |
| Strings.Split | lib/server/sockets/Agent.js:35 | splitting a platform list on `;` and `,` always gives at least one piece |
| Strings.SplitConcat | lib/server/sockets/Agent.js:35 | the pieces, joined, are the text without its separators, in order |
| Strings.SplitCount | lib/server/sockets/Agent.js:35 | there is one piece more than there are separators |
| Strings.SplitNoSeparators | lib/server/sockets/Agent.js:35 | no piece holds a separator |
| Strings.Basename | lib/server/sockets/Agent.js:216 | `path.basename` holds no `/` |
| Strings.AfterLastSlash | lib/server/sockets/Agent.js:216 | the last segment of a path holds no `/` and ends the path |
| Strings.LowerAll | lib/common/BrowserDetect.js:5-23 | lower-casing maps every character and keeps the length |
| Strings.ContainsIffOccurs | lib/common/BrowserDetect.js:5-23 | the left-to-right scan finds a pattern exactly when it occurs at some position |
| Strings.NatText | lib/server/sockets/Agent.js:196 | the text of a number is its decimal digits, without a leading zero |
| Strings.NatTextValue | lib/server/sockets/Agent.js:196 | reading the digits back gives the number |
| Strings.NatTextInjective | lib/server/sockets/Agent.js:196 | distinct numbers have distinct texts |
| Strings.IntText | lib/agent/AgentWorker.js:250-257 | a negative number is written as a minus sign before the digits of its magnitude |
| Strings.FormatPlain | lib/common/Msg.js:49 | formatting leaves text without an opening brace unchanged |
| Strings.FormatPlainPrefix | lib/common/Msg.js:49 | formatting copies a plain prefix and goes on after it |
| Strings.FormatTagged | lib/common/Msg.js:49 | a single-digit placeholder after plain text is replaced by its argument |
| Base64.Sextets | lib/common/serverUtils.js:70 | decoding reads at most one value per character |
| Base64.DecodeSextets | lib/common/serverUtils.js:70 | four values give three bytes, and a final group of three or two gives two or one |
| Base64.SextetsOfEncode | lib/common/serverUtils.js:70 | the encoding carries four values per group of three bytes, three for a final pair and two for a final byte |
| Base64.DecodeEncodedSextets | lib/common/serverUtils.js:70 | those values decode back to the bytes |
| Base64.PadNotInAlphabet | lib/common/serverUtils.js:70 | the padding character is not an alphabet character |

## Left out

- Disk, sockets, clocks and ids:
  - File-system calls, socket `emit`, `Date`s and `shortid` ids become method parameters or recorded events.
  - The `filesize` text of a size (`lib/server/sockets/Agent.js:219`) is written as the plain byte count in decimal digits.
  - `Build.save` is an abstract "saved" event.
  - Elapsed-time text is not modelled.
- `async.each` fan-out (reads, writes, extraction) is a sequential loop that surfaces only the first error. Interleavings of the callbacks are not modelled.
- The platform toolchains are not part of this model:
  - `lib/agent/Android.js`, `lib/agent/iOS.js` and `lib/agent/WP8.js`;
  - archive tool detection (`lib/common/Archiver.js`);
  - IPA metadata extraction.
- Hooks and archive extraction/modification are abstract outcomes: success or an error.
- Command-line parsing, bootstrapping, the `lib/common/utils.js` monkey-patches and console override, the HTTP/WWW/Git servers and the dashboard snapshot emission are not part of this model.
- Builds.Serialize: the `name` of each output file is dropped, exactly as `lib/common/Build.js:64-71` is written. `lib/server/sockets/Agent.js:66` reads a `name` that is therefore never present after a round trip through `serialize`.
- Coordinator.AfterUpdateBuildStatus: `lib/server/Server.js:211` compares `build.status`, a field no build has. The model therefore logs on the master whenever the call is not quiet, as written.
- AgentWorkers.AgentWorker.OnCancelBuild: `this.exec.kill()` has no effect in the source, so no process is modelled as stopped.
- GenericBuilds.TrimEol considers only the first line end of a chunk, as the non-global multiline regular expression does.
- GenericBuilds: only the command line of the Linux path is modelled, with the `tee`/`egrep` filtering as text. Not modelled:
  - the Android `chmod` of the gradle wrapper;
  - the deletion of hooks directories.
- ClientWorkers.ClientWorker.constructor requires the grouped file lists to parse. The source throws on a missing group list, and no worker exists then.
- ClientWorkers: `connect`, `onError`, `uploadFiles`, `onDisconnect`, `saveBuildLog`, `log` and console output are I/O and are not modelled. `process.exit` is recorded only as `exited`, and the "is it serving" test of `disconnect` is the flag `conf.serving`.
- The appending of a stack trace to "Command failed" messages in `Msg`, the server log, the client log and the agent worker's log (`lib/agent/AgentWorker.js:188-191`) is not modelled beyond passing the stack text as a parameter.
- BrowserDetect: `any()` reads an `isMobile` that is never set and is not modelled.
- LegacyServer: the following parts of `server/Server.js` are left out:
  - the express routes `listen`, `serveRelease`, `downloadRelease` and `downloadManifest`; only the content-type choice is modelled;
  - the hard-coded sample build.
- LegacyServer: `server/Agent.js` is not part of this model. `startBuild` is recorded in `started`, and the busy agents are a read-only set.
- LegacyServer.RegisterBuild: ids that a JavaScript array treats specially when used as a key ("0", "length") are not distinguished. The registry is a map.
- Coordinator: `lib/server/Server.js:32` keeps one array as both the builds list and the id map (`:179-180`). The model splits it into a list and a map, so ids that an array treats specially when used as a key ("0", "length", "push") are not distinguished.
- Strings.Resolve: `path.resolve(folder, name)` is modelled as `folder + "/" + name`. Absolute names, `..` segments and a trailing slash on the folder are not normalised.
- Strings.Extname: the base name `..` gives `.`, where `path.extname` gives the empty string.
- LegacyServer.ContentType: keys inherited from the object prototype of `mime_types` are not modelled.
- Lists.Remove: the array-sugar package is not part of this model; its `remove` is taken to remove the first occurrence of the value, which `Lists.RemoveAt` states.
- Integer widths do not matter in this code. Counters and indexes are unbounded.

## Findings

| source | as written | input that shows it | evidently intended | confidence | as-written member | corrected member |
|---|---|---|---|---|---|---|
| lib/server/sockets/Agent.js:250-278 | `getUnique` tests `o[x]` on a plain object, so a value naming an inherited property counts as already seen | `["constructor"]` gives `[]` | keep the first occurrence of every value | not executed | AgentSessions.PrototypeNameDropped | AgentSessions.GetUnique |
| lib/server/sockets/Agent.js:131-137 | the `cleanLastFolders` callback derives the build id from `stat.path`, which the stats do not carry | any stale output folder: its build is never deleted | delete the registry entries of the pruned folders, named by `filepath` | not executed | AgentReports.AsWrittenDeletesNothing | AgentReports.StaleBuildsDeleted |
| lib/server/sockets/Agent.js:151-162 | `onBuildFailed` checks whether the master has completed before it marks the child failed | the last running child of a master fails: no completion time is set | check completion after the child is failed | not executed | AgentReports.AsWrittenMissesLastFailure | AgentReports.BuildFailedCompletion |
| lib/server/sockets/Agent.js:50-53 | `findBuildById` is given the response object, which it returns unchanged, so the unknown-build guard never fires and `build.Id()` then throws on the plain object | a success report for an id that is not registered | report an unknown build and stop | not executed | AgentReports.UnknownResponseNotGuarded | AgentReports.BuildSuccessUnknown |
| lib/server/sockets/Client.js:137-143 | `validateBuildRequest` passes the request object to `updateBuildStatus`, which looks it up under the key "[object Object]" | a request without `conf`: no build is marked failed | mark the requested build failed | not executed | ClientSessions.RejectAsWrittenMarksNothing | ClientSessions.ValidateRejectMarks |
| lib/agent/AgentWorker.js:142-143 | a build without a platform is failed through `buildFailed` on the raw payload, which is not the current build and has no `locationPath`, so it throws after logging and no `build-failed` is sent | a payload with `conf` but no `platform` | report the failure to the server | not executed | AgentWorkers.RejectAsWrittenNeverReports | AgentWorkers.RejectIntendedReports |
| lib/agent/GenericBuild.js:94-96 | `s2EmptyWorkFolder` passes the build to `buildFailed`, which prepends the build again, so the build object takes the template's place | the work folder cannot be created: the log reads "[object Object]" and the stack | the message names the folder and the error | not executed | GenericBuilds.EnsureFailureAsWrittenLosesReason | GenericBuilds.EnsureFailureReported |
| lib/agent/GenericBuild.js:338 | the output log uses `Msg.build_output`, which is undefined, so the line is not a build-log line and is rendered behind the signature prefix | any chunk of build output | show the output line as itself, as every other build-log line | not executed | GenericBuilds.AsWrittenOutputPrefixed | GenericBuilds.OutputUnprefixed |
| lib/agent/GenericBuild.js:366 | `s8BuildExecuted` logs the collected output with the same undefined `Msg.build_output` | a build whose `exec` callback gets non-empty `stdout` | show the output as build-log text | not executed | GenericBuilds.AsWrittenOutputPrefixed | GenericBuilds.OutputUnprefixed |
