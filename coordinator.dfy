/** The coordinator (`Server`): its registry of builds, its queue, the
    agents and their per-platform worklists, its log, and the operations
    every handler relies on: `log`, `forwardLog`, `findBuildById` and
    `updateBuildStatus` (with `Build.updateStatus`, which changes linked
    builds in place).

    The state is `State`; the class `Server` holds the same fields, and
    each of its methods is proved to take the state where the function
    `After...` of the same operation says. The agent objects live in
    `sessions`, keyed by `AgentRef`, the way build objects live in the
    heap. What the server sends (socket emissions, dashboard news,
    `build.save` writes) is appended to `events`. */
module Coordinator {
  import opened Wrappers
  import opened Strings
  import opened Lists
  import opened Builds
  import opened Messages

  /** The fields of an `Agent` object: its id, the platforms it
      registered, the build it is busy with, and the `status` and
      `buildingPlatform` of its `conf`. */
  datatype Session = Session(id: string, platforms: seq<string>, busy: Option<BuildRef>,
                             status: string, buildingPlatform: string)

  datatype Peer = AgentPeer(agent: AgentRef) | ClientPeer(client: ClientRef)

  datatype Payload = WireOf(wire: Wire) | IdOf(id: string)

  /** An effect of the server on the world: a socket emission, a log
      forwarded to an agent or a client, a `build.save` to a path, or a
      `notifyStatusAllWWWs` news item. */
  datatype Event
    = Emit(to: Peer, name: string, payload: Payload)
    | EmitLog(to: Peer, msg: Msg)
    | Saved(build: BuildRef, path: string)
    | News(kind: string, what: string)

  /** The server's options: the builds folder and `conf.keep`. */
  datatype Config = Config(location: string, keep: int)

  /** `heap` holds every build object ever made (deletion only unregisters
      a build); `ids` is `builds[id]`, `builds` the list of root builds,
      `queue` is `buildsQueue`, `platforms[p]` the worklist of platform `p`;
      `next` and `nextAgent` are the next unused references. */
  datatype State = State(heap: Heap, next: BuildRef, ids: map<string, BuildRef>, builds: seq<BuildRef>,
                         queue: seq<BuildRef>, agents: seq<AgentRef>, platforms: map<string, seq<AgentRef>>,
                         sessions: map<AgentRef, Session>, nextAgent: AgentRef,
                         logs: seq<Msg>, events: seq<Event>)

  /** What the operations need: a well-formed build graph and an id map
      into it. */
  predicate Core(st: State) {
    Wf(st.heap) && forall k :: k in st.ids ==> st.ids[k] in st.heap
  }

  /** `Core` looks at the builds and the id map only. */
  lemma CoreFrom(st: State, st': State)
    requires Core(st) && st'.heap == st.heap && st'.ids == st.ids
    ensures Core(st')
  {
  }

  /** What every handler keeps besides `Core`: references below the next
      free ones, and every build and agent reference the server holds is
      to an existing object. */
  predicate Consistent(st: State) {
    Core(st)
    && (forall r :: r in st.heap ==> r < st.next)
    && (forall r :: r in st.builds ==> r in st.heap)
    && (forall r :: r in st.queue ==> r in st.heap)
    && (forall a :: a in st.sessions ==> a < st.nextAgent && BusyOk(st.heap, st.sessions[a]))
    && (forall a :: a in st.agents ==> a in st.sessions)
    && (forall p :: p in st.platforms ==> forall a :: a in st.platforms[p] ==> a in st.sessions)
  }

  predicate BusyOk(h: Heap, s: Session) {
    s.busy.Some? ==> s.busy.value in h
  }

  /** Two heaps with the same builds, apart from their logs. */
  predicate LogsOnly(h: Heap, h': Heap) {
    h'.Keys == h.Keys && forall q :: q in h ==> h'[q] == h[q].(conf := h[q].conf.(logs := h'[q].conf.logs))
  }

  lemma LogsOnlyWf(h: Heap, h': Heap)
    requires Wf(h) && LogsOnly(h, h')
    ensures Wf(h')
  {
    forall r | r in h' ensures LinksOk(h', r) {
      assert LinksOk(h, r);
    }
  }

  /** The next references and the agents are left as they are. */
  predicate SameAgents(st: State, st': State) {
    st'.next == st.next && st'.agents == st.agents && st'.platforms == st.platforms
    && st'.sessions == st.sessions && st'.nextAgent == st.nextAgent
  }

  /** The subject of a message about a build object. */
  function SubjectOf(b: Build): Subject {
    SubjectBuild(b.id, b.conf.number)
  }

  /** The client of a build, as a peer. */
  function ClientOf(b: Build): Option<Peer> {
    if b.client.Some? then Some(ClientPeer(b.client.value)) else None
  }

  // ---------------------------------------------------------------------
  // log, forwardLog, findBuildById
  // ---------------------------------------------------------------------

  function PrependLog(h: Heap, r: BuildRef, m: Msg): (h': Heap)
    requires r in h
    ensures LogsOnly(h, h')
  {
    h[r := h[r].(conf := h[r].conf.(logs := [m] + h[r].conf.logs))]
  }

  /** `findBuildById(id)` for an id string ("" stands for a missing id,
      which finds nothing). */
  function FindBuildById(st: State, id: string): (r: Option<BuildRef>)
    ensures r.Some? <==> id != "" && id in st.ids
    ensures r.Some? ==> r.value == st.ids[id]
  {
    if id != "" && id in st.ids then Some(st.ids[id]) else None
  }

  function Forwarded(to: Option<Peer>, m: Msg): seq<Event> {
    if to.Some? then [EmitLog(to.value, m)] else []
  }

  /** `log(msg, forwardToClientOrAgent)`. */
  function AfterLog(st: State, m: Msg, to: Option<Peer>): (r: State)
    requires Core(st)
    ensures Core(r)
    ensures r == st.(heap := r.heap, logs := r.logs, events := r.events)
  {
    var found := FindBuildById(st, m.buildId);
    var h := if found.Some? then PrependLog(st.heap, found.value, m) else st.heap;
    LogsOnlyWf(st.heap, h);
    st.(heap := h, logs := [m] + st.logs, events := st.events + [News("log", "log")] + Forwarded(to, m))
  }

  /** Logging reads only the builds, the id map, the log and the events. */
  lemma LogFrame(st: State, st': State, m: Msg, to: Option<Peer>)
    requires Core(st) && st'.heap == st.heap && st'.ids == st.ids && st'.logs == st.logs && st'.events == st.events
    ensures Core(st')
    ensures var r := AfterLog(st, m, to);
            AfterLog(st', m, to) == st'.(heap := r.heap, logs := r.logs, events := r.events)
  {
    CoreFrom(st, st');
  }

  /** Logging adds and removes no build. */
  lemma LogKeys(st: State, m: Msg, to: Option<Peer>)
    requires Core(st)
    ensures AfterLog(st, m, to).heap.Keys == st.heap.Keys
  {
  }

  /** Logging changes no build but for its log. */
  lemma LogKeeps(st: State, m: Msg, to: Option<Peer>, q: BuildRef)
    requires Core(st) && q in st.heap
    ensures var h := AfterLog(st, m, to).heap;
            q in h && h[q] == st.heap[q].(conf := st.heap[q].conf.(logs := h[q].conf.logs))
  {
  }

  /** A logged message comes first in the server's log and, when its build
      id is registered, first in that build's log; no other build
      changes. */
  lemma LogNewestFirst(st: State, m: Msg, to: Option<Peer>)
    requires Core(st)
    ensures var r := AfterLog(st, m, to);
            r.logs == [m] + st.logs
            && (FindBuildById(st, m.buildId).Some? ==>
                  var b := FindBuildById(st, m.buildId).value;
                  r.heap[b].conf.logs == [m] + st.heap[b].conf.logs)
            && (forall q :: q in st.heap && FindBuildById(st, m.buildId) != Some(q) ==> r.heap[q] == st.heap[q])
  {
  }

  /** A logged message is announced to the dashboards, and forwarded
      exactly when a recipient is given. */
  lemma LogForwarded(st: State, m: Msg, to: Option<Peer>)
    requires Core(st)
    ensures var r := AfterLog(st, m, to);
            r.events == st.events + [News("log", "log")] + (if to.Some? then [EmitLog(to.value, m)] else [])
  {
  }

  /** `forwardLog(build, sender, msg, to)`: `build` is the build object
      the handler found, if any. Without `to`, the build is looked up again
      by its id and the log goes to its client. */
  function AfterForwardLog(st: State, build: Option<BuildRef>, sender: Peer, m: Msg, to: Option<Peer>): (r: State)
    requires Core(st) && (build.Some? ==> build.value in st.heap)
    ensures Core(r)
    ensures r == st.(heap := r.heap, logs := r.logs, events := r.events)
  {
    var b := ForwardTarget(st, build, to);
    var h := if b.Some? then PrependLog(st.heap, b.value, m) else st.heap;
    LogsOnlyWf(st.heap, h);
    st.(heap := h, logs := [m] + st.logs,
        events := st.events + Echo(ForwardDest(st, b, to), sender, m) + [News("log", "log")])
  }

  /** The build a forwarded log is kept on: without a recipient, the build
      registered under the given build's id, if there is one. */
  function ForwardTarget(st: State, build: Option<BuildRef>, to: Option<Peer>): (b: Option<BuildRef>)
    requires Core(st) && (build.Some? ==> build.value in st.heap)
    ensures b.Some? ==> b.value in st.heap
    ensures build.None? ==> b.None?
  {
    if to.None? && build.Some? then
      var found := FindBuildById(st, st.heap[build.value].id);
      if found.Some? then found else build
    else build
  }

  /** The recipient of a forwarded log: the one given, or else the
      client of its build. */
  function ForwardDest(st: State, b: Option<BuildRef>, to: Option<Peer>): Option<Peer>
    requires b.Some? ==> b.value in st.heap
  {
    if to.None? then (if b.Some? then ClientOf(st.heap[b.value]) else None) else to
  }

  /** The emission of a log to its recipient, unless that is its sender. */
  function Echo(dest: Option<Peer>, sender: Peer, m: Msg): seq<Event> {
    if dest.Some? && dest.value != sender then [EmitLog(dest.value, m)] else []
  }

  /** A forwarded message comes first in the server's log and is never sent
      back to its sender. */
  lemma ForwardLogNoEcho(st: State, build: Option<BuildRef>, sender: Peer, m: Msg, to: Option<Peer>)
    requires Core(st) && (build.Some? ==> build.value in st.heap)
    ensures var r := AfterForwardLog(st, build, sender, m, to);
            r.logs == [m] + st.logs
            && |r.events| >= |st.events| && r.events[..|st.events|] == st.events
            && forall i :: |st.events| <= i < |r.events| ==> r.events[i] != EmitLog(sender, m)
  {
    var r := AfterForwardLog(st, build, sender, m, to);
    assert r.events[..|st.events|] == st.events;
  }

  /** A message forwarded with a recipient other than its sender reaches
      that recipient. */
  lemma ForwardLogReaches(st: State, build: Option<BuildRef>, sender: Peer, m: Msg, to: Peer)
    requires Core(st) && (build.Some? ==> build.value in st.heap)
    requires to != sender
    ensures EmitLog(to, m) in AfterForwardLog(st, build, sender, m, Some(to)).events
  {
  }

  /** Logging keeps every server invariant. */
  lemma LogsOnlyConsistent(st: State, st': State)
    requires Consistent(st) && Core(st') && LogsOnly(st.heap, st'.heap)
    requires st' == st.(heap := st'.heap, logs := st'.logs, events := st'.events)
    ensures Consistent(st')
  {
    forall a | a in st'.sessions ensures BusyOk(st'.heap, st'.sessions[a]) {
      assert BusyOk(st.heap, st.sessions[a]);
    }
  }

  // ---------------------------------------------------------------------
  // updateBuildStatus
  // ---------------------------------------------------------------------

  /** The first argument of `updateBuildStatus`: a build object, a value
      used as an id (an id string, or any other value, keyed by its text),
      or nothing. */
  datatype BuildArg = Obj(ref: BuildRef) | Key(key: string) | NoArg

  predicate ArgOk(st: State, arg: BuildArg) {
    arg.Obj? ==> arg.ref in st.heap
  }

  function Target(st: State, arg: BuildArg): (t: Option<BuildRef>)
    requires Core(st) && ArgOk(st, arg)
    ensures t.Some? ==> t.value in st.heap
  {
    match arg
    case Obj(r) => Some(r)
    case Key(k) => FindBuildById(st, k)
    case NoArg => None
  }

  function ArgText(arg: BuildArg): string {
    match arg
    case Obj(_) => ""
    case Key(k) => k
    case NoArg => ""
  }

  const NotFoundTemplate: string := "Build not found with id: {2}"

  function NotFoundMsg(arg: BuildArg): Msg {
    Make(NoSubject, NoSender, "S", Error, NotFoundTemplate, [ArgText(arg)])
  }

  const PlatformStatusTemplate: string := "Platform {2} update status: {3}"

  /** The message logged on the master when one of its children changes
      status. */
  function PlatformStatusMsg(master: Build, child: Build, status: string): Msg {
    Make(SubjectOf(master), NoSender, "S", Status, PlatformStatusTemplate, [PlatformText(child.conf.platform), status])
  }

  function SavedEvents(saves: seq<(BuildRef, string)>): (es: seq<Event>)
    ensures |es| == |saves|
    ensures forall i :: 0 <= i < |saves| ==> es[i] == Saved(saves[i].0, saves[i].1)
  {
    if saves == [] then [] else [Saved(saves[0].0, saves[0].1)] + SavedEvents(saves[1..])
  }

  /** `build.updateStatus(status, server.location)` on the build at `r`. */
  function AfterApplyStatus(st: State, cfg: Config, r: BuildRef, s: string): (res: State)
    requires Core(st) && r in st.heap
    ensures Core(res) && res.heap.Keys == st.heap.Keys
    ensures res == st.(heap := res.heap, events := res.events)
  {
    var (h, saves) := UpdateStatus(st.heap, r, s, cfg.location);
    st.(heap := h, events := st.events + SavedEvents(saves))
  }

  /** Unregistering one build: its id leaves the id map, and it leaves the
      builds list and the queue. */
  function AfterUnregister(st: State, c: BuildRef): (r: State)
    requires Core(st) && c in st.heap
    ensures Core(r)
    ensures r == st.(ids := r.ids, builds := r.builds, queue := r.queue)
  {
    st.(ids := st.ids - {st.heap[c].id}, builds := Remove(st.builds, c), queue := Remove(st.queue, c))
  }

  /** Unregistering the children of a deleted root, in order. */
  function AfterUnregisterAll(st: State, cs: seq<BuildRef>): (r: State)
    requires Core(st) && forall c :: c in cs ==> c in st.heap
    ensures Core(r)
    ensures r == st.(ids := r.ids, builds := r.builds, queue := r.queue)
    decreases |cs|
  {
    if cs == [] then st
    else
      assert forall c :: c in cs[..|cs| - 1] ==> c in cs;
      AfterUnregister(AfterUnregisterAll(st, cs[..|cs| - 1]), cs[|cs| - 1])
  }

  lemma UnregisterAllStep(st: State, cs: seq<BuildRef>, i: nat)
    requires Core(st) && (forall c :: c in cs ==> c in st.heap) && i < |cs|
    ensures forall c :: c in cs[..i + 1] ==> c in st.heap
    ensures cs[i] in AfterUnregisterAll(st, cs[..i]).heap
    ensures AfterUnregisterAll(st, cs[..i + 1]) == AfterUnregister(AfterUnregisterAll(st, cs[..i]), cs[i])
  {
    assert cs[..i + 1][..i] == cs[..i];
  }

  /** A master without the child at `r`. */
  function Unlinked(h: Heap, m: BuildRef, r: BuildRef): (h': Heap)
    requires Wf(h) && m in h && h[m].platforms.Some?
    ensures Wf(h') && h'.Keys == h.Keys
  {
    UnlinkedWf(h, m, r);
    h[m := h[m].(platforms := Some(Remove(h[m].platforms.value, r)))]
  }

  lemma UnlinkedWf(h: Heap, m: BuildRef, r: BuildRef)
    requires Wf(h) && m in h && h[m].platforms.Some?
    ensures Wf(h[m := h[m].(platforms := Some(Remove(h[m].platforms.value, r)))])
  {
    var h' := h[m := h[m].(platforms := Some(Remove(h[m].platforms.value, r)))];
    forall q | q in h' ensures LinksOk(h', q) {
      assert LinksOk(h, q);
      if q == m {
        forall c | c in h'[q].platforms.value ensures c in h' && h'[c].master == Some(q) {
          RemoveSubset(h[m].platforms.value, r, c);
        }
      }
    }
  }

  /** The `deleted` branch of `updateBuildStatus`. */
  function AfterDelete(st: State, r: BuildRef): (res: State)
    requires Core(st) && r in st.heap
    ensures Core(res) && res.heap.Keys == st.heap.Keys
    ensures res == st.(heap := res.heap, ids := res.ids, builds := res.builds, queue := res.queue)
  {
    var b := st.heap[r];
    var st1 := AfterUnregister(st, r);
    assert LinksOk(st.heap, r);
    if b.master.Some? then st1.(heap := Unlinked(st1.heap, b.master.value, r))
    else if b.platforms.Some? then AfterUnregisterAll(st1, b.platforms.value)
    else st1
  }

  /** `updateBuildStatus(build, status, doNotLogOnMaster)`. */
  function AfterUpdateBuildStatus(st: State, cfg: Config, arg: BuildArg, status: string, quiet: bool): (res: State)
    requires Core(st) && ArgOk(st, arg)
    ensures Core(res) && res.heap.Keys == st.heap.Keys
    ensures SameAgents(st, res)
  {
    var t := Target(st, arg);
    if t.None? then AfterLog(st, NotFoundMsg(arg), None)
    else AfterUpdateFound(st, cfg, t.value, status, quiet)
  }

  /** `updateBuildStatus` once the build is found. */
  function AfterUpdateFound(st: State, cfg: Config, r: BuildRef, status: string, quiet: bool): (res: State)
    requires Core(st) && r in st.heap
    ensures Core(res) && res.heap.Keys == st.heap.Keys
    ensures SameAgents(st, res)
  {
    var st1 := AfterLogOnMaster(st, r, status, quiet);
    LogOnMasterKeys(st, r, status, quiet);
    var st2 := if status == "deleted" then AfterDelete(st1, r) else AfterApplyStatus(st1, cfg, r, status);
    st2.(events := st2.events + [News(status, "build")])
  }

  lemma LogOnMasterKeys(st: State, r: BuildRef, status: string, quiet: bool)
    requires Core(st) && r in st.heap
    ensures AfterLogOnMaster(st, r, status, quiet).heap.Keys == st.heap.Keys
  {
    assert LinksOk(st.heap, r);
    if st.heap[r].master.Some? && !quiet {
      LogKeys(st, PlatformStatusMsg(st.heap[st.heap[r].master.value], st.heap[r], status), None);
    }
  }

  /** The master of a child records the child's new status, unless told
      not to. */
  function AfterLogOnMaster(st: State, r: BuildRef, status: string, quiet: bool): (res: State)
    requires Core(st) && r in st.heap
    ensures Core(res)
    ensures res == st.(heap := res.heap, logs := res.logs, events := res.events)
  {
    assert LinksOk(st.heap, r);
    if st.heap[r].master.Some? && !quiet then
      AfterLog(st, PlatformStatusMsg(st.heap[st.heap[r].master.value], st.heap[r], status), None)
    else st
  }

  // ---------------------------------------------------------------------
  // Properties of updateBuildStatus
  // ---------------------------------------------------------------------

  lemma LogOnMasterKeeps(st: State, r: BuildRef, status: string, quiet: bool, q: BuildRef)
    requires Core(st) && r in st.heap && q in st.heap
    ensures var h := AfterLogOnMaster(st, r, status, quiet).heap;
            q in h && h[q] == st.heap[q].(conf := st.heap[q].conf.(logs := h[q].conf.logs))
  {
    assert LinksOk(st.heap, r);
    if st.heap[r].master.Some? && !quiet {
      LogKeeps(st, PlatformStatusMsg(st.heap[st.heap[r].master.value], st.heap[r], status), None, q);
    }
  }

  /** `updateBuildStatus` on a build object finds that object. */
  lemma ObjFound(st: State, cfg: Config, r: BuildRef, status: string, quiet: bool)
    requires Core(st) && r in st.heap
    ensures AfterUpdateBuildStatus(st, cfg, Obj(r), status, quiet) == AfterUpdateFound(st, cfg, r, status, quiet)
  {
  }

  /** A status other than `deleted` changes statuses and logs only, and no
      list of the server. */
  lemma FoundKeeps(st: State, cfg: Config, r: BuildRef, status: string, quiet: bool, q: BuildRef)
    requires Core(st) && r in st.heap && q in st.heap && status != "deleted"
    ensures var res := AfterUpdateFound(st, cfg, r, status, quiet);
            q in res.heap && SameButStatus(st.heap[q], res.heap[q])
            && res.ids == st.ids && res.builds == st.builds && res.queue == st.queue
  {
    var st1 := AfterLogOnMaster(st, r, status, quiet);
    LogOnMasterKeeps(st, r, status, quiet, q);
    UpdateStatusKeeps(st1.heap, r, status, cfg.location, q);
  }

  /** A status other than `deleted` is set on the build, and its master
      gets the highest status among its children. */
  lemma FoundStatus(st: State, cfg: Config, r: BuildRef, status: string, quiet: bool)
    requires Core(st) && r in st.heap && status != "deleted"
    ensures var res := AfterUpdateFound(st, cfg, r, status, quiet);
            r in res.heap && res.heap[r].conf.status == status
            && (st.heap[r].master.Some? ==>
                  var m := st.heap[r].master.value;
                  m in res.heap && res.heap[m].platforms.Some?
                  && res.heap[m].conf.status == MasterStatus(res.heap, m))
  {
    var st1 := AfterLogOnMaster(st, r, status, quiet);
    var h := st1.heap;
    LogOnMasterKeeps(st, r, status, quiet, r);
    var (h', _) := UpdateStatus(h, r, status, cfg.location);
    if h[r].master.Some? {
      UpdateChild(h, r, status, cfg.location);
      MasterStatusAfter(h, h', r, h[r].master.value, status);
    } else {
      UpdateRoot(h, r, status, cfg.location);
    }
  }

  /** An id that is not registered changes no build and no list: it only
      logs an error. */
  lemma NotFoundOnlyLogs(st: State, cfg: Config, arg: BuildArg, status: string, quiet: bool)
    requires Core(st) && ArgOk(st, arg) && Target(st, arg).None?
    ensures var res := AfterUpdateBuildStatus(st, cfg, arg, status, quiet);
            res.heap == st.heap && res.ids == st.ids && res.builds == st.builds && res.queue == st.queue
            && res.logs == [NotFoundMsg(arg)] + st.logs
  {
    assert FindBuildById(st, NotFoundMsg(arg).buildId).None?;
  }

  /** Any status other than `deleted` is handed to `Build.updateStatus`:
      the build gets the status, its master (if any) the highest status
      among its children, and nothing is unregistered. */
  lemma StatusDelegated(st: State, cfg: Config, r: BuildRef, status: string, quiet: bool)
    requires Core(st) && r in st.heap && status != "deleted"
    ensures var res := AfterUpdateBuildStatus(st, cfg, Obj(r), status, quiet);
            res.heap[r].conf.status == status
            && res.ids == st.ids && res.builds == st.builds && res.queue == st.queue
            && (st.heap[r].master.Some? ==>
                  var m := st.heap[r].master.value;
                  m in res.heap && res.heap[m].platforms.Some?
                  && res.heap[m].conf.status == MasterStatus(res.heap, m))
  {
    ObjFound(st, cfg, r, status, quiet);
    FoundStatus(st, cfg, r, status, quiet);
    FoundKeeps(st, cfg, r, status, quiet, r);
  }

  /** The ids of the builds at `cs`. */
  function IdsOf(h: Heap, cs: seq<BuildRef>): set<string>
  {
    if cs == [] then {}
    else IdsOf(h, cs[..|cs| - 1]) + (if cs[|cs| - 1] in h then {h[cs[|cs| - 1]].id} else {})
  }

  /** Unregistering builds one by one removes their ids from the id map. */
  lemma {:induction false} UnregisterAllIds(st: State, cs: seq<BuildRef>)
    requires Core(st) && forall c :: c in cs ==> c in st.heap
    ensures AfterUnregisterAll(st, cs).ids == st.ids - IdsOf(st.heap, cs)
    decreases |cs|
  {
    if cs != [] {
      var init := cs[..|cs| - 1];
      assert forall x :: x in init ==> x in cs;
      UnregisterAllIds(st, init);
      IdsOfStep(st.heap, cs);
      MapMinusStep(st.ids, IdsOf(st.heap, init), {st.heap[cs[|cs| - 1]].id});
    }
  }

  lemma IdsOfStep(h: Heap, cs: seq<BuildRef>)
    requires cs != [] && cs[|cs| - 1] in h
    ensures IdsOf(h, cs) == IdsOf(h, cs[..|cs| - 1]) + {h[cs[|cs| - 1]].id}
  {
  }

  lemma MapMinusStep<K, V>(m: map<K, V>, a: set<K>, b: set<K>)
    ensures (m - a) - b == m - (a + b)
  {
  }

  /** Unregistering builds one by one removes one occurrence of each from
      the builds list and from the queue. */
  lemma {:induction false} UnregisterAllLists(st: State, cs: seq<BuildRef>)
    requires Core(st) && forall c :: c in cs ==> c in st.heap
    ensures var r := AfterUnregisterAll(st, cs);
            multiset(r.builds) == multiset(st.builds) - multiset(cs)
            && multiset(r.queue) == multiset(st.queue) - multiset(cs)
    decreases |cs|
  {
    if cs != [] {
      var init := cs[..|cs| - 1];
      var c := cs[|cs| - 1];
      assert forall x :: x in init ==> x in cs;
      UnregisterAllLists(st, init);
      var r0 := AfterUnregisterAll(st, init);
      var r := AfterUnregisterAll(st, cs);
      assert r.builds == Remove(r0.builds, c) && r.queue == Remove(r0.queue, c);
      MultisetLast(cs);
      MinusTwice(multiset(st.builds), multiset(init), multiset{c});
      MinusTwice(multiset(st.queue), multiset(init), multiset{c});
    }
  }

  lemma MinusTwice<T>(a: multiset<T>, b: multiset<T>, c: multiset<T>)
    ensures (a - b) - c == a - (b + c)
  {
  }

  /** The `deleted` branch of `updateBuildStatus`, once found. */
  lemma DeletedFound(st: State, cfg: Config, r: BuildRef, quiet: bool)
    requires Core(st) && r in st.heap
    ensures var st1 := AfterLogOnMaster(st, r, "deleted", quiet);
            var d := AfterDelete(st1, r);
            AfterUpdateBuildStatus(st, cfg, Obj(r), "deleted", quiet) == d.(events := d.events + [News("deleted", "build")])
  {
  }

  /** Deleting a root unregisters it and all its children: their ids
      leave the id map, and one occurrence of each leaves the builds list
      and the queue. No build object changes. */
  lemma DeleteRoot(st: State, r: BuildRef)
    requires Core(st) && r in st.heap && st.heap[r].master.None? && st.heap[r].platforms.Some?
    ensures var res := AfterDelete(st, r);
            var cs := st.heap[r].platforms.value;
            (forall c :: c in cs ==> c in st.heap)
            && res.heap == st.heap
            && res.ids == st.ids - ({st.heap[r].id} + IdsOf(st.heap, cs))
            && multiset(res.builds) == multiset(st.builds) - multiset([r] + cs)
            && multiset(res.queue) == multiset(st.queue) - multiset([r] + cs)
  {
    assert LinksOk(st.heap, r);
    var cs := st.heap[r].platforms.value;
    var st1 := AfterUnregister(st, r);
    UnregisterAllIds(st1, cs);
    UnregisterAllLists(st1, cs);
    MapMinusStep(st.ids, {st.heap[r].id}, IdsOf(st.heap, cs));
    assert multiset([r] + cs) == multiset{r} + multiset(cs);
    MinusTwice(multiset(st.builds), multiset{r}, multiset(cs));
    MinusTwice(multiset(st.queue), multiset{r}, multiset(cs));
  }

  /** Deleting a build that has neither a master nor children only
      unregisters it. */
  lemma DeleteLone(st: State, r: BuildRef)
    requires Core(st) && r in st.heap && st.heap[r].master.None? && st.heap[r].platforms.None?
    ensures AfterDelete(st, r) == AfterUnregister(st, r)
  {
  }

  /** Deleting a child unregisters it and takes it out of its master's
      list of children; no other build changes. */
  lemma DeleteChild(st: State, r: BuildRef)
    requires Core(st) && r in st.heap && st.heap[r].master.Some?
    ensures var res := AfterDelete(st, r);
            var m := st.heap[r].master.value;
            m in st.heap && st.heap[m].platforms.Some? && m in res.heap
            && res.heap[m] == st.heap[m].(platforms := Some(Remove(st.heap[m].platforms.value, r)))
            && (forall q :: q in st.heap && q != m ==> res.heap[q] == st.heap[q])
            && res.ids == st.ids - {st.heap[r].id}
            && res.builds == Remove(st.builds, r) && res.queue == Remove(st.queue, r)
  {
    assert LinksOk(st.heap, r);
  }

  // ---------------------------------------------------------------------
  // The server object
  // ---------------------------------------------------------------------

  /** The `Server` object, whose handlers change its fields in place. */
  class Server {
    var heap: Heap
    var next: BuildRef
    var ids: map<string, BuildRef>
    var builds: seq<BuildRef>
    var queue: seq<BuildRef>
    var agents: seq<AgentRef>
    var platforms: map<string, seq<AgentRef>>
    var sessions: map<AgentRef, Session>
    var nextAgent: AgentRef
    var logs: seq<Msg>
    var events: seq<Event>

    /** `new Server(conf)`: no builds, agents, logs or worklists. */
    constructor ()
      ensures St() == State(map[], 0, map[], [], [], [], map[], map[], 0, [], [])
      ensures Consistent(St())
    {
      heap, next, ids, builds, queue := map[], 0, map[], [], [];
      agents, platforms, sessions, nextAgent := [], map[], map[], 0;
      logs, events := [], [];
    }

    function St(): State
      reads this
    {
      State(heap, next, ids, builds, queue, agents, platforms, sessions, nextAgent, logs, events)
    }

    /** `log(msg, forwardToClientOrAgent)` */
    method Log(m: Msg, to: Option<Peer>)
      requires Core(St())
      modifies this
      ensures St() == AfterLog(old(St()), m, to)
    {
      var found := FindBuildById(St(), m.buildId);
      if found.Some? {
        heap := PrependLog(heap, found.value, m);
      }
      logs := [m] + logs;
      events := events + [News("log", "log")] + Forwarded(to, m);
    }

    /** `forwardLog(build, sender, msg, to)` */
    method ForwardLog(build: Option<BuildRef>, sender: Peer, m: Msg, to: Option<Peer>)
      requires Core(St()) && (build.Some? ==> build.value in heap)
      modifies this
      ensures St() == AfterForwardLog(old(St()), build, sender, m, to)
    {
      var b := build;
      if to.None? && b.Some? {
        var id := heap[b.value].id;
        if id != "" && id in ids {
          b := Some(ids[id]);
        }
      }
      assert b == ForwardTarget(St(), build, to);
      var dest := to;
      if to.None? && b.Some? {
        dest := ClientOf(heap[b.value]);
      }
      assert dest == ForwardDest(St(), b, to);
      if b.Some? {
        var r := b.value;
        heap := PrependLog(heap, r, m);
      }
      logs := [m] + logs;
      events := events + Echo(dest, sender, m) + [News("log", "log")];
    }

    /** `updateBuildStatus(build, status, doNotLogOnMaster)` */
    method UpdateBuildStatus(cfg: Config, arg: BuildArg, status: string, quiet: bool)
      requires Core(St()) && ArgOk(St(), arg)
      modifies this
      ensures St() == AfterUpdateBuildStatus(old(St()), cfg, arg, status, quiet)
    {
      var t: Option<BuildRef> := None;
      match arg {
        case Obj(r) => t := Some(r);
        case Key(k) => if k != "" && k in ids { t := Some(ids[k]); }
        case NoArg =>
      }
      assert t == Target(St(), arg);
      if t.None? {
        Log(NotFoundMsg(arg), None);
      } else {
        UpdateFound(cfg, t.value, status, quiet);
      }
    }

    /** `updateBuildStatus` once the build is found. */
    method UpdateFound(cfg: Config, r: BuildRef, status: string, quiet: bool)
      requires Core(St()) && r in heap
      modifies this
      ensures St() == AfterUpdateFound(old(St()), cfg, r, status, quiet)
    {
      ghost var st0 := St();
      LogOnMaster(r, status, quiet);
      LogOnMasterKeys(st0, r, status, quiet);
      if status == "deleted" {
        Delete(r);
      } else {
        ApplyStatus(cfg, r, status);
      }
      events := events + [News(status, "build")];
    }

    method LogOnMaster(r: BuildRef, status: string, quiet: bool)
      requires Core(St()) && r in heap
      modifies this
      ensures St() == AfterLogOnMaster(old(St()), r, status, quiet)
    {
      assert LinksOk(heap, r);
      if heap[r].master.Some? && !quiet {
        Log(PlatformStatusMsg(heap[heap[r].master.value], heap[r], status), None);
      }
    }

    /** `build.updateStatus(status, server.location)`: the status is set in
        place, a child's master gets the highest status among its children
        (found by a pass over them) when that differs from its own, and a
        root whose status changed is saved. */
    method ApplyStatus(cfg: Config, r: BuildRef, s: string)
      requires Core(St()) && r in heap
      modifies this
      ensures St() == AfterApplyStatus(old(St()), cfg, r, s)
      decreases if heap[r].master.Some? then 1 else 0
    {
      var b := heap[r];
      assert LinksOk(heap, r);
      WfAfterWrite(heap, r, SetStatus(b, s));
      heap := heap[r := SetStatus(b, s)];
      if b.master.Some? {
        var m := b.master.value;
        var cs := heap[m].platforms.value;
        var best := MaxStatusIndex(cs);
        if heap[m].conf.status != Statuses[best] {
          ApplyStatus(cfg, m, Statuses[best]);
        }
      } else if b.conf.status != s {
        events := events + [Saved(r, BuildJsonPath(cfg.location, b))];
      }
    }

    /** The pass of `updateStatus` over a master's children. */
    method MaxStatusIndex(cs: seq<BuildRef>) returns (best: nat)
      ensures best == MaxIndex(heap, cs)
    {
      best := 0;
      var i := 0;
      while i < |cs|
        invariant 0 <= i <= |cs|
        invariant best == MaxIndex(heap, cs[..i])
      {
        var c := cs[i];
        var ci := ChildIndex(heap, c);
        MaxIndexStep(heap, cs, i);
        if ci > best {
          best := ci;
        }
        i := i + 1;
      }
      assert cs[..|cs|] == cs;
    }

    /** The `deleted` branch of `updateBuildStatus`. */
    method Delete(r: BuildRef)
      requires Core(St()) && r in heap
      modifies this
      ensures St() == AfterDelete(old(St()), r)
    {
      var b := heap[r];
      assert LinksOk(heap, r);
      Unregister(r);
      if b.master.Some? {
        var m := b.master.value;
        heap := Unlinked(heap, m, r);
      } else if b.platforms.Some? {
        UnregisterChildren(b.platforms.value);
      }
    }

    /** The loop over a deleted root's children. */
    method UnregisterChildren(cs: seq<BuildRef>)
      requires Core(St()) && forall c :: c in cs ==> c in heap
      modifies this
      ensures St() == AfterUnregisterAll(old(St()), cs)
    {
      ghost var st0 := St();
      var i := 0;
      while i < |cs|
        invariant 0 <= i <= |cs|
        invariant forall c :: c in cs[..i] ==> c in st0.heap
        invariant St() == AfterUnregisterAll(st0, cs[..i])
      {
        UnregisterAllStep(st0, cs, i);
        Unregister(cs[i]);
        i := i + 1;
      }
      assert cs[..|cs|] == cs;
    }

    /** Unregistering one build from the id map, the builds list and the
        queue. */
    method Unregister(c: BuildRef)
      requires Core(St()) && c in heap
      modifies this
      ensures St() == AfterUnregister(old(St()), c)
    {
      ids := ids - {heap[c].id};
      builds := Remove(builds, c);
      queue := Remove(queue, c);
    }
  }
}
