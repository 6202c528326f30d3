/** The handlers of lib/server/ServerSockets.js that change the
    coordinator: an agent's `disconnect` (its `register` is in
    `AgentSessions`) and the dashboard's `rebuild` and `cancel`. The
    handlers use both the server they were built for and `this`; both are
    the one coordinator here.

    Clients are not part of the coordinator's state: where a message is
    sent by a build's client, `clientIds` gives the id that client
    registered with. */
module ServerSockets {
  import opened Wrappers
  import opened Lists
  import opened Builds
  import opened Messages
  import opened Coordinator
  import opened AgentSessions
  import opened AgentReports

  // ---------------------------------------------------------------------
  // Worklists
  // ---------------------------------------------------------------------

  /** The worklists after `server.platforms[p].remove(agent)` for each
      platform `p` of `ps` in order, and whether the loop ran to its end: a
      platform with no worklist makes it throw, keeping the removals done
      so far. */
  function Delisted(wl: map<string, seq<AgentRef>>, ps: seq<string>, a: AgentRef): (res: (map<string, seq<AgentRef>>, bool))
    ensures res.0.Keys == wl.Keys
    decreases |ps|
  {
    if ps == [] then (wl, true)
    else
      var (w, ok) := Delisted(wl, ps[..|ps| - 1], a);
      var p := ps[|ps| - 1];
      if !ok then (w, false)
      else if p in w then (w[p := Remove(w[p], a)], true)
      else (w, false)
  }

  lemma DelistedStep(wl: map<string, seq<AgentRef>>, ps: seq<string>, a: AgentRef, i: nat)
    requires i < |ps|
    ensures var (w, ok) := Delisted(wl, ps[..i], a);
            Delisted(wl, ps[..i + 1], a)
            == if !ok then (w, false) else if ps[i] in w then (w[ps[i] := Remove(w[ps[i]], a)], true) else (w, false)
  {
    assert ps[..i + 1][..i] == ps[..i];
  }

  /** The loop runs to its end when every platform has a worklist. */
  lemma {:induction false} DelistedOk(wl: map<string, seq<AgentRef>>, ps: seq<string>, a: AgentRef)
    requires forall q :: q in ps ==> q in wl
    ensures Delisted(wl, ps, a).1
    decreases |ps|
  {
    if ps != [] {
      var init := ps[..|ps| - 1];
      assert forall q :: q in init ==> q in ps;
      assert ps[|ps| - 1] in ps;
      DelistedOk(wl, init, a);
    }
  }

  /** The worklists of platforms not in `ps` are left alone. */
  lemma {:induction false} DelistedOthers(wl: map<string, seq<AgentRef>>, ps: seq<string>, a: AgentRef, p: string)
    requires p !in ps && p in wl
    ensures Delisted(wl, ps, a).0[p] == wl[p]
    decreases |ps|
  {
    if ps != [] {
      var init := ps[..|ps| - 1];
      assert forall q :: q in init ==> q in ps;
      assert ps[|ps| - 1] in ps;
      DelistedOthers(wl, init, a, p);
    }
  }

  /** How many times `p` occurs in `ps`, counted from the back. */
  function Occurrences(ps: seq<string>, p: string): nat
    decreases |ps|
  {
    if ps == [] then 0
    else Occurrences(ps[..|ps| - 1], p) + if ps[|ps| - 1] == p then 1 else 0
  }

  lemma {:induction false} OccurrencesCount(ps: seq<string>, p: string)
    ensures Occurrences(ps, p) == multiset(ps)[p]
    decreases |ps|
  {
    if ps != [] {
      assert ps == ps[..|ps| - 1] + [ps[|ps| - 1]];
      OccurrencesCount(ps[..|ps| - 1], p);
    }
  }

  /** `n` copies of an agent, as a multiset. */
  function Copies(a: AgentRef, n: nat): multiset<AgentRef> {
    if n == 0 then multiset{} else Copies(a, n - 1) + multiset{a}
  }

  lemma {:induction false} CopiesRepeat(a: AgentRef, n: nat)
    ensures Copies(a, n) == multiset(Repeat(a, n))
  {
    if n > 0 {
      CopiesRepeat(a, n - 1);
      assert Repeat(a, n) == Repeat(a, n - 1) + [a];
    }
  }

  /** When the loop runs to its end, each worklist loses one occurrence of
      the agent per occurrence of its platform. */
  lemma {:induction false} DelistedCounts(wl: map<string, seq<AgentRef>>, ps: seq<string>, a: AgentRef, p: string)
    requires Delisted(wl, ps, a).1 && p in wl
    ensures p in Delisted(wl, ps, a).0
    ensures multiset(Delisted(wl, ps, a).0[p]) == multiset(wl[p]) - Copies(a, Occurrences(ps, p))
    decreases |ps|
  {
    if ps != [] {
      var init := ps[..|ps| - 1];
      var last := ps[|ps| - 1];
      DelistedLast(wl, ps, a);
      DelistedCounts(wl, init, a, p);
      CountStep(multiset(wl[p]), Delisted(wl, init, a).0[p], Delisted(wl, ps, a).0[p], a, Occurrences(init, p), last == p);
    } else {
      assert multiset(wl[p]) - Copies(a, 0) == multiset(wl[p]);
    }
  }

  /** A loop that ran to its end ran to the end of its last platform but
      one, and then removed the agent from the last one's worklist. */
  lemma DelistedLast(wl: map<string, seq<AgentRef>>, ps: seq<string>, a: AgentRef)
    requires ps != [] && Delisted(wl, ps, a).1
    ensures Delisted(wl, ps[..|ps| - 1], a).1
    ensures forall p :: p in Delisted(wl, ps[..|ps| - 1], a).0 ==>
              Delisted(wl, ps, a).0[p]
              == if ps[|ps| - 1] == p then Remove(Delisted(wl, ps[..|ps| - 1], a).0[p], a) else Delisted(wl, ps[..|ps| - 1], a).0[p]
  {
  }

  /** One more platform of the loop: its worklist loses one more copy of
      the agent exactly when it is the platform counted. */
  lemma CountStep(x: multiset<AgentRef>, before: seq<AgentRef>, after: seq<AgentRef>, a: AgentRef, n: nat, hit: bool)
    requires multiset(before) == x - Copies(a, n)
    requires after == if hit then Remove(before, a) else before
    ensures multiset(after) == x - Copies(a, n + if hit then 1 else 0)
  {
    if hit {
      OneMoreRemoved(x, before, a, n);
    }
  }

  /** Removing the agent once more takes one more copy away. */
  lemma OneMoreRemoved(x: multiset<AgentRef>, xs: seq<AgentRef>, a: AgentRef, n: nat)
    requires multiset(xs) == x - Copies(a, n)
    ensures multiset(Remove(xs, a)) == x - Copies(a, n + 1)
  {
    assert Copies(a, n + 1) == Copies(a, n) + multiset{a};
    MinusOneMore(x, Copies(a, n), a);
  }

  /** Taking away one more copy after a multiset of them. */
  lemma MinusOneMore(x: multiset<AgentRef>, c: multiset<AgentRef>, a: AgentRef)
    ensures (x - c) - multiset{a} == x - (c + multiset{a})
  {
  }

  /** Removing an agent from the worklists of the platforms it was added
      to gives back worklists with the agents they had before. */
  lemma DelistUndoesEnlist(wl: map<string, seq<AgentRef>>, ps: seq<string>, a: AgentRef, p: string)
    requires p in wl
    ensures var (w, ok) := Delisted(Enlisted(wl, ps, a), ps, a);
            ok && p in w && multiset(w[p]) == multiset(wl[p])
  {
    var e := Enlisted(wl, ps, a);
    forall q | q in ps ensures q in e {
      EnlistedSpec(wl, ps, a, q);
    }
    EnlistedSpec(wl, ps, a, p);
    DelistedOk(e, ps, a);
    DelistedCounts(e, ps, a, p);
    OccurrencesCount(ps, p);
    CopiesRepeat(a, multiset(ps)[p]);
  }

  method Delist(wl: map<string, seq<AgentRef>>, ps: seq<string>, a: AgentRef)
    returns (w: map<string, seq<AgentRef>>, ok: bool)
    ensures (w, ok) == Delisted(wl, ps, a)
  {
    w, ok := wl, true;
    var i := 0;
    while i < |ps| && ok
      invariant 0 <= i <= |ps|
      invariant (w, ok) == Delisted(wl, ps[..i], a)
      invariant !ok ==> Delisted(wl, ps, a) == (w, false)
    {
      DelistedStep(wl, ps, a, i);
      var p := ps[i];
      if p in w {
        w := w[p := Remove(w[p], a)];
      } else {
        ok := false;
        DelistedStopped(wl, ps, a, i + 1);
      }
      i := i + 1;
    }
    assert ok ==> ps[..i] == ps;
  }

  /** Once the loop has thrown, it stays thrown. */
  lemma {:induction false} DelistedStopped(wl: map<string, seq<AgentRef>>, ps: seq<string>, a: AgentRef, i: nat)
    requires i <= |ps| && !Delisted(wl, ps[..i], a).1
    ensures Delisted(wl, ps, a) == Delisted(wl, ps[..i], a)
    decreases |ps| - i
  {
    if i < |ps| {
      DelistedStep(wl, ps, a, i);
      DelistedStopped(wl, ps, a, i + 1);
    } else {
      assert ps[..i] == ps;
    }
  }

  // ---------------------------------------------------------------------
  // disconnect
  // ---------------------------------------------------------------------

  const ByeTemplate: string := "The agent with id {0} has disconnected. Bye!"
  const RequeueTemplate: string := "the agent {3} has been disconnected. The build on {2} will be added back to queue"

  /** What the handler needs of the agent: it is known and its `busy`
      build exists. */
  predicate Leaving(st: State, a: AgentRef) {
    Core(st) && a in st.sessions && BusyOk(st.heap, st.sessions[a])
  }

  /** The build an agent is busy with, as a message subject. */
  function BusySubject(st: State, se: Session): Subject
    requires BusyOk(st.heap, se)
  {
    if se.busy.Some? then SubjectOf(st.heap[se.busy.value]) else NoSubject
  }

  /** `agent.busy && agent.busy.client`. */
  function BusyClient(st: State, se: Session): Option<Peer>
    requires BusyOk(st.heap, se)
  {
    if se.busy.Some? then ClientOf(st.heap[se.busy.value]) else None
  }

  /** The saves of a build put back on the queue: the build next to its
      master's (or its own) folder, then its master. */
  function RequeueSaves(cfg: Config, h: Heap, r: BuildRef): seq<Event>
    requires Wf(h) && r in h
  {
    assert LinksOk(h, r);
    var b := h[r];
    [Saved(r, PlatformJsonPath(OutputFolder(cfg, h, r), b))]
    + if b.master.Some? then [Saved(b.master.value, BuildJsonPath(cfg.location, h[b.master.value]))] else []
  }

  /** The `if (agent.busy)` branch: the build is logged about, loses its
      agent, becomes `queued`, is saved and goes to the tail of the queue.
      The warning names `build.platform`, a field builds do not have. */
  function AfterRequeue(st: State, cfg: Config, a: AgentRef, r: BuildRef): (res: State)
    requires Core(st) && a in st.sessions && r in st.heap
    ensures Core(res) && res.heap.Keys == st.heap.Keys
  {
    var m := Make(SubjectOf(st.heap[r]), AgentSender(st.sessions[a]), "S", Warning, RequeueTemplate,
                  ["undefined", st.sessions[a].id]);
    var st1 := AfterLog(st, m, ClientOf(st.heap[r]));
    LogKeys(st, m, ClientOf(st.heap[r]));
    var st2 := WithBuild(st1, r, st1.heap[r].(agent := None));
    var st3 := AfterUpdateBuildStatus(st2, cfg, Obj(r), "queued", false);
    var st4 := st3.(events := st3.events + RequeueSaves(cfg, st3.heap, r), queue := st3.queue + [r]);
    CoreFrom(st3, st4);
    st4
  }

  /** The handler once the agent is out of `agents`: the worklists, then
      the requeue when it was busy, then the last `disconnected` news. */
  function AfterLeave(st: State, cfg: Config, a: AgentRef, se: Session): (res: State)
    requires Core(st) && a in st.sessions && BusyOk(st.heap, se)
    ensures Core(res)
  {
    var (wl, ok) := Delisted(st.platforms, se.platforms, a);
    var st1 := st.(platforms := wl);
    CoreFrom(st, st1);
    var st2 := if ok && se.busy.Some? then AfterRequeue(st1, cfg, a, se.busy.value) else st1;
    st2.(events := st2.events + [News("disconnected", "agent")])
  }

  /** An agent's `disconnect`: the agent's own listener announces it, then
      the server's handler logs it, announces it again, removes the agent
      from `agents` and from its worklists, puts its build back on the
      queue, and finally announces it once more. */
  function AfterDisconnect(st: State, cfg: Config, a: AgentRef): (res: State)
    requires Leaving(st, a)
    ensures Core(res)
  {
    var se := st.sessions[a];
    var bye := Make(BusySubject(st, se), AgentSender(se), "S", Debug, ByeTemplate, []);
    var st0 := st.(events := st.events + [News("disconnected", "agent")]);
    CoreFrom(st, st0);
    var st1 := AfterLog(st0, bye, BusyClient(st, se));
    LogKeys(st0, bye, BusyClient(st, se));
    var st2 := st1.(events := st1.events + [News("disconnected", "agent")], agents := Remove(st1.agents, a));
    CoreFrom(st1, st2);
    AfterLeave(st2, cfg, a, se)
  }

  method Requeue(s: Server, cfg: Config, a: AgentRef, r: BuildRef)
    requires Core(s.St()) && a in s.sessions && r in s.heap
    modifies s
    ensures s.St() == AfterRequeue(old(s.St()), cfg, a, r)
  {
    var b := s.heap[r];
    var m := Make(SubjectOf(b), AgentSender(s.sessions[a]), "S", Warning, RequeueTemplate, ["undefined", s.sessions[a].id]);
    s.Log(m, ClientOf(b));
    LogKeys(old(s.St()), m, ClientOf(b));
    SetBuild(s, r, s.heap[r].(agent := None));
    s.UpdateBuildStatus(cfg, Obj(r), "queued", false);
    s.events := s.events + RequeueSaves(cfg, s.heap, r);
    s.queue := s.queue + [r];
  }

  method Leave(s: Server, cfg: Config, a: AgentRef, se: Session)
    requires Core(s.St()) && a in s.sessions && BusyOk(s.heap, se)
    modifies s
    ensures s.St() == AfterLeave(old(s.St()), cfg, a, se)
  {
    var wl, ok := Delist(s.platforms, se.platforms, a);
    s.platforms := wl;
    if ok && se.busy.Some? {
      Requeue(s, cfg, a, se.busy.value);
    }
    s.events := s.events + [News("disconnected", "agent")];
  }

  method Disconnect(s: Server, cfg: Config, a: AgentRef)
    requires Leaving(s.St(), a)
    modifies s
    ensures s.St() == AfterDisconnect(old(s.St()), cfg, a)
  {
    var se := s.sessions[a];
    var bye := Make(BusySubject(s.St(), se), AgentSender(se), "S", Debug, ByeTemplate, []);
    var to := BusyClient(s.St(), se);
    s.events := s.events + [News("disconnected", "agent")];
    ghost var st0 := s.St();
    s.Log(bye, to);
    LogKeys(st0, bye, to);
    s.events := s.events + [News("disconnected", "agent")];
    s.agents := Remove(s.agents, a);
    Leave(s, cfg, a, se);
  }

  // ---------------------------------------------------------------------
  // Properties of disconnect
  // ---------------------------------------------------------------------

  /** The agent leaves `agents` and, once per declared platform, its
      worklist; the worklists of other platforms are left alone. */
  lemma DisconnectDelists(st: State, cfg: Config, a: AgentRef, p: string)
    requires Leaving(st, a)
    requires forall q :: q in st.sessions[a].platforms ==> q in st.platforms
    ensures var res := AfterDisconnect(st, cfg, a);
            var ps := st.sessions[a].platforms;
            res.agents == Remove(st.agents, a) && res.platforms.Keys == st.platforms.Keys
            && (p in st.platforms && p !in ps ==> res.platforms[p] == st.platforms[p])
            && (p in st.platforms ==> multiset(res.platforms[p]) == multiset(st.platforms[p]) - multiset(Repeat(a, multiset(ps)[p])))
  {
    var se := st.sessions[a];
    DelistedOk(st.platforms, se.platforms, a);
    if p in st.platforms {
      DelistedCounts(st.platforms, se.platforms, a, p);
      OccurrencesCount(se.platforms, p);
      CopiesRepeat(a, multiset(se.platforms)[p]);
      if p !in se.platforms {
        DelistedOthers(st.platforms, se.platforms, a, p);
      }
    }
    DisconnectSteps(st, cfg, a);
  }

  /** The parts of a disconnect before the worklists: only logs, events
      and `agents` change. */
  lemma DisconnectSteps(st: State, cfg: Config, a: AgentRef)
    requires Leaving(st, a)
    ensures var se := st.sessions[a];
            var bye := Make(BusySubject(st, se), AgentSender(se), "S", Debug, ByeTemplate, []);
            var st0 := st.(events := st.events + [News("disconnected", "agent")]);
            var st1 := AfterLog(st0, bye, BusyClient(st, se));
            var st2 := st1.(events := st1.events + [News("disconnected", "agent")], agents := Remove(st1.agents, a));
            Core(st0) && Core(st2)
            && AfterDisconnect(st, cfg, a) == AfterLeave(st2, cfg, a, se)
            && st2.platforms == st.platforms && st2.queue == st.queue && st2.sessions == st.sessions
            && st2.agents == Remove(st.agents, a) && st2.ids == st.ids && st2.builds == st.builds
            && LogsOnly(st.heap, st2.heap)
  {
  }

  /** A busy agent's build loses its agent, becomes `queued`, and is
      appended once to the tail of the queue. */
  lemma DisconnectRequeues(st: State, cfg: Config, a: AgentRef)
    requires Leaving(st, a) && st.sessions[a].busy.Some?
    requires forall q :: q in st.sessions[a].platforms ==> q in st.platforms
    ensures var res := AfterDisconnect(st, cfg, a);
            var r := st.sessions[a].busy.value;
            res.queue == st.queue + [r] && r in res.heap
            && res.heap[r].agent.None? && res.heap[r].conf.status == "queued"
            && res.ids == st.ids && res.builds == st.builds
  {
    var se := st.sessions[a];
    var r := se.busy.value;
    DisconnectSteps(st, cfg, a);
    var bye := Make(BusySubject(st, se), AgentSender(se), "S", Debug, ByeTemplate, []);
    var st0 := st.(events := st.events + [News("disconnected", "agent")]);
    var st1 := AfterLog(st0, bye, BusyClient(st, se));
    var st2 := st1.(events := st1.events + [News("disconnected", "agent")], agents := Remove(st1.agents, a));
    forall q | q in se.platforms ensures q in st2.platforms { }
    DelistedOk(st2.platforms, se.platforms, a);
    var st3 := st2.(platforms := Delisted(st2.platforms, se.platforms, a).0);
    CoreFrom(st2, st3);
    RequeueEffect(st3, cfg, a, r);
  }

  /** What the `if (agent.busy)` branch does to the build and the queue. */
  lemma RequeueEffect(st: State, cfg: Config, a: AgentRef, r: BuildRef)
    requires Core(st) && a in st.sessions && r in st.heap
    ensures var res := AfterRequeue(st, cfg, a, r);
            res.queue == st.queue + [r] && res.heap[r].agent.None? && res.heap[r].conf.status == "queued"
            && res.ids == st.ids && res.builds == st.builds
  {
    var m := Make(SubjectOf(st.heap[r]), AgentSender(st.sessions[a]), "S", Warning, RequeueTemplate,
                  ["undefined", st.sessions[a].id]);
    var st1 := AfterLog(st, m, ClientOf(st.heap[r]));
    LogKeys(st, m, ClientOf(st.heap[r]));
    var st2 := WithBuild(st1, r, st1.heap[r].(agent := None));
    StatusStep(st2, cfg, r, "queued");
    ObjFound(st2, cfg, r, "queued", false);
    FoundKeeps(st2, cfg, r, "queued", false, r);
  }

  /** Disconnecting an idle agent leaves every build and the queue as they
      were. */
  lemma DisconnectIdle(st: State, cfg: Config, a: AgentRef)
    requires Leaving(st, a) && st.sessions[a].busy.None?
    ensures var res := AfterDisconnect(st, cfg, a);
            res.heap == st.heap && res.queue == st.queue && res.ids == st.ids && res.builds == st.builds
  {
    DisconnectSteps(st, cfg, a);
  }

  // ---------------------------------------------------------------------
  // rebuild
  // ---------------------------------------------------------------------

  const RescheduledTemplate: string := "This build as been rescheduled for rebuild"

  /** A build's client as the sender of a message. */
  function ClientSender(b: Build, clientIds: map<ClientRef, string>): Sender {
    if b.client.Some? then SenderObj(if b.client.value in clientIds then clientIds[b.client.value] else "", "")
    else NoSender
  }

  /** The builds a rebuild puts on the queue: a child itself, a root its
      children (none when it has no list of children, where `forEach`
      throws). */
  function Requeued(b: Build, r: BuildRef): seq<BuildRef> {
    if b.master.Some? then [r] else if b.platforms.Some? then b.platforms.value else []
  }

  /** The dashboard's `rebuild` for a build found by its id. */
  function AfterRebuildFound(st: State, cfg: Config, r: BuildRef, clientIds: map<ClientRef, string>): (res: State)
    requires Core(st) && r in st.heap
    ensures Core(res)
  {
    var b := st.heap[r];
    var st1 := AfterUpdateBuildStatus(st, cfg, Obj(r), "queued", false);
    var m := Make(SubjectOf(b), ClientSender(b, clientIds), "S", Status, RescheduledTemplate, []);
    var st2 := AfterLog(st1, m, ClientOf(b));
    var st3 := st2.(queue := st2.queue + Requeued(b, r));
    CoreFrom(st2, st3);
    st3
  }

  /** `rebuild(build_id)`: an unknown id is ignored. */
  function AfterRebuild(st: State, cfg: Config, id: string, clientIds: map<ClientRef, string>): (res: State)
    requires Core(st)
    ensures Core(res)
  {
    var f := FindBuildById(st, id);
    if f.None? then st else AfterRebuildFound(st, cfg, f.value, clientIds)
  }

  /** Appends `rs` to the queue one build at a time. */
  method Enqueue(s: Server, rs: seq<BuildRef>)
    modifies s
    ensures s.St() == old(s.St()).(queue := old(s.queue) + rs)
  {
    var i := 0;
    while i < |rs|
      invariant 0 <= i <= |rs|
      invariant s.St() == old(s.St()).(queue := old(s.queue) + rs[..i])
    {
      s.queue := s.queue + [rs[i]];
      i := i + 1;
      assert rs[..i] == rs[..i - 1] + [rs[i - 1]];
    }
    assert rs[..i] == rs;
  }

  method RebuildFound(s: Server, cfg: Config, r: BuildRef, clientIds: map<ClientRef, string>)
    requires Core(s.St()) && r in s.heap
    modifies s
    ensures s.St() == AfterRebuildFound(old(s.St()), cfg, r, clientIds)
  {
    var b := s.heap[r];
    s.UpdateBuildStatus(cfg, Obj(r), "queued", false);
    s.Log(Make(SubjectOf(b), ClientSender(b, clientIds), "S", Status, RescheduledTemplate, []), ClientOf(b));
    var platforms := if b.master.Some? then [r] else if b.platforms.Some? then b.platforms.value else [];
    Enqueue(s, platforms);
  }

  method Rebuild(s: Server, cfg: Config, id: string, clientIds: map<ClientRef, string>)
    requires Core(s.St())
    modifies s
    ensures s.St() == AfterRebuild(old(s.St()), cfg, id, clientIds)
  {
    if id != "" && id in s.ids {
      RebuildFound(s, cfg, s.ids[id], clientIds);
    }
  }

  /** The rebuild's status change and log leave the queue alone and set
      the status. */
  lemma RebuildFoundEffect(st: State, cfg: Config, r: BuildRef, clientIds: map<ClientRef, string>)
    requires Core(st) && r in st.heap
    ensures var res := AfterRebuildFound(st, cfg, r, clientIds);
            res.queue == st.queue + Requeued(st.heap[r], r) && r in res.heap && res.heap[r].conf.status == "queued"
            && res.ids == st.ids && res.builds == st.builds && res.sessions == st.sessions
  {
    var b := st.heap[r];
    StatusStep(st, cfg, r, "queued");
    ObjFound(st, cfg, r, "queued", false);
    FoundKeeps(st, cfg, r, "queued", false, r);
    var st1 := AfterUpdateBuildStatus(st, cfg, Obj(r), "queued", false);
    var m := Make(SubjectOf(b), ClientSender(b, clientIds), "S", Status, RescheduledTemplate, []);
    LogKeeps(st1, m, ClientOf(b), r);
  }

  /** Rebuilding a child makes it `queued` and puts just that child on the
      tail of the queue. */
  lemma RebuildChild(st: State, cfg: Config, id: string, clientIds: map<ClientRef, string>)
    requires Core(st) && FindBuildById(st, id).Some?
    requires st.heap[FindBuildById(st, id).value].master.Some?
    ensures var r := FindBuildById(st, id).value;
            var res := AfterRebuild(st, cfg, id, clientIds);
            res.queue == st.queue + [r] && res.heap[r].conf.status == "queued"
  {
    RebuildFoundEffect(st, cfg, FindBuildById(st, id).value, clientIds);
  }

  /** Rebuilding a root makes it `queued` and puts every child on the tail
      of the queue, in order. */
  lemma RebuildRoot(st: State, cfg: Config, id: string, clientIds: map<ClientRef, string>)
    requires Core(st) && FindBuildById(st, id).Some?
    requires var b := st.heap[FindBuildById(st, id).value]; b.master.None? && b.platforms.Some?
    ensures var r := FindBuildById(st, id).value;
            var res := AfterRebuild(st, cfg, id, clientIds);
            res.queue == st.queue + st.heap[r].platforms.value && res.heap[r].conf.status == "queued"
  {
    RebuildFoundEffect(st, cfg, FindBuildById(st, id).value, clientIds);
  }

  /** A rebuild of an unknown id changes nothing. */
  lemma RebuildUnknown(st: State, cfg: Config, id: string, clientIds: map<ClientRef, string>)
    requires Core(st) && (id == "" || id !in st.ids)
    ensures AfterRebuild(st, cfg, id, clientIds) == st
  {
  }

  // ---------------------------------------------------------------------
  // cancel
  // ---------------------------------------------------------------------

  const CancelledTemplate: string := "The build has been cancelled on user's request"

  /** Every agent a build is assigned to is a known session. */
  predicate AgentsKnown(st: State) {
    forall r :: r in st.heap && st.heap[r].agent.Some? ==> st.heap[r].agent.value in st.sessions
  }

  /** The sender of the cancellation log: the build's agent, if any. */
  function AgentSenderOf(st: State, b: Build): Sender {
    if b.agent.Some? && b.agent.value in st.sessions then AgentSender(st.sessions[b.agent.value]) else NoSender
  }

  /** The part of `cancel` before the agent is told: the status, the queue,
      the client told the build failed, and the log. */
  function AfterCancelled(st: State, cfg: Config, r: BuildRef): (res: State)
    requires Core(st) && r in st.heap
    ensures Core(res) && res.heap.Keys == st.heap.Keys && res.sessions == st.sessions
  {
    var b := st.heap[r];
    var st1 := AfterUpdateBuildStatus(st, cfg, Obj(r), "cancelled", false);
    var told := if b.client.Some? then [Emit(ClientPeer(b.client.value), "build-failed", IdOf(b.id))] else [];
    var st2 := st1.(queue := Remove(st1.queue, r), events := st1.events + told);
    CoreFrom(st1, st2);
    var m := Make(SubjectOf(b), AgentSenderOf(st, b), "S", Error, CancelledTemplate, []);
    LogKeys(st2, m, ClientOf(b));
    AfterLog(st2, m, ClientOf(b))
  }

  /** The dashboard's `cancel` for a build found by its id: the agent the
      build is assigned to is told to cancel and freed. */
  function AfterCancelFound(st: State, cfg: Config, r: BuildRef): (res: State)
    requires Core(st) && r in st.heap
    ensures Core(res)
  {
    var b := st.heap[r];
    var st1 := AfterCancelled(st, cfg, r);
    if b.agent.Some? then
      var a := b.agent.value;
      var st2 := st1.(events := st1.events + [Emit(AgentPeer(a), "cancel", IdOf(b.id))],
                      sessions := if a in st1.sessions then st1.sessions[a := st1.sessions[a].(busy := None)] else st1.sessions);
      CoreFrom(st1, st2);
      st2
    else st1
  }

  /** `cancel(build_id)`: an unknown id is ignored. */
  function AfterCancel(st: State, cfg: Config, id: string): (res: State)
    requires Core(st)
    ensures Core(res)
  {
    var f := FindBuildById(st, id);
    if f.None? then st else AfterCancelFound(st, cfg, f.value)
  }

  method Cancelled(s: Server, cfg: Config, r: BuildRef)
    requires Core(s.St()) && r in s.heap
    modifies s
    ensures s.St() == AfterCancelled(old(s.St()), cfg, r)
  {
    var b := s.heap[r];
    var sender := AgentSenderOf(s.St(), b);
    s.UpdateBuildStatus(cfg, Obj(r), "cancelled", false);
    s.queue := Remove(s.queue, r);
    if b.client.Some? {
      s.events := s.events + [Emit(ClientPeer(b.client.value), "build-failed", IdOf(b.id))];
    }
    s.Log(Make(SubjectOf(b), sender, "S", Error, CancelledTemplate, []), ClientOf(b));
  }

  method CancelFound(s: Server, cfg: Config, r: BuildRef)
    requires Core(s.St()) && r in s.heap
    modifies s
    ensures s.St() == AfterCancelFound(old(s.St()), cfg, r)
  {
    var b := s.heap[r];
    Cancelled(s, cfg, r);
    if b.agent.Some? {
      var a := b.agent.value;
      s.events := s.events + [Emit(AgentPeer(a), "cancel", IdOf(b.id))];
      if a in s.sessions {
        s.sessions := s.sessions[a := s.sessions[a].(busy := None)];
      }
    }
  }

  method Cancel(s: Server, cfg: Config, id: string)
    requires Core(s.St())
    modifies s
    ensures s.St() == AfterCancel(old(s.St()), cfg, id)
  {
    if id != "" && id in s.ids {
      CancelFound(s, cfg, s.ids[id]);
    }
  }

  /** The status becomes `cancelled` and one occurrence of the build
      leaves the queue. */
  lemma CancelledEffect(st: State, cfg: Config, r: BuildRef)
    requires Core(st) && r in st.heap
    ensures var res := AfterCancelled(st, cfg, r);
            res.heap[r].conf.status == "cancelled"
            && res.queue == Remove(st.queue, r)
            && res.ids == st.ids && res.builds == st.builds
  {
    var b := st.heap[r];
    StatusStep(st, cfg, r, "cancelled");
    ObjFound(st, cfg, r, "cancelled", false);
    FoundKeeps(st, cfg, r, "cancelled", false, r);
    var st1 := AfterUpdateBuildStatus(st, cfg, Obj(r), "cancelled", false);
    var told := if b.client.Some? then [Emit(ClientPeer(b.client.value), "build-failed", IdOf(b.id))] else [];
    var st2 := st1.(queue := Remove(st1.queue, r), events := st1.events + told);
    var m := Make(SubjectOf(b), AgentSenderOf(st, b), "S", Error, CancelledTemplate, []);
    LogKeeps(st2, m, ClientOf(b), r);
  }

  /** Cancelling sets the status to `cancelled`, takes one occurrence of
      the build off the queue, and frees the agent it is assigned to. */
  lemma CancelEffect(st: State, cfg: Config, id: string)
    requires Core(st) && AgentsKnown(st) && FindBuildById(st, id).Some?
    ensures var r := FindBuildById(st, id).value;
            var res := AfterCancel(st, cfg, id);
            var b := st.heap[r];
            res.heap[r].conf.status == "cancelled"
            && multiset(res.queue) == multiset(st.queue) - multiset{r}
            && (multiset(st.queue)[r] <= 1 ==> r !in res.queue)
            && (b.agent.Some? ==> b.agent.value in res.sessions && res.sessions[b.agent.value].busy.None?)
            && (forall c :: c in st.sessions && b.agent != Some(c) ==> res.sessions[c] == st.sessions[c])
            && res.ids == st.ids && res.builds == st.builds
  {
    var r := FindBuildById(st, id).value;
    CancelledEffect(st, cfg, r);
    if multiset(st.queue)[r] <= 1 {
      RemoveOnce(st.queue, r);
    }
  }

  /** A cancel of an unknown id changes nothing. */
  lemma CancelUnknown(st: State, cfg: Config, id: string)
    requires Core(st) && (id == "" || id !in st.ids)
    ensures AfterCancel(st, cfg, id) == st
  {
  }
}
