/** The scheduler of the coordinator: `loopAgents` and `processQueue` of
    lib/server/Server.js. A pass takes builds off the head of the queue
    and hands each to the first agent of its platform's worklist that is
    not busy; the first build that finds no such agent goes back to the
    tail and ends the pass.

    Within a pass only the synchronous part of `startBuild` runs (the
    agent becomes busy, the build `uploading`); reading the input files
    completes later, as a callback of its own (`AgentSessions.FilesRead`). */
module Scheduler {
  import opened Wrappers
  import opened Builds
  import opened Coordinator
  import opened AgentSessions

  /** What a pass needs: a well-formed build graph, queued builds that
      exist, and worklists of known agents. */
  predicate Schedulable(st: State) {
    Core(st)
    && (forall r :: r in st.queue ==> r in st.heap)
    && (forall p :: p in st.platforms ==> forall a :: a in st.platforms[p] ==> a in st.sessions)
  }

  lemma ConsistentSchedulable(st: State)
    requires Consistent(st)
    ensures Schedulable(st)
  {
  }

  /** The key `this.platforms[build.conf.platform]` looks up: the platform
      as text, and `undefined` for a build without one. */
  function WorklistKey(p: PlatformConf): string {
    if p.NoPlatform? then "undefined" else PlatformText(p)
  }

  /** The worklist of a build's platform; a missing worklist dispatches to
      nobody, as an empty one does. */
  function Worklist(st: State, r: BuildRef): (wl: seq<AgentRef>)
    requires Schedulable(st) && r in st.heap
    ensures forall a :: a in wl ==> a in st.sessions
  {
    var k := WorklistKey(st.heap[r].conf.platform);
    if k in st.platforms then st.platforms[k] else []
  }

  // ---------------------------------------------------------------------
  // loopAgents
  // ---------------------------------------------------------------------

  /** The position of the first agent of `wl` that is not busy, if any. */
  function FirstIdle(sessions: map<AgentRef, Session>, wl: seq<AgentRef>): (i: Option<nat>)
    requires forall a :: a in wl ==> a in sessions
    ensures i.Some? ==> i.value < |wl| && sessions[wl[i.value]].busy.None?
    ensures i.Some? ==> forall k :: 0 <= k < i.value ==> sessions[wl[k]].busy.Some?
    ensures i.None? <==> forall k :: 0 <= k < |wl| ==> sessions[wl[k]].busy.Some?
  {
    if wl == [] then None
    else if sessions[wl[0]].busy.None? then Some(0)
    else
      var j := FirstIdle(sessions, wl[1..]);
      if j.Some? then Some(j.value + 1) else None
  }

  /** An idle agent preceded only by busy ones is the first idle one. */
  lemma FirstIdleAt(sessions: map<AgentRef, Session>, wl: seq<AgentRef>, i: nat)
    requires forall a :: a in wl ==> a in sessions
    requires i < |wl| && sessions[wl[i]].busy.None?
    requires forall k :: 0 <= k < i ==> sessions[wl[k]].busy.Some?
    ensures FirstIdle(sessions, wl) == Some(i)
  {
  }

  /** `loopAgents(agents, build)`: `startBuild` on the first agent of the
      worklist that is not busy, if there is one. */
  function AfterLoopAgents(st: State, cfg: Config, wl: seq<AgentRef>, r: BuildRef): State
    requires Core(st) && r in st.heap && forall a :: a in wl ==> a in st.sessions
  {
    var i := FirstIdle(st.sessions, wl);
    if i.Some? then AfterBeginBuild(st, cfg, wl[i.value], r) else st
  }

  /** `startBuild` changes no agent but the one it is called on. */
  lemma BeginBuildOthers(st: State, cfg: Config, a: AgentRef, r: BuildRef, b: AgentRef)
    requires Core(st) && a in st.sessions && r in st.heap && b in st.sessions && b != a
    ensures AfterBeginBuild(st, cfg, a, r).sessions[b] == st.sessions[b]
  {
    var st1 := SetBusy(st, a, Some(r));
    var st2 := AfterUpdateAgentStatus(st1, a, "building", PlatformText(st.heap[r].conf.platform));
    CoreFrom(st, st2);
    var st3 := AfterUpdateBuildStatus(st2, cfg, Obj(r), "uploading", false);
    assert st3.sessions == st2.sessions;
  }

  /** `startBuild` keeps what a pass needs, and the queue. */
  lemma BeginBuildSchedulable(st: State, cfg: Config, a: AgentRef, r: BuildRef)
    requires Schedulable(st) && a in st.sessions && r in st.heap
    ensures var res := AfterBeginBuild(st, cfg, a, r);
            Schedulable(res) && res.queue == st.queue && res.sessions.Keys == st.sessions.Keys
  {
    BeginBuildMarks(st, cfg, a, r);
  }

  /** `loopAgents` returns true exactly when some agent of the worklist is
      idle; it then starts the build on the first idle one, which becomes
      busy with it, and leaves every other agent as it was. Otherwise it
      changes nothing. */
  lemma LoopAgentsEffect(st: State, cfg: Config, wl: seq<AgentRef>, r: BuildRef)
    requires Schedulable(st) && r in st.heap && forall a :: a in wl ==> a in st.sessions
    ensures var res := AfterLoopAgents(st, cfg, wl, r);
            var i := FirstIdle(st.sessions, wl);
            Schedulable(res) && res.queue == st.queue && res.sessions.Keys == st.sessions.Keys
            && (i.None? ==> res == st)
            && (i.Some? ==> res.sessions[wl[i.value]].busy == Some(r) && res.heap[r].agent == Some(wl[i.value])
                            && res.heap[r].conf.status == "uploading")
            && (forall b :: b in st.sessions && (i.None? || b != wl[i.value]) ==> res.sessions[b] == st.sessions[b])
  {
    var i := FirstIdle(st.sessions, wl);
    if i.Some? {
      var a := wl[i.value];
      BeginBuildSchedulable(st, cfg, a, r);
      BeginBuildMarks(st, cfg, a, r);
      forall b | b in st.sessions && b != a ensures AfterLoopAgents(st, cfg, wl, r).sessions[b] == st.sessions[b] {
        BeginBuildOthers(st, cfg, a, r, b);
      }
    }
  }

  /** `loopAgents(agents, build)`: the `every` over the worklist that stops
      at the first agent that is not busy. */
  method LoopAgents(s: Server, cfg: Config, wl: seq<AgentRef>, r: BuildRef) returns (started: bool)
    requires Core(s.St()) && r in s.heap && forall a :: a in wl ==> a in s.sessions
    modifies s
    ensures started == FirstIdle(old(s.sessions), wl).Some?
    ensures s.St() == AfterLoopAgents(old(s.St()), cfg, wl, r)
  {
    started := false;
    var i := 0;
    while i < |wl|
      invariant 0 <= i <= |wl|
      invariant forall k :: 0 <= k < i ==> s.sessions[wl[k]].busy.Some?
      invariant s.St() == old(s.St())
    {
      if s.sessions[wl[i]].busy.None? {
        FirstIdleAt(s.sessions, wl, i);
        BeginBuild(s, cfg, wl[i], r);
        started := true;
        return;
      }
      i := i + 1;
    }
  }

  // ---------------------------------------------------------------------
  // processQueue
  // ---------------------------------------------------------------------

  /** `processQueue()`: a pass over the queue. */
  function AfterProcessQueue(st: State, cfg: Config): State
    requires Schedulable(st)
    decreases 2 * |st.queue|
  {
    if st.queue == [] then st
    else AfterDispatch(st.(queue := st.queue[1..]), cfg, st.queue[0])
  }

  /** The rest of a pass once `r` has been shifted off the queue: `r` is
      started on the first idle agent of its worklist and the pass goes
      on, or `r` goes back to the tail and the pass ends. */
  function AfterDispatch(st: State, cfg: Config, r: BuildRef): State
    requires Schedulable(st) && r in st.heap
    decreases 2 * |st.queue| + 1
  {
    var wl := Worklist(st, r);
    var i := FirstIdle(st.sessions, wl);
    if i.None? then st.(queue := st.queue + [r])
    else
      BeginBuildSchedulable(st, cfg, wl[i.value], r);
      AfterProcessQueue(AfterBeginBuild(st, cfg, wl[i.value], r), cfg)
  }

  /** A build that finds no idle agent goes to the tail of the queue and
      ends the pass: nothing else changes. */
  lemma BlockedHeadEndsPass(st: State, cfg: Config)
    requires Schedulable(st) && st.queue != []
    requires var rest := st.(queue := st.queue[1..]);
             FirstIdle(rest.sessions, Worklist(rest, st.queue[0])).None?
    ensures AfterProcessQueue(st, cfg) == st.(queue := st.queue[1..] + [st.queue[0]])
  {
  }

  /** A build that finds an idle agent is started on the first one, and
      the pass goes on with the next build. */
  lemma DispatchedHeadContinues(st: State, cfg: Config)
    requires Schedulable(st) && st.queue != []
    requires var rest := st.(queue := st.queue[1..]);
             FirstIdle(rest.sessions, Worklist(rest, st.queue[0])).Some?
    ensures var rest := st.(queue := st.queue[1..]);
            var wl := Worklist(rest, st.queue[0]);
            var a := wl[FirstIdle(rest.sessions, wl).value];
            var started := AfterBeginBuild(rest, cfg, a, st.queue[0]);
            Schedulable(started) && started.queue == st.queue[1..]
            && started.sessions[a].busy == Some(st.queue[0])
            && started.heap[st.queue[0]].conf.status == "uploading"
            && AfterProcessQueue(st, cfg) == AfterProcessQueue(started, cfg)
  {
    var rest := st.(queue := st.queue[1..]);
    var wl := Worklist(rest, st.queue[0]);
    var a := wl[FirstIdle(rest.sessions, wl).value];
    BeginBuildSchedulable(rest, cfg, a, st.queue[0]);
    BeginBuildMarks(rest, cfg, a, st.queue[0]);
  }

  /** One dispatch: the chosen agent was idle and every other agent is as
      it was. */
  lemma DispatchStep(st: State, cfg: Config, r: BuildRef)
    requires Schedulable(st) && r in st.heap
    requires FirstIdle(st.sessions, Worklist(st, r)).Some?
    ensures var wl := Worklist(st, r);
            var a := wl[FirstIdle(st.sessions, wl).value];
            var res := AfterBeginBuild(st, cfg, a, r);
            st.sessions[a].busy.None? && Schedulable(res) && res.queue == st.queue
            && res.sessions.Keys == st.sessions.Keys
            && forall b :: b in st.sessions && b != a ==> res.sessions[b] == st.sessions[b]
  {
    var wl := Worklist(st, r);
    var a := wl[FirstIdle(st.sessions, wl).value];
    BeginBuildSchedulable(st, cfg, a, r);
    forall b | b in st.sessions && b != a ensures AfterBeginBuild(st, cfg, a, r).sessions[b] == st.sessions[b] {
      BeginBuildOthers(st, cfg, a, r, b);
    }
  }

  /** An agent that is busy when a pass starts is busy with the same build
      when it ends: no agent is given a second build. */
  lemma {:induction false} BusyAgentsKeepTheirBuild(st: State, cfg: Config, b: AgentRef)
    requires Schedulable(st) && b in st.sessions && st.sessions[b].busy.Some?
    ensures var res := AfterProcessQueue(st, cfg);
            b in res.sessions && res.sessions[b].busy == st.sessions[b].busy
    decreases 2 * |st.queue|
  {
    if st.queue != [] {
      DispatchBusyKept(st.(queue := st.queue[1..]), cfg, st.queue[0], b);
    }
  }

  lemma {:induction false} DispatchBusyKept(st: State, cfg: Config, r: BuildRef, b: AgentRef)
    requires Schedulable(st) && r in st.heap && b in st.sessions && st.sessions[b].busy.Some?
    ensures var res := AfterDispatch(st, cfg, r);
            b in res.sessions && res.sessions[b].busy == st.sessions[b].busy
    decreases 2 * |st.queue| + 1
  {
    var wl := Worklist(st, r);
    if FirstIdle(st.sessions, wl).Some? {
      var a := wl[FirstIdle(st.sessions, wl).value];
      DispatchStep(st, cfg, r);
      BusyAgentsKeepTheirBuild(AfterBeginBuild(st, cfg, a, r), cfg, b);
    }
  }

  /** The queue after a pass: the builds before position `k` were
      dispatched and the one at `k` moved to the tail; or every build was
      dispatched and the queue is empty. */
  predicate PassShape(q: seq<BuildRef>, q': seq<BuildRef>, k: nat) {
    (k == |q| && q' == []) || (k < |q| && q' == q[k + 1..] + [q[k]])
  }

  lemma {:induction false} ProcessQueueShape(st: State, cfg: Config) returns (k: nat)
    requires Schedulable(st)
    ensures PassShape(st.queue, AfterProcessQueue(st, cfg).queue, k)
    decreases 2 * |st.queue|, 1
  {
    if st.queue == [] {
      k := 0;
    } else {
      var j := HeadShape(st, cfg);
      ShapeShift(st.queue, AfterProcessQueue(st, cfg).queue, j);
      k := j + 1;
    }
  }

  /** The head of the queue is shifted off and dispatched: it went to the
      tail (position -1), or the rest of the pass has the shape `j`. */
  lemma {:induction false} HeadShape(st: State, cfg: Config) returns (j: int)
    requires Schedulable(st) && st.queue != []
    ensures -1 <= j <= |st.queue| - 1
    ensures var q := st.queue;
            var q' := AfterProcessQueue(st, cfg).queue;
            (j == -1 && q' == q[1..] + [q[0]]) || (j >= 0 && PassShape(q[1..], q', j))
    decreases 2 * |st.queue|, 0
  {
    var rest := st.(queue := st.queue[1..]);
    j := DispatchShape(rest, cfg, st.queue[0]);
  }

  /** Shifting the head off: the shape of the rest of the pass, one place
      further on. */
  lemma ShapeShift(q: seq<BuildRef>, q': seq<BuildRef>, j: int)
    requires q != [] && -1 <= j <= |q| - 1
    requires (j == -1 && q' == q[1..] + [q[0]]) || (j >= 0 && PassShape(q[1..], q', j))
    ensures PassShape(q, q', j + 1)
  {
    if 0 <= j < |q| - 1 {
      assert q[1..][j + 1..] == q[j + 2..];
    }
  }

  /** The queue at the end of the rest of a pass, once `r` was shifted
      off: `r` itself went to the tail (position -1), or the builds
      before `k` of the remaining queue were dispatched. */
  lemma {:induction false} DispatchShape(st: State, cfg: Config, r: BuildRef) returns (k: int)
    requires Schedulable(st) && r in st.heap
    ensures -1 <= k <= |st.queue|
    ensures var q' := AfterDispatch(st, cfg, r).queue;
            (k == -1 && q' == st.queue + [r]) || (k >= 0 && PassShape(st.queue, q', k))
    decreases 2 * |st.queue| + 1, 0
  {
    var wl := Worklist(st, r);
    if FirstIdle(st.sessions, wl).None? {
      k := -1;
    } else {
      var a := wl[FirstIdle(st.sessions, wl).value];
      BeginBuildSchedulable(st, cfg, a, r);
      k := ProcessQueueShape(AfterBeginBuild(st, cfg, a, r), cfg);
    }
  }

  /** A pass ends with the queue in one of the shapes of `PassShape`. */
  lemma PassEndsAtFirstMiss(st: State, cfg: Config)
    requires Schedulable(st)
    ensures exists k :: 0 <= k <= |st.queue| && PassShape(st.queue, AfterProcessQueue(st, cfg).queue, k)
  {
    var k := ProcessQueueShape(st, cfg);
    assert PassShape(st.queue, AfterProcessQueue(st, cfg).queue, k);
  }

  /** `processQueue()`: the `while` loop that shifts the queue while builds
      are dispatched and pushes back the first one that is not. */
  method ProcessQueue(s: Server, cfg: Config)
    requires Schedulable(s.St())
    modifies s
    ensures s.St() == AfterProcessQueue(old(s.St()), cfg)
  {
    if s.queue == [] {
      return;
    }
    var build := s.queue[0];
    s.queue := s.queue[1..];
    var more := true;
    while more
      invariant Schedulable(s.St())
      invariant more ==> build in s.heap && AfterProcessQueue(old(s.St()), cfg) == AfterDispatch(s.St(), cfg, build)
      invariant !more ==> s.St() == AfterProcessQueue(old(s.St()), cfg)
      decreases more, |s.queue|
    {
      var key := WorklistKey(s.heap[build].conf.platform);
      var started := false;
      ghost var st0 := s.St();
      if key in s.platforms {
        started := LoopAgents(s, cfg, s.platforms[key], build);
      }
      LoopAgentsEffect(st0, cfg, Worklist(st0, build), build);
      assert s.queue == st0.queue;
      if !started {
        s.queue := s.queue + [build];
        more := false;
      } else if s.queue == [] {
        more := false;
      } else {
        build := s.queue[0];
        s.queue := s.queue[1..];
      }
    }
  }
}
