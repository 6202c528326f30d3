/** The agent side of the coordinator (`sockets/Agent.js` together with
    the agent handlers `register` of `ServerSockets.js`): a session is
    opened on connection, registers its platforms, is handed builds by
    `startBuild`, and reports them back as built or failed.

    Each operation is a function `After...` on the coordinator's `State`
    and a method on the `Server` object proved to take it there; every
    asynchronous callback is its own step, and the outcome of the I/O it
    waits for (the disk, `mkdirs`, the writes, the clean-up) is one of its
    parameters. */
module AgentSessions {
  import opened Wrappers
  import opened Strings
  import opened Builds
  import opened Messages
  import opened Coordinator
  import ServerUtils

  // ---------------------------------------------------------------------
  // getUnique
  // ---------------------------------------------------------------------

  /** The first occurrence of each value, in the order of the input. */
  function Dedup(xs: seq<string>): (r: seq<string>)
    ensures forall x :: x in r <==> x in xs
    decreases |xs|
  {
    if xs == [] then []
    else
      var init := xs[..|xs| - 1];
      assert xs == init + [xs[|xs| - 1]];
      if xs[|xs| - 1] in init then Dedup(init) else Dedup(init) + [xs[|xs| - 1]]
  }

  predicate Distinct(xs: seq<string>) {
    forall i, j :: 0 <= i < j < |xs| ==> xs[i] != xs[j]
  }

  /** `getUnique` returns no value twice. */
  lemma {:induction false} DedupDistinct(xs: seq<string>)
    ensures Distinct(Dedup(xs))
    decreases |xs|
  {
    if xs != [] {
      DedupDistinct(xs[..|xs| - 1]);
    }
  }

  /** `r` lists its values in the order of their first occurrences in
      `xs`. */
  predicate FirstSeenOrder(xs: seq<string>, r: seq<string>) {
    forall i, j :: 0 <= i < j < |r| ==> IndexIn(xs, r[i]) < IndexIn(xs, r[j])
  }

  /** The values keep the order of their first occurrences. */
  lemma {:induction false} DedupOrder(xs: seq<string>)
    ensures FirstSeenOrder(xs, Dedup(xs))
    decreases |xs|
  {
    if xs != [] {
      var init := xs[..|xs| - 1];
      DedupOrder(init);
      OrderExtended(xs, Dedup(init));
    }
  }

  /** An order of first occurrences in all but the last value of `xs`
      is one in `xs`, and so is its extension by a new last value. */
  lemma OrderExtended(xs: seq<string>, d: seq<string>)
    requires xs != [] && FirstSeenOrder(xs[..|xs| - 1], d)
    requires forall x :: x in d ==> x in xs[..|xs| - 1]
    ensures FirstSeenOrder(xs, d)
    ensures xs[|xs| - 1] !in xs[..|xs| - 1] ==> FirstSeenOrder(xs, d + [xs[|xs| - 1]])
  {
    var init := xs[..|xs| - 1];
    var last := xs[|xs| - 1];
    assert xs == init + [last];
    forall i, j | 0 <= i < j < |d| ensures IndexIn(xs, d[i]) < IndexIn(xs, d[j]) {
      assert d[i] in d && d[j] in d;
      assert d[i] in init && d[j] in init;
      IndexInExtended(init, last, d[i]);
      IndexInExtended(init, last, d[j]);
      assert IndexIn(init + [last], d[i]) == IndexIn(init, d[i]);
      assert IndexIn(xs, d[i]) == IndexIn(init, d[i]);
      assert IndexIn(xs, d[j]) == IndexIn(init, d[j]);
      assert IndexIn(init, d[i]) < IndexIn(init, d[j]);
    }
    if last !in init {
      IndexInExtended(init, last, last);
      var r := d + [last];
      forall i, j | 0 <= i < j < |r| ensures IndexIn(xs, r[i]) < IndexIn(xs, r[j]) {
        assert r[i] == d[i] && d[i] in d && d[i] in init;
        IndexInExtended(init, last, d[i]);
        assert IndexIn(xs, r[i]) == IndexIn(init, d[i]) < |init|;
        if j < |d| {
          assert r[j] == d[j];
        } else {
          assert r[j] == last && IndexIn(xs, last) == |init|;
        }
      }
    }
  }

  /** Appending leaves the first index of a value already present alone,
      and puts a new value at the end. */
  lemma {:induction false} IndexInExtended(xs: seq<string>, y: string, x: string)
    ensures x in xs ==> IndexIn(xs + [y], x) == IndexIn(xs, x)
    ensures x !in xs && x == y ==> IndexIn(xs + [y], x) == |xs|
    decreases |xs|
  {
    if xs != [] {
      assert (xs + [y])[1..] == xs[1..] + [y];
      IndexInExtended(xs[1..], y, x);
    }
  }

  /** `getUnique(arr)` as a loop over the values, with the values seen so
      far in a set. */
  method GetUnique(arr: seq<string>) returns (unique: seq<string>)
    ensures unique == Dedup(arr)
  {
    var seen: set<string> := {};
    unique := [];
    var i := 0;
    while i < |arr|
      invariant 0 <= i <= |arr|
      invariant unique == Dedup(arr[..i])
      invariant forall x :: x in seen <==> x in arr[..i]
    {
      DedupStep(arr, i);
      var val := arr[i];
      if val !in seen {
        unique := unique + [val];
        seen := seen + {val};
      }
      i := i + 1;
    }
    assert arr[..|arr|] == arr;
  }

  /** One more value, for the loop of `GetUnique`. */
  lemma DedupStep(arr: seq<string>, i: nat)
    requires i < |arr|
    ensures Dedup(arr[..i + 1]) == if arr[i] in arr[..i] then Dedup(arr[..i]) else Dedup(arr[..i]) + [arr[i]]
    ensures forall x :: x in arr[..i + 1] <==> x in arr[..i] || x == arr[i]
  {
    assert arr[..i + 1] == arr[..i] + [arr[i]];
  }

  /** The names a plain object `{}` already answers with a truthy value. */
  const PrototypeNames: set<string> :=
    {"constructor", "hasOwnProperty", "isPrototypeOf", "propertyIsEnumerable", "toLocaleString",
     "toString", "valueOf", "__proto__", "__defineGetter__", "__defineSetter__",
     "__lookupGetter__", "__lookupSetter__"}

  /** `getUnique` as written: its seen-map is a plain object, so a value
      that names a property of `Object.prototype` counts as already seen. */
  function GetUniqueAsWritten(xs: seq<string>): seq<string>
    decreases |xs|
  {
    if xs == [] then []
    else
      var init := xs[..|xs| - 1];
      var last := xs[|xs| - 1];
      if last in init || last in PrototypeNames then GetUniqueAsWritten(init)
      else GetUniqueAsWritten(init) + [last]
  }

  /** A platform called `constructor` is dropped by the code as written,
      while every value should survive. */
  lemma PrototypeNameDropped()
    ensures GetUniqueAsWritten(["constructor"]) == []
    ensures Dedup(["constructor"]) == ["constructor"]
  {
    assert ["constructor"][..0] == [];
  }

  /** On values that are not prototype names the code as written agrees
      with `Dedup`. */
  lemma {:induction false} AsWrittenAgrees(xs: seq<string>)
    requires forall i :: 0 <= i < |xs| ==> xs[i] !in PrototypeNames
    ensures GetUniqueAsWritten(xs) == Dedup(xs)
    decreases |xs|
  {
    if xs != [] {
      AsWrittenAgrees(xs[..|xs| - 1]);
    }
  }

  // ---------------------------------------------------------------------
  // Connection and registration
  // ---------------------------------------------------------------------

  /** `conf.platforms` as the agent sends it: a string of names separated
      by `;` or `,`, a list, or nothing. */
  datatype PlatformsArg = SeparatedPlatforms(text: string) | PlatformList(items: seq<string>) | NoPlatformList

  /** The `conf` of a `register` event ("" for a missing id). */
  datatype AgentConf = AgentConf(id: string, platforms: PlatformsArg)

  const PlatformSeparators: set<char> := {';', ','}

  function Declared(conf: Option<AgentConf>): seq<string> {
    if conf.None? then []
    else match conf.value.platforms
      case SeparatedPlatforms(text) => Split(text, PlatformSeparators)
      case PlatformList(items) => items
      case NoPlatformList => []
  }

  /** `new Agent(socket)` on a connection: a fresh session with no platforms
      and no build. */
  function AfterConnect(st: State): (res: State)
  {
    st.(sessions := st.sessions[st.nextAgent := Session("", [], None, "", "")], nextAgent := st.nextAgent + 1)
  }

  lemma ConnectFresh(st: State)
    requires Consistent(st)
    ensures var res := AfterConnect(st);
            Consistent(res) && st.nextAgent !in st.sessions && st.nextAgent !in res.agents
            && res.sessions[st.nextAgent] == Session("", [], None, "", "")
            && (forall a :: a in st.sessions ==> a in res.sessions && res.sessions[a] == st.sessions[a])
            && res.heap == st.heap && res.queue == st.queue && res.agents == st.agents && res.platforms == st.platforms
  {
  }

  method Connect(s: Server) returns (a: AgentRef)
    modifies s
    ensures a == old(s.nextAgent)
    ensures s.St() == AfterConnect(old(s.St()))
  {
    a := s.nextAgent;
    s.sessions := s.sessions[a := Session("", [], None, "", "")];
    s.nextAgent := a + 1;
  }

  /** `Agent.onRegister(conf)`: the declared platforms, split and
      deduplicated, are appended to the agent's; the agent's `conf` becomes
      the one received, which has no status yet. */
  function AfterOnRegister(st: State, a: AgentRef, conf: Option<AgentConf>): (res: State)
    requires a in st.sessions
  {
    var se := st.sessions[a];
    st.(sessions := st.sessions[a := se.(platforms := se.platforms + Dedup(Declared(conf)), status := "", buildingPlatform := "")])
  }

  /** The worklists after pushing `a` onto the worklist of each platform
      of `ps` in order, creating the missing ones. */
  function Enlisted(wl: map<string, seq<AgentRef>>, ps: seq<string>, a: AgentRef): map<string, seq<AgentRef>>
    decreases |ps|
  {
    if ps == [] then wl
    else
      var w := Enlisted(wl, ps[..|ps| - 1], a);
      var p := ps[|ps| - 1];
      w[p := (if p in w then w[p] else []) + [a]]
  }

  function Repeat(a: AgentRef, n: nat): (r: seq<AgentRef>)
    ensures |r| == n && forall i :: 0 <= i < n ==> r[i] == a
  {
    if n == 0 then [] else Repeat(a, n - 1) + [a]
  }

  /** One more platform, for the loop that builds the worklists. */
  lemma EnlistedStep(wl: map<string, seq<AgentRef>>, ps: seq<string>, a: AgentRef, i: nat)
    requires i < |ps|
    ensures var w := Enlisted(wl, ps[..i], a);
            Enlisted(wl, ps[..i + 1], a) == w[ps[i] := (if ps[i] in w then w[ps[i]] else []) + [a]]
  {
    assert ps[..i + 1][..i] == ps[..i];
  }

  /** Each worklist gains the agent once per occurrence of its platform, at
      its tail; a worklist is created exactly for a declared platform that
      had none. */
  lemma {:induction false} EnlistedSpec(wl: map<string, seq<AgentRef>>, ps: seq<string>, a: AgentRef, p: string)
    ensures var w := Enlisted(wl, ps, a);
            (p in w <==> p in wl || p in ps)
            && (p in w ==> w[p] == (if p in wl then wl[p] else []) + Repeat(a, multiset(ps)[p]))
    decreases |ps|
  {
    if ps != [] {
      var init := ps[..|ps| - 1];
      EnlistedSpec(wl, init, a, p);
      assert ps == init + [ps[|ps| - 1]];
    }
  }

  const RegisterTemplate: string := "An agent with id {0} has just connected supporting the platforms [{2}]"

  /** The message logged when an agent registers. */
  function RegisterMsg(se: Session): Msg {
    Make(NoSubject, SenderObj(se.id, ""), "S", Debug, RegisterTemplate, [Join(se.platforms, ", ")])
  }

  /** The id `conf` gives the agent ("" without a `conf`). */
  function ConfId(conf: Option<AgentConf>): string {
    if conf.Some? then conf.value.id else ""
  }

  /** The rest of the server's `register` handler once the agent has its
      id: `m` is logged, the agent is appended to the agents and to the
      worklist of each of its platforms and, with a `conf`, is `ready`.
      A missing `conf` makes the handler throw after the worklists are
      updated. */
  function AfterEnlistAgent(st: State, a: AgentRef, conf: Option<AgentConf>, m: Msg): (res: State)
    requires Core(st) && a in st.sessions
    ensures Core(res)
  {
    var se := st.sessions[a];
    var lg := AfterLog(st, m, None);
    var res := lg.(sessions := if conf.Some? then st.sessions[a := se.(status := "ready")] else st.sessions,
                   agents := st.agents + [a], platforms := Enlisted(st.platforms, se.platforms, a),
                   events := if conf.Some? then lg.events + [News("connected", "agent")] else lg.events);
    CoreFrom(lg, res);
    res
  }

  /** The server's `register` handler, after `onRegister`: the agent takes
      the id of `conf`, then the connection is logged and the agent
      enlisted. */
  function AfterRegisterHandler(st: State, a: AgentRef, conf: Option<AgentConf>): (res: State)
    requires Core(st) && a in st.sessions
    ensures Core(res)
  {
    var se := st.sessions[a].(id := ConfId(conf));
    var st1 := st.(sessions := st.sessions[a := se]);
    CoreFrom(st, st1);
    AfterEnlistAgent(st1, a, conf, RegisterMsg(se))
  }

  /** A `register` event: the agent's own handler runs first, then the
      server's. */
  function AfterRegister(st: State, a: AgentRef, conf: Option<AgentConf>): (res: State)
    requires Core(st) && a in st.sessions
    ensures Core(res)
  {
    var st0 := AfterOnRegister(st, a, conf);
    CoreFrom(st, st0);
    AfterRegisterHandler(st0, a, conf)
  }

  /** Enlisting keeps builds, ids and the queue, marks the agent `ready`
      when there is a `conf`, and enlists it under the platforms it holds,
      whatever message is logged. */
  lemma EnlistAgentEffect(st: State, a: AgentRef, conf: Option<AgentConf>, m: Msg)
    requires Core(st) && a in st.sessions
    ensures var res := AfterEnlistAgent(st, a, conf, m);
            var se := st.sessions[a];
            res.sessions.Keys == st.sessions.Keys
            && res.sessions[a] == (if conf.Some? then se.(status := "ready") else se)
            && (forall b :: b in st.sessions && b != a ==> res.sessions[b] == st.sessions[b])
            && res.agents == st.agents + [a]
            && res.platforms == Enlisted(st.platforms, se.platforms, a)
            && res.heap.Keys == st.heap.Keys && res.next == st.next && res.nextAgent == st.nextAgent
            && res.queue == st.queue && res.ids == st.ids && res.builds == st.builds
  {
    LogKeys(st, m, None);
  }

  /** The server's handler keeps builds, ids and the queue, sets the
      agent's id, and enlists it under the platforms it holds. */
  lemma RegisterHandlerEffect(st: State, a: AgentRef, conf: Option<AgentConf>)
    requires Core(st) && a in st.sessions
    ensures var res := AfterRegisterHandler(st, a, conf);
            var se := st.sessions[a];
            res.sessions.Keys == st.sessions.Keys
            && res.sessions[a] == se.(id := ConfId(conf), status := if conf.Some? then "ready" else se.status)
            && (forall b :: b in st.sessions && b != a ==> res.sessions[b] == st.sessions[b])
            && res.agents == st.agents + [a]
            && res.platforms == Enlisted(st.platforms, se.platforms, a)
            && res.heap.Keys == st.heap.Keys && res.next == st.next && res.nextAgent == st.nextAgent
            && res.queue == st.queue && res.ids == st.ids && res.builds == st.builds
  {
    var se := st.sessions[a].(id := ConfId(conf));
    var st1 := st.(sessions := st.sessions[a := se]);
    CoreFrom(st, st1);
    EnlistAgentEffect(st1, a, conf, RegisterMsg(se));
  }

  /** Registering appends the deduplicated declared platforms to the
      agent's, gives it the id of `conf`, and leaves it `ready` when there
      is a `conf`. */
  lemma RegisterEffect(st: State, a: AgentRef, conf: Option<AgentConf>)
    requires Core(st) && a in st.sessions
    ensures var res := AfterRegister(st, a, conf);
            a in res.sessions
            && res.sessions[a].platforms == st.sessions[a].platforms + Dedup(Declared(conf))
            && res.sessions[a].id == ConfId(conf)
            && res.sessions[a].busy == st.sessions[a].busy
            && res.sessions[a].status == (if conf.Some? then "ready" else "")
            && res.sessions[a].buildingPlatform == ""
  {
    var st0 := AfterOnRegister(st, a, conf);
    CoreFrom(st, st0);
    RegisterHandlerEffect(st0, a, conf);
  }

  /** Registering appends the agent to `agents` and to the worklist of
      every platform it holds, and leaves the builds, the queue and the
      other agents alone. */
  lemma RegisterKeeps(st: State, a: AgentRef, conf: Option<AgentConf>)
    requires Core(st) && a in st.sessions
    ensures var res := AfterRegister(st, a, conf);
            var ps := st.sessions[a].platforms + Dedup(Declared(conf));
            res.sessions.Keys == st.sessions.Keys
            && (forall b :: b in st.sessions && b != a ==> res.sessions[b] == st.sessions[b])
            && res.agents == st.agents + [a]
            && res.platforms == Enlisted(st.platforms, ps, a)
            && res.heap.Keys == st.heap.Keys && res.next == st.next && res.nextAgent == st.nextAgent
            && res.queue == st.queue && res.ids == st.ids && res.builds == st.builds
  {
    var st0 := AfterOnRegister(st, a, conf);
    CoreFrom(st, st0);
    RegisterHandlerEffect(st0, a, conf);
  }

  /** Registering keeps the server's invariant. */
  lemma RegisterConsistent(st: State, a: AgentRef, conf: Option<AgentConf>)
    requires Consistent(st) && a in st.sessions
    ensures Consistent(AfterRegister(st, a, conf))
  {
    RegisterEffect(st, a, conf);
    RegisterKeeps(st, a, conf);
    var res := AfterRegister(st, a, conf);
    EnlistConsistent(st, res, a, st.sessions[a].platforms + Dedup(Declared(conf)));
  }

  /** A state that differs from a consistent one only by an agent's own
      platforms and status and by that agent enlisted is consistent. */
  lemma EnlistConsistent(st: State, res: State, a: AgentRef, ps: seq<string>)
    requires Consistent(st) && Core(res) && a in st.sessions
    requires res.sessions.Keys == st.sessions.Keys && res.sessions[a].busy == st.sessions[a].busy
    requires forall b :: b in st.sessions && b != a ==> res.sessions[b] == st.sessions[b]
    requires res.agents == st.agents + [a] && res.platforms == Enlisted(st.platforms, ps, a)
    requires res.heap.Keys == st.heap.Keys && res.next == st.next && res.nextAgent == st.nextAgent
    requires res.queue == st.queue && res.builds == st.builds
    ensures Consistent(res)
  {
    forall p | p in res.platforms ensures forall b :: b in res.platforms[p] ==> b in res.sessions {
      WorklistMembers(st.platforms, ps, a, p);
    }
    forall b | b in res.sessions ensures b < res.nextAgent && BusyOk(res.heap, res.sessions[b]) {
      assert b in st.sessions && BusyOk(st.heap, st.sessions[b]);
    }
  }

  /** A worklist after enlisting holds the agents it held and the new one. */
  lemma WorklistMembers(wl: map<string, seq<AgentRef>>, ps: seq<string>, a: AgentRef, p: string)
    requires p in Enlisted(wl, ps, a)
    ensures forall b :: b in Enlisted(wl, ps, a)[p] ==> b == a || (p in wl && b in wl[p])
  {
    EnlistedSpec(wl, ps, a, p);
    var w := Enlisted(wl, ps, a)[p];
    var old_ := if p in wl then wl[p] else [];
    forall b | b in w ensures b == a || (p in wl && b in wl[p]) {
      var i :| 0 <= i < |w| && w[i] == b;
      if i >= |old_| {
        assert w[i] == Repeat(a, multiset(ps)[p])[i - |old_|];
      } else {
        assert w[i] == old_[i];
      }
    }
  }

  method Register(s: Server, a: AgentRef, conf: Option<AgentConf>)
    requires Core(s.St()) && a in s.sessions
    modifies s
    ensures s.St() == AfterRegister(old(s.St()), a, conf)
  {
    var declared := match conf
      case None => []
      case Some(c) => match c.platforms
        case SeparatedPlatforms(text) => Split(text, PlatformSeparators)
        case PlatformList(items) => items
        case NoPlatformList => [];
    var added := GetUnique(declared);
    var se := s.sessions[a];
    s.sessions := s.sessions[a := se.(platforms := se.platforms + added, status := "", buildingPlatform := "")];
    CoreFrom(old(s.St()), s.St());
    RegisterWithServer(s, a, conf);
  }

  /** The loop of the `register` handler that pushes the agent onto the
      worklist of each of its platforms. */
  method EnlistAll(platforms: map<string, seq<AgentRef>>, ps: seq<string>, a: AgentRef)
    returns (wl: map<string, seq<AgentRef>>)
    ensures wl == Enlisted(platforms, ps, a)
  {
    wl := platforms;
    var i := 0;
    while i < |ps|
      invariant 0 <= i <= |ps|
      invariant wl == Enlisted(platforms, ps[..i], a)
    {
      EnlistedStep(platforms, ps, a, i);
      var p := ps[i];
      wl := wl[p := (if p in wl then wl[p] else []) + [a]];
      i := i + 1;
    }
    assert ps[..|ps|] == ps;
  }

  /** The server's `register` handler. */
  method RegisterWithServer(s: Server, a: AgentRef, conf: Option<AgentConf>)
    requires Core(s.St()) && a in s.sessions
    modifies s
    ensures s.St() == AfterRegisterHandler(old(s.St()), a, conf)
  {
    var se := s.sessions[a].(id := if conf.Some? then conf.value.id else "");
    s.sessions := s.sessions[a := se];
    CoreFrom(old(s.St()), s.St());
    EnlistAgent(s, a, conf, RegisterMsg(se));
  }

  /** Logging the connection and enlisting the agent. */
  method EnlistAgent(s: Server, a: AgentRef, conf: Option<AgentConf>, m: Msg)
    requires Core(s.St()) && a in s.sessions
    modifies s
    ensures s.St() == AfterEnlistAgent(old(s.St()), a, conf, m)
  {
    s.Log(m, None);
    var se := s.sessions[a];
    var wl := EnlistAll(s.platforms, se.platforms, a);
    s.agents, s.platforms := s.agents + [a], wl;
    if conf.Some? {
      s.sessions := s.sessions[a := se.(status := "ready")];
      s.events := s.events + [News("connected", "agent")];
    }
  }

  // ---------------------------------------------------------------------
  // updateStatus
  // ---------------------------------------------------------------------

  /** `agent.updateStatus(newStatus, platform)` ("" for no platform). */
  function AfterUpdateAgentStatus(st: State, a: AgentRef, status: string, platform: string): (res: State)
    requires a in st.sessions
    ensures a in res.sessions && res.sessions[a].status == status && res.sessions[a].buildingPlatform == platform
    ensures res.sessions[a].busy == st.sessions[a].busy && res.sessions[a].platforms == st.sessions[a].platforms
    ensures res.sessions.Keys == st.sessions.Keys
    ensures forall b :: b in st.sessions && b != a ==> res.sessions[b] == st.sessions[b]
    ensures res.events == st.events + [News("agent-status", "agent")]
    ensures res == st.(sessions := res.sessions, events := res.events)
  {
    st.(sessions := st.sessions[a := st.sessions[a].(status := status, buildingPlatform := platform)],
        events := st.events + [News("agent-status", "agent")])
  }

  method UpdateAgentStatus(s: Server, a: AgentRef, status: string, platform: string)
    requires a in s.sessions
    modifies s
    ensures s.St() == AfterUpdateAgentStatus(old(s.St()), a, status, platform)
  {
    s.sessions := s.sessions[a := s.sessions[a].(status := status, buildingPlatform := platform)];
    s.events := s.events + [News("agent-status", "agent")];
  }

  // ---------------------------------------------------------------------
  // Helpers on the state
  // ---------------------------------------------------------------------

  function SetBusy(st: State, a: AgentRef, b: Option<BuildRef>): State
    requires a in st.sessions
  {
    st.(sessions := st.sessions[a := st.sessions[a].(busy := b)])
  }

  /** The state with the build at `r` replaced by one with the same links. */
  function WithBuild(st: State, r: BuildRef, b: Build): (res: State)
    requires Core(st) && r in st.heap
    requires b.master == st.heap[r].master && b.platforms == st.heap[r].platforms
    ensures Core(res) && res.heap.Keys == st.heap.Keys
    ensures res == st.(heap := res.heap)
  {
    WfAfterWrite(st.heap, r, b);
    st.(heap := st.heap[r := b])
  }

  method SetBuild(s: Server, r: BuildRef, b: Build)
    requires Core(s.St()) && r in s.heap
    requires b.master == s.heap[r].master && b.platforms == s.heap[r].platforms
    modifies s
    ensures s.St() == WithBuild(old(s.St()), r, b)
  {
    s.heap := s.heap[r := b];
  }

  /** The sender of the messages an agent logs: the agent object, which has
      no `name`. */
  function AgentSender(se: Session): Sender {
    SenderObj(se.id, "")
  }

  /** `agent.log(build, client, priority, message, args...)`, which logs a
      message from the agent about `build` and forwards it to the build's
      client. */
  function AfterAgentLog(st: State, a: AgentRef, r: BuildRef, priority: int, template: string, args: seq<string>): (res: State)
    requires Core(st) && a in st.sessions && r in st.heap
    ensures Core(res) && res.heap.Keys == st.heap.Keys
    ensures res == st.(heap := res.heap, logs := res.logs, events := res.events)
  {
    var m := Make(SubjectOf(st.heap[r]), AgentSender(st.sessions[a]), "A", priority, template, args);
    LogKeys(st, m, ClientOf(st.heap[r]));
    AfterLog(st, m, ClientOf(st.heap[r]))
  }

  method AgentLog(s: Server, a: AgentRef, r: BuildRef, priority: int, template: string, args: seq<string>)
    requires Core(s.St()) && a in s.sessions && r in s.heap
    modifies s
    ensures s.St() == AfterAgentLog(old(s.St()), a, r, priority, template, args)
  {
    s.Log(Make(SubjectOf(s.heap[r]), AgentSender(s.sessions[a]), "A", priority, template, args), ClientOf(s.heap[r]));
  }

  // ---------------------------------------------------------------------
  // startBuild
  // ---------------------------------------------------------------------

  const DownloadingTemplate: string := "Downloading {2} file{3} from the server..."

  /** The arguments of the message that counts the files to send. */
  function FileCount(n: nat): seq<string> {
    [NatText(n), if n == 1 then "" else "s"]
  }

  /** The synchronous part of `startBuild(build)`: the agent becomes busy
      with the build and `building`, the build `uploading` and assigned to
      the agent, and the number of files to send is logged. */
  function AfterBeginBuild(st: State, cfg: Config, a: AgentRef, r: BuildRef): (res: State)
    requires Core(st) && a in st.sessions && r in st.heap
    ensures Core(res) && res.heap.Keys == st.heap.Keys && res.sessions.Keys == st.sessions.Keys
  {
    var st1 := SetBusy(st, a, Some(r));
    var st2 := AfterUpdateAgentStatus(st1, a, "building", PlatformText(st.heap[r].conf.platform));
    CoreFrom(st, st2);
    var st3 := AfterUpdateBuildStatus(st2, cfg, Obj(r), "uploading", false);
    var st4 := WithBuild(st3, r, st3.heap[r].(agent := Some(a)));
    AfterAgentLog(st4, a, r, Debug, DownloadingTemplate, FileCount(|st4.heap[r].files|))
  }

  method BeginBuild(s: Server, cfg: Config, a: AgentRef, r: BuildRef)
    requires Core(s.St()) && a in s.sessions && r in s.heap
    modifies s
    ensures s.St() == AfterBeginBuild(old(s.St()), cfg, a, r)
  {
    var platform := PlatformText(s.heap[r].conf.platform);
    s.sessions := s.sessions[a := s.sessions[a].(busy := Some(r))];
    UpdateAgentStatus(s, a, "building", platform);
    CoreFrom(old(s.St()), s.St());
    s.UpdateBuildStatus(cfg, Obj(r), "uploading", false);
    SetBuild(s, r, s.heap[r].(agent := Some(a)));
    var n := |s.heap[r].files|;
    AgentLog(s, a, r, Debug, DownloadingTemplate, FileCount(n));
  }

  /** Setting a status other than `deleted` on a build object sets it and
      changes the build's log only, and leaves the queue alone. */
  lemma StatusStep(st: State, cfg: Config, r: BuildRef, status: string)
    requires Core(st) && r in st.heap && status != "deleted"
    ensures var res := AfterUpdateBuildStatus(st, cfg, Obj(r), status, false);
            r in res.heap && res.heap[r].conf.status == status
            && SameButStatus(st.heap[r], res.heap[r]) && res.queue == st.queue
  {
    ObjFound(st, cfg, r, status, false);
    FoundStatus(st, cfg, r, status, false);
    FoundKeeps(st, cfg, r, status, false, r);
  }

  /** An agent's log entry changes the builds' logs only. */
  lemma AgentLogKeeps(st: State, a: AgentRef, r: BuildRef, priority: int, template: string, args: seq<string>, q: BuildRef)
    requires Core(st) && a in st.sessions && r in st.heap && q in st.heap
    ensures var res := AfterAgentLog(st, a, r, priority, template, args);
            q in res.heap && res.heap[q] == st.heap[q].(conf := st.heap[q].conf.(logs := res.heap[q].conf.logs))
  {
    var m := Make(SubjectOf(st.heap[r]), AgentSender(st.sessions[a]), "A", priority, template, args);
    LogKeeps(st, m, ClientOf(st.heap[r]), q);
  }

  /** An agent log only appends events. */
  lemma AgentLogAppends(st: State, a: AgentRef, r: BuildRef, priority: int, template: string, args: seq<string>)
    requires Core(st) && a in st.sessions && r in st.heap
    ensures var res := AfterAgentLog(st, a, r, priority, template, args);
            |st.events| <= |res.events| && res.events[..|st.events|] == st.events
  {
    var m := Make(SubjectOf(st.heap[r]), AgentSender(st.sessions[a]), "A", priority, template, args);
    LogForwarded(st, m, ClientOf(st.heap[r]));
  }

  /** `startBuild` sets `busy`, assigns the build to the agent and marks
      it `uploading`, keeping its files. */
  lemma BeginBuildMarks(st: State, cfg: Config, a: AgentRef, r: BuildRef)
    requires Core(st) && a in st.sessions && r in st.heap
    ensures var res := AfterBeginBuild(st, cfg, a, r);
            res.sessions[a].busy == Some(r) && res.sessions[a].status == "building"
            && res.sessions[a].buildingPlatform == PlatformText(st.heap[r].conf.platform)
            && res.heap[r].agent == Some(a) && res.heap[r].conf.status == "uploading"
            && res.heap[r].files == st.heap[r].files
            && res.queue == st.queue && res.agents == st.agents && res.platforms == st.platforms
  {
    var st1 := SetBusy(st, a, Some(r));
    var st2 := AfterUpdateAgentStatus(st1, a, "building", PlatformText(st.heap[r].conf.platform));
    CoreFrom(st, st2);
    assert "uploading" != "deleted";
    StatusStep(st2, cfg, r, "uploading");
    var st3 := AfterUpdateBuildStatus(st2, cfg, Obj(r), "uploading", false);
    var st4 := WithBuild(st3, r, st3.heap[r].(agent := Some(a)));
    AgentLogKeeps(st4, a, r, Debug, DownloadingTemplate, FileCount(|st4.heap[r].files|), r);
  }

  // ---------------------------------------------------------------------
  // startBuild, once the input files are read
  // ---------------------------------------------------------------------

  /** The files with each path cut to its basename, as the agent is sent
      them. */
  function Basenamed(fs: seq<FileEntry>): seq<FileEntry> {
    seq(|fs|, i requires 0 <= i < |fs| => fs[i].(file := Basename(fs[i].file)))
  }

  /** `files.map(file => file.file)` */
  function Paths(fs: seq<FileEntry>): seq<string> {
    seq(|fs|, i requires 0 <= i < |fs| => fs[i].file)
  }

  /** The files with their paths set back from `ps`, index by index. */
  function WithPaths(fs: seq<FileEntry>, ps: seq<string>): seq<FileEntry>
    requires |ps| == |fs|
  {
    seq(|fs|, i requires 0 <= i < |fs| => fs[i].(file := ps[i]))
  }

  /** Setting back the saved paths undoes cutting them to basenames. */
  lemma RestoreUndoesBasenames(fs: seq<FileEntry>)
    ensures WithPaths(Basenamed(fs), Paths(fs)) == fs
  {
    assert forall i :: 0 <= i < |fs| ==> WithPaths(Basenamed(fs), Paths(fs))[i] == fs[i];
  }

  /** The total length of the file contents. */
  function ContentSize(fs: seq<FileEntry>): nat
    decreases |fs|
  {
    if fs == [] then 0
    else
      var f := fs[|fs| - 1];
      ContentSize(fs[..|fs| - 1]) + if f.content.Some? then |f.content.value| else 0
  }

  /** The loop that adds up the content sizes. */
  method SumSizes(fs: seq<FileEntry>) returns (size: nat)
    ensures size == ContentSize(fs)
  {
    size := 0;
    var i := 0;
    while i < |fs|
      invariant 0 <= i <= |fs| && size == ContentSize(fs[..i])
    {
      assert fs[..i + 1][..i] == fs[..i];
      size := size + if fs[i].content.Some? then |fs[i].content.value| else 0;
      i := i + 1;
    }
    assert fs[..|fs|] == fs;
  }

  /** The loop that cuts every path to its basename. */
  method BasenameAll(fs: seq<FileEntry>) returns (out: seq<FileEntry>)
    ensures out == Basenamed(fs)
  {
    out := [];
    var i := 0;
    while i < |fs|
      invariant 0 <= i <= |fs| && |out| == i
      invariant forall k :: 0 <= k < i ==> out[k] == fs[k].(file := Basename(fs[k].file))
    {
      out := out + [fs[i].(file := Basename(fs[i].file))];
      i := i + 1;
    }
  }

  /** The `finally` loop that restores the saved paths. */
  method RestorePaths(fs: seq<FileEntry>, ps: seq<string>) returns (out: seq<FileEntry>)
    requires |ps| == |fs|
    ensures out == WithPaths(fs, ps)
  {
    out := [];
    var i := 0;
    while i < |fs|
      invariant 0 <= i <= |fs| && |out| == i
      invariant forall k :: 0 <= k < i ==> out[k] == fs[k].(file := ps[k])
    {
      out := out + [fs[i].(file := ps[i])];
      i := i + 1;
    }
  }

  /** The state with the files of the build at `r` replaced. */
  function WithFiles(st: State, r: BuildRef, fs: seq<FileEntry>): (res: State)
    requires Core(st) && r in st.heap
    ensures Core(res) && res.heap.Keys == st.heap.Keys
  {
    WithBuild(st, r, st.heap[r].(files := fs))
  }

  method SetFiles(s: Server, r: BuildRef, fs: seq<FileEntry>)
    requires Core(s.St()) && r in s.heap
    modifies s
    ensures s.St() == WithFiles(old(s.St()), r, fs)
  {
    SetBuild(s, r, s.heap[r].(files := fs));
  }

  const ReadLocation: string := "[AGENT.startBuild] the cordova build server\n"
  const ReadFailedTemplate: string := "error while reading input files on the server for sending them to the agent worker: \n{2}"
  const SendingTemplate: string := "sending build to agent {2} on platform {3}...{4}"

  /** The options of the serialisation sent to the agent. */
  const SendOptions := Options(true, false, false, true)

  /** The read failed: the build fails, and the agent is freed and
      `ready`. */
  function AfterReadFailed(st: State, cfg: Config, a: AgentRef, r: BuildRef, err: string): (res: State)
    requires Core(st) && a in st.sessions && r in st.heap
    ensures Core(res) && res.heap.Keys == st.heap.Keys
  {
    var st1 := AfterAgentLog(st, a, r, Error, ReadFailedTemplate, [err]);
    var st2 := AfterUpdateBuildStatus(st1, cfg, Obj(r), "failed", false);
    var st3 := WithBuild(st2, r, st2.heap[r].(agent := None));
    var st4 := SetBusy(st3, a, None);
    CoreFrom(st3, st4);
    AfterUpdateAgentStatus(st4, a, "ready", "")
  }

  /** The read succeeded: the build is sent with basenames for paths and
      the contents, then the paths are set back. */
  function AfterSend(st: State, a: AgentRef, r: BuildRef): (res: State)
    requires Core(st) && a in st.sessions && r in st.heap
    ensures Core(res) && res.heap.Keys == st.heap.Keys
  {
    var fs := st.heap[r].files;
    var st1 := WithFiles(st, r, Basenamed(fs));
    var args := [st.sessions[a].id, PlatformText(st.heap[r].conf.platform), NatText(ContentSize(fs))];
    var st2 := AfterAgentLog(st1, a, r, Info, SendingTemplate, args);
    var st3 := st2.(events := st2.events + [Emit(AgentPeer(a), "build", WireOf(Serialize(st2.heap, r, SendOptions, NoOptions)))]);
    CoreFrom(st2, st3);
    WithFiles(st3, r, WithPaths(st3.heap[r].files, Paths(fs)))
  }

  /** The callback of `readFiles` in `startBuild`: the contents read are
      on the build's files, then its files are freed whatever happened. */
  function AfterFilesRead(st: State, cfg: Config, a: AgentRef, r: BuildRef, disk: ServerUtils.Disk): (res: State)
    requires Core(st) && a in st.sessions && r in st.heap
    ensures Core(res) && res.heap.Keys == st.heap.Keys
  {
    var files := st.heap[r].files;
    var st1 := WithFiles(st, r, ServerUtils.ReadAll(files, disk));
    var e := ServerUtils.FirstReadError(files, disk);
    var st2 := if e.Some? then AfterReadFailed(st1, cfg, a, r, Format(ServerUtils.ReadFilesFailed, [ReadLocation, e.value]))
               else AfterSend(st1, a, r);
    WithFiles(st2, r, ServerUtils.Freed(st2.heap[r].files))
  }

  method ReadFailed(s: Server, cfg: Config, a: AgentRef, r: BuildRef, err: string)
    requires Core(s.St()) && a in s.sessions && r in s.heap
    modifies s
    ensures s.St() == AfterReadFailed(old(s.St()), cfg, a, r, err)
  {
    AgentLog(s, a, r, Error, ReadFailedTemplate, [err]);
    s.UpdateBuildStatus(cfg, Obj(r), "failed", false);
    SetBuild(s, r, s.heap[r].(agent := None));
    ghost var st3 := s.St();
    s.sessions := s.sessions[a := s.sessions[a].(busy := None)];
    CoreFrom(st3, s.St());
    UpdateAgentStatus(s, a, "ready", "");
  }

  method Send(s: Server, a: AgentRef, r: BuildRef)
    requires Core(s.St()) && a in s.sessions && r in s.heap
    modifies s
    ensures s.St() == AfterSend(old(s.St()), a, r)
  {
    var files := s.heap[r].files;
    var orig := Paths(files);
    var size := SumSizes(files);
    var cut := BasenameAll(files);
    SetFiles(s, r, cut);
    AgentLog(s, a, r, Info, SendingTemplate, [s.sessions[a].id, PlatformText(s.heap[r].conf.platform), NatText(size)]);
    ghost var st2 := s.St();
    s.events := s.events + [Emit(AgentPeer(a), "build", WireOf(Serialize(s.heap, r, SendOptions, NoOptions)))];
    CoreFrom(st2, s.St());
    var back := RestorePaths(s.heap[r].files, orig);
    SetFiles(s, r, back);
  }

  method FilesRead(s: Server, cfg: Config, a: AgentRef, r: BuildRef, disk: ServerUtils.Disk)
    requires Core(s.St()) && a in s.sessions && r in s.heap
    modifies s
    ensures s.St() == AfterFilesRead(old(s.St()), cfg, a, r, disk)
  {
    ghost var st0 := s.St();
    var files := s.heap[r].files;
    var read, err := ServerUtils.ReadFiles(files, ReadLocation, disk);
    assert read == ServerUtils.ReadAll(files, disk);
    SetFiles(s, r, read);
    ghost var st1 := s.St();
    ghost var e := ServerUtils.FirstReadError(files, disk);
    if err.Some? {
      ReadFailed(s, cfg, a, r, err.value);
      assert s.St() == AfterReadFailed(st1, cfg, a, r, Format(ServerUtils.ReadFilesFailed, [ReadLocation, e.value]));
    } else {
      Send(s, a, r);
      assert s.St() == AfterSend(st1, a, r);
    }
    var freed := ServerUtils.FreeMemFiles(s.heap[r].files);
    SetFiles(s, r, freed);
  }

  /** A failed read leaves the build's files alone and fails it, and the
      agent is freed and `ready`. */
  lemma ReadFailedEffect(st: State, cfg: Config, a: AgentRef, r: BuildRef, err: string)
    requires Core(st) && a in st.sessions && r in st.heap
    ensures var res := AfterReadFailed(st, cfg, a, r, err);
            res.heap[r].files == st.heap[r].files && res.heap[r].conf.status == "failed"
            && res.heap[r].agent == None && a in res.sessions && res.sessions[a].busy == None
            && res.sessions[a].status == "ready" && res.queue == st.queue
  {
    var st1 := AfterAgentLog(st, a, r, Error, ReadFailedTemplate, [err]);
    AgentLogKeeps(st, a, r, Error, ReadFailedTemplate, [err], r);
    assert "failed" != "deleted";
    StatusStep(st1, cfg, r, "failed");
  }

  /** Sending leaves the build's files as they were, after the last event
      has sent the agent the files with basenames for paths and their
      contents. */
  lemma SendEffect(st: State, a: AgentRef, r: BuildRef)
    requires Core(st) && a in st.sessions && r in st.heap
    ensures var res := AfterSend(st, a, r);
            var ev := res.events;
            res.heap[r].files == st.heap[r].files && res.sessions == st.sessions && res.queue == st.queue
            && |ev| > 0 && ev[|ev| - 1].Emit? && ev[|ev| - 1].to == AgentPeer(a) && ev[|ev| - 1].name == "build"
            && ev[|ev| - 1].payload.WireOf?
            && ev[|ev| - 1].payload.wire.files == Some(WireInputs(Basenamed(st.heap[r].files), true))
  {
    var fs := st.heap[r].files;
    var st1 := WithFiles(st, r, Basenamed(fs));
    var args := [st.sessions[a].id, PlatformText(st.heap[r].conf.platform), NatText(ContentSize(fs))];
    AgentLogKeeps(st1, a, r, Info, SendingTemplate, args, r);
    RestoreUndoesBasenames(fs);
  }

  /** After the read, the build's files have their paths and no content
      left, whether the read failed or the build was sent. */
  lemma FilesReadFrees(st: State, cfg: Config, a: AgentRef, r: BuildRef, disk: ServerUtils.Disk)
    requires Core(st) && a in st.sessions && r in st.heap
    ensures var res := AfterFilesRead(st, cfg, a, r, disk);
            res.heap[r].files == ServerUtils.Freed(ServerUtils.ReadAll(st.heap[r].files, disk))
            && Paths(res.heap[r].files) == Paths(st.heap[r].files)
  {
    if ServerUtils.FirstReadError(st.heap[r].files, disk).Some? {
      FreedAfterError(st, cfg, a, r, disk);
    } else {
      FreedAfterSend(st, cfg, a, r, disk);
    }
    FreedReadPaths(st.heap[r].files, disk);
  }

  lemma FreedAfterError(st: State, cfg: Config, a: AgentRef, r: BuildRef, disk: ServerUtils.Disk)
    requires Core(st) && a in st.sessions && r in st.heap
    requires ServerUtils.FirstReadError(st.heap[r].files, disk).Some?
    ensures AfterFilesRead(st, cfg, a, r, disk).heap[r].files == ServerUtils.Freed(ServerUtils.ReadAll(st.heap[r].files, disk))
  {
    var files := st.heap[r].files;
    var st1 := WithFiles(st, r, ServerUtils.ReadAll(files, disk));
    var e := ServerUtils.FirstReadError(files, disk);
    ReadFailedEffect(st1, cfg, a, r, Format(ServerUtils.ReadFilesFailed, [ReadLocation, e.value]));
  }

  lemma FreedAfterSend(st: State, cfg: Config, a: AgentRef, r: BuildRef, disk: ServerUtils.Disk)
    requires Core(st) && a in st.sessions && r in st.heap
    requires ServerUtils.FirstReadError(st.heap[r].files, disk).None?
    ensures AfterFilesRead(st, cfg, a, r, disk).heap[r].files == ServerUtils.Freed(ServerUtils.ReadAll(st.heap[r].files, disk))
  {
    SendEffect(WithFiles(st, r, ServerUtils.ReadAll(st.heap[r].files, disk)), a, r);
  }

  /** Reading and freeing keep the paths. */
  lemma FreedReadPaths(fs: seq<FileEntry>, disk: ServerUtils.Disk)
    ensures Paths(ServerUtils.Freed(ServerUtils.ReadAll(fs, disk))) == Paths(fs)
  {
    var out := ServerUtils.Freed(ServerUtils.ReadAll(fs, disk));
    assert forall i :: 0 <= i < |fs| ==> Paths(out)[i] == Paths(fs)[i];
  }

  /** When a file is missing the build fails and the agent is freed. */
  lemma ReadFailedFrees(st: State, cfg: Config, a: AgentRef, r: BuildRef, disk: ServerUtils.Disk)
    requires Core(st) && a in st.sessions && r in st.heap
    requires exists i :: 0 <= i < |st.heap[r].files| && st.heap[r].files[i].file !in disk
    ensures var res := AfterFilesRead(st, cfg, a, r, disk);
            res.heap[r].conf.status == "failed" && res.heap[r].agent == None
            && a in res.sessions && res.sessions[a].busy == None && res.sessions[a].status == "ready"
  {
    var files := st.heap[r].files;
    ServerUtils.ReadErrorIff(files, disk);
    var st1 := WithFiles(st, r, ServerUtils.ReadAll(files, disk));
    var e := ServerUtils.FirstReadError(files, disk);
    ReadFailedEffect(st1, cfg, a, r, Format(ServerUtils.ReadFilesFailed, [ReadLocation, e.value]));
  }

  /** When every file is on disk the agent is sent the files, with
      basenames for paths and their base64 contents, and stays busy. */
  lemma SentWhenRead(st: State, cfg: Config, a: AgentRef, r: BuildRef, disk: ServerUtils.Disk)
    requires Core(st) && a in st.sessions && r in st.heap
    requires forall i :: 0 <= i < |st.heap[r].files| ==> st.heap[r].files[i].file in disk
    ensures var res := AfterFilesRead(st, cfg, a, r, disk);
            var ev := res.events;
            res.sessions == st.sessions
            && |ev| > 0 && ev[|ev| - 1].Emit? && ev[|ev| - 1].to == AgentPeer(a)
            && ev[|ev| - 1].name == "build" && ev[|ev| - 1].payload.WireOf?
            && ev[|ev| - 1].payload.wire.files
               == Some(WireInputs(Basenamed(ServerUtils.ReadAll(st.heap[r].files, disk)), true))
  {
    var files := st.heap[r].files;
    ServerUtils.ReadErrorIff(files, disk);
    var st1 := WithFiles(st, r, ServerUtils.ReadAll(files, disk));
    SendEffect(st1, a, r);
  }
}
