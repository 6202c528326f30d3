/** The standalone download server (`server/Server.js`): its registry of
    builds, its queue, which dispatches at most one build per tick, and the
    decisions behind a release download: which platform the request is
    for (`detectPlatform`) and which build answers it
    (`parseBuildRequest`).

    Build objects live in the heap of `Builds`, as in the coordinator. The
    `builds` array of the source doubles as a list and as an id index
    (`this.builds[build.id] = build`); the two roles are the fields
    `builds` and `byId`. The agents of this server are `AgentRef`s, and
    `busy` is the set of those that have a build. `started` records the
    calls of `agent.startBuild(build)`, in order. */
module LegacyServer {
  import opened Wrappers
  import opened Strings
  import opened Builds
  import BrowserDetect
  import Scheduler

  const Autodetect := "autodetect"
  const Success := "success"

  // ---------------------------------------------------------------------
  // Worklists and the queue
  // ---------------------------------------------------------------------

  /** The worklist `server.platforms[platform]` of a platform; a platform
      no agent registered has none. */
  function Worklist(platforms: map<string, seq<AgentRef>>, p: PlatformConf): seq<AgentRef> {
    var k := Scheduler.WorklistKey(p);
    if k in platforms then platforms[k] else []
  }

  /** The position of the first agent of `agents` that is not busy, or -1. */
  function FirstIdle(agents: seq<AgentRef>, busy: set<AgentRef>): (i: int)
    ensures -1 <= i < |agents|
    ensures i >= 0 ==> agents[i] !in busy && forall k :: 0 <= k < i ==> agents[k] in busy
    ensures i == -1 <==> forall k :: 0 <= k < |agents| ==> agents[k] in busy
  {
    if agents == [] then -1
    else if agents[0] !in busy then 0
    else
      var j := FirstIdle(agents[1..], busy);
      assert forall k :: 1 <= k < |agents| ==> agents[k] == agents[1..][k - 1];
      if j == -1 then -1 else j + 1
  }

  /** The agent one tick gives the head of the queue, if any. */
  function Chosen(h: Heap, queue: seq<BuildRef>, platforms: map<string, seq<AgentRef>>, busy: set<AgentRef>): Option<AgentRef>
    requires forall r :: r in queue ==> r in h
  {
    if queue == [] then None
    else
      var agents := Worklist(platforms, h[queue[0]].conf.platform);
      var i := FirstIdle(agents, busy);
      if i < 0 then None else Some(agents[i])
  }

  /** The queue after one tick: the head is taken off and, when no agent
      took it, put back at the tail. */
  function TickQueue(h: Heap, queue: seq<BuildRef>, platforms: map<string, seq<AgentRef>>, busy: set<AgentRef>): seq<BuildRef>
    requires forall r :: r in queue ==> r in h
  {
    if queue == [] then []
    else if Chosen(h, queue, platforms, busy).Some? then queue[1..]
    else queue[1..] + [queue[0]]
  }

  /** The `startBuild` calls after one tick. */
  function TickStarted(h: Heap, queue: seq<BuildRef>, platforms: map<string, seq<AgentRef>>, busy: set<AgentRef>,
                       started: seq<(AgentRef, BuildRef)>): seq<(AgentRef, BuildRef)>
    requires forall r :: r in queue ==> r in h
  {
    var a := Chosen(h, queue, platforms, busy);
    if a.Some? then started + [(a.value, queue[0])] else started
  }

  /** A tick starts at most one build, and only the head of the queue, on
      an idle agent registered for the build's platform; every agent ahead
      of it in the worklist is busy. */
  lemma TickDispatchesOnce(h: Heap, queue: seq<BuildRef>, platforms: map<string, seq<AgentRef>>, busy: set<AgentRef>,
                           started: seq<(AgentRef, BuildRef)>)
    requires forall r :: r in queue ==> r in h
    ensures var s := TickStarted(h, queue, platforms, busy, started);
            (s == started || |s| == |started| + 1) && s[..|started|] == started
    ensures var s := TickStarted(h, queue, platforms, busy, started);
            |s| == |started| + 1 ==>
              var agents := Worklist(platforms, h[queue[0]].conf.platform);
              s[|started|].1 == queue[0] && s[|started|].0 !in busy && s[|started|].0 in agents
              && forall k :: 0 <= k < |agents| && agents[k] == s[|started|].0 ==> exists j :: 0 <= j <= k && agents[j] !in busy
  {
    var a := Chosen(h, queue, platforms, busy);
    var s := TickStarted(h, queue, platforms, busy, started);
    if a.Some? {
      var agents := Worklist(platforms, h[queue[0]].conf.platform);
      var i := FirstIdle(agents, busy);
      assert s[|started|] == (agents[i], queue[0]);
      forall k | 0 <= k < |agents| && agents[k] == agents[i] ensures exists j :: 0 <= j <= k && agents[j] !in busy {
        if k < i {
          assert false;
        } else {
          assert 0 <= i <= k && agents[i] !in busy;
        }
      }
    }
  }

  /** A tick loses no build: a dispatched build leaves the queue and every
      other build keeps its place; one that found no idle agent moves from
      the head to the tail. */
  lemma TickKeepsBuilds(h: Heap, queue: seq<BuildRef>, platforms: map<string, seq<AgentRef>>, busy: set<AgentRef>)
    requires forall r :: r in queue ==> r in h
    requires queue != []
    ensures var q := TickQueue(h, queue, platforms, busy);
            Chosen(h, queue, platforms, busy).Some? ==> q == queue[1..] && multiset(q) + multiset{queue[0]} == multiset(queue)
    ensures var q := TickQueue(h, queue, platforms, busy);
            Chosen(h, queue, platforms, busy).None? ==> q[|q| - 1] == queue[0] && q[..|q| - 1] == queue[1..] && multiset(q) == multiset(queue)
  {
    assert queue == [queue[0]] + queue[1..];
  }

  /** With no idle agent for any queued build, ticks only rotate the queue:
      after as many ticks as there are builds it is back as it was. */
  lemma {:induction false} IdleTicksRotate(h: Heap, queue: seq<BuildRef>, platforms: map<string, seq<AgentRef>>,
                                           busy: set<AgentRef>, n: nat)
    requires forall r :: r in queue ==> r in h
    requires forall r :: r in queue ==> forall a :: a in Worklist(platforms, h[r].conf.platform) ==> a in busy
    requires n <= |queue|
    ensures Ticks(h, queue, platforms, busy, n) == queue[n..] + queue[..n]
  {
    if n > 0 {
      IdleTicksRotate(h, queue, platforms, busy, n - 1);
      var q := queue[n - 1..] + queue[..n - 1];
      assert q[0] == queue[n - 1];
      IdleTick(h, q, platforms, busy);
      RotateStep(queue, n);
    }
  }

  /** A build none of whose agents is idle goes from the head to the tail. */
  lemma IdleTick(h: Heap, q: seq<BuildRef>, platforms: map<string, seq<AgentRef>>, busy: set<AgentRef>)
    requires forall r :: r in q ==> r in h
    requires q != [] && forall a :: a in Worklist(platforms, h[q[0]].conf.platform) ==> a in busy
    ensures TickQueue(h, q, platforms, busy) == q[1..] + [q[0]]
  {
    var agents := Worklist(platforms, h[q[0]].conf.platform);
    assert forall k :: 0 <= k < |agents| ==> agents[k] in busy;
  }

  lemma RotateStep(queue: seq<BuildRef>, n: nat)
    requires 0 < n <= |queue|
    ensures var q := queue[n - 1..] + queue[..n - 1];
            q[1..] + [q[0]] == queue[n..] + queue[..n]
  {
    var q := queue[n - 1..] + queue[..n - 1];
    assert q[1..] == queue[n..] + queue[..n - 1];
    assert queue[..n] == queue[..n - 1] + [queue[n - 1]];
  }

  /** `n` ticks of a queue, with the agents and their load unchanged. */
  function Ticks(h: Heap, queue: seq<BuildRef>, platforms: map<string, seq<AgentRef>>, busy: set<AgentRef>, n: nat): (q: seq<BuildRef>)
    requires forall r :: r in queue ==> r in h
    ensures forall r :: r in q ==> r in queue
  {
    if n == 0 then queue
    else
      var q := Ticks(h, queue, platforms, busy, n - 1);
      var q' := TickQueue(h, q, platforms, busy);
      assert q != [] ==> q == [q[0]] + q[1..];
      q'
  }

  // ---------------------------------------------------------------------
  // registerBuild
  // ---------------------------------------------------------------------

  /** The id index after `this.builds[c.id] = c` for each child in turn. */
  function Indexed(h: Heap, byId: map<string, BuildRef>, cs: seq<BuildRef>): (m: map<string, BuildRef>)
    requires forall c :: c in cs ==> c in h
  {
    if cs == [] then byId
    else Indexed(h, byId, cs[..|cs| - 1])[h[cs[|cs| - 1]].id := cs[|cs| - 1]]
  }

  /** The position of the last child with id `id`, or -1. */
  function LastWith(h: Heap, cs: seq<BuildRef>, id: string): (j: int)
    requires forall c :: c in cs ==> c in h
    ensures -1 <= j < |cs|
    ensures j >= 0 ==> h[cs[j]].id == id && forall k :: j < k < |cs| ==> h[cs[k]].id != id
    ensures j == -1 ==> forall k :: 0 <= k < |cs| ==> h[cs[k]].id != id
  {
    if cs == [] then -1
    else if h[cs[|cs| - 1]].id == id then |cs| - 1
    else
      var init := cs[..|cs| - 1];
      assert forall k :: 0 <= k < |init| ==> init[k] == cs[k];
      LastWith(h, init, id)
  }

  /** After indexing, the id of a child names the last child with that id,
      and every other id keeps what it named before. */
  lemma {:induction false} IndexedAt(h: Heap, byId: map<string, BuildRef>, cs: seq<BuildRef>, id: string)
    requires forall c :: c in cs ==> c in h
    ensures LastWith(h, cs, id) >= 0 ==>
              id in Indexed(h, byId, cs) && Indexed(h, byId, cs)[id] == cs[LastWith(h, cs, id)]
    ensures LastWith(h, cs, id) == -1 ==>
              (id in Indexed(h, byId, cs) <==> id in byId) && (id in byId ==> Indexed(h, byId, cs)[id] == byId[id])
  {
    if cs != [] {
      var init := cs[..|cs| - 1];
      assert forall c :: c in init ==> c in cs;
      IndexedAt(h, byId, init, id);
      if h[cs[|cs| - 1]].id != id {
        assert LastWith(h, cs, id) == LastWith(h, init, id);
        assert LastWith(h, init, id) >= 0 ==> cs[LastWith(h, init, id)] == init[LastWith(h, init, id)];
      }
    }
  }

  /** With distinct ids, every child is found under its own id. */
  lemma ChildrenFindable(h: Heap, byId: map<string, BuildRef>, cs: seq<BuildRef>)
    requires forall c :: c in cs ==> c in h
    requires forall i, j :: 0 <= i < j < |cs| ==> h[cs[i]].id != h[cs[j]].id
    ensures forall k :: 0 <= k < |cs| ==> h[cs[k]].id in Indexed(h, byId, cs) && Indexed(h, byId, cs)[h[cs[k]].id] == cs[k]
  {
    forall k | 0 <= k < |cs| ensures h[cs[k]].id in Indexed(h, byId, cs) && Indexed(h, byId, cs)[h[cs[k]].id] == cs[k] {
      var j := LastWith(h, cs, h[cs[k]].id);
      IndexedAt(h, byId, cs, h[cs[k]].id);
      assert j == k;
    }
  }

  // ---------------------------------------------------------------------
  // detectPlatform
  // ---------------------------------------------------------------------

  /** `req.params.platform || 'autodetect'` */
  function Asked(param: Option<string>): string {
    if param.Some? && param.value != "" then param.value else Autodetect
  }

  predicate Explicit(p: string) {
    p == "android" || p == "ios" || p == "wp8"
  }

  /** The user-agent checks, run in order and each overriding the last. */
  function Sniffed(p: string, d: BrowserDetect.Detector): string {
    var afterAndroid := if BrowserDetect.Android(d) then "android" else p;
    var afterIOS := if BrowserDetect.IOS(d) then "ios" else afterAndroid;
    if BrowserDetect.Windows(d) then "wp8" else afterIOS
  }

  /** The checks that come later win: IEMobile over iOS over Android, and
      with none of them the asked value stays. */
  lemma SniffPrecedence(p: string, d: BrowserDetect.Detector)
    ensures BrowserDetect.Windows(d) ==> Sniffed(p, d) == "wp8"
    ensures !BrowserDetect.Windows(d) && BrowserDetect.IOS(d) ==> Sniffed(p, d) == "ios"
    ensures !BrowserDetect.Windows(d) && !BrowserDetect.IOS(d) && BrowserDetect.Android(d) ==> Sniffed(p, d) == "android"
    ensures !BrowserDetect.Windows(d) && !BrowserDetect.IOS(d) && !BrowserDetect.Android(d) ==> Sniffed(p, d) == p
  {
  }

  /** The platform named by the request or by its user agent. */
  function Named(param: Option<string>, userAgent: Option<string>): string {
    var asked := Asked(param);
    if Explicit(asked) then asked else Sniffed(asked, BrowserDetect.New(userAgent))
  }

  /** An explicit `android`, `ios` or `wp8` is kept whatever the user agent. */
  lemma ExplicitWins(param: Option<string>, ua: Option<string>, ua': Option<string>)
    requires Explicit(Asked(param))
    ensures Named(param, ua) == param.value && Named(param, ua) == Named(param, ua')
  {
  }

  /** An IEMobile user agent gives `wp8` unless a platform is named
      explicitly; a missing user agent leaves the asked value alone. */
  lemma UserAgentDecides(param: Option<string>, ua: Option<string>)
    requires !Explicit(Asked(param))
    ensures BrowserDetect.Windows(BrowserDetect.New(ua)) ==> Named(param, ua) == "wp8"
    ensures ua.None? ==> Named(param, ua) == Asked(param)
  {
    if ua.None? {
      BrowserDetect.MissingUserAgent();
    }
  }

  /** The root a request falls back to: the master of a child. */
  function RootOf(h: Heap, r: BuildRef): (root: BuildRef)
    requires Wf(h) && r in h
    ensures root in h && h[root].master.None?
  {
    assert LinksOk(h, r);
    if h[r].master.Some? then h[r].master.value else r
  }

  /** The position of the first child whose status is success, or -1. */
  function FirstSuccessful(h: Heap, cs: seq<BuildRef>): (i: int)
    requires forall c :: c in cs ==> c in h
    ensures -1 <= i < |cs|
    ensures i >= 0 ==> h[cs[i]].conf.status == Success && forall k :: 0 <= k < i ==> h[cs[k]].conf.status != Success
    ensures i == -1 <==> forall k :: 0 <= k < |cs| ==> h[cs[k]].conf.status != Success
  {
    if cs == [] then -1
    else if h[cs[0]].conf.status == Success then 0
    else
      var j := FirstSuccessful(h, cs[1..]);
      assert forall k :: 1 <= k < |cs| ==> cs[k] == cs[1..][k - 1];
      if j == -1 then -1 else j + 1
  }

  /** The platform of the first successful child of `root`, or
      `autodetect` when it has none. */
  function Fallback(h: Heap, root: BuildRef): PlatformConf
    requires Wf(h) && root in h
  {
    assert LinksOk(h, root);
    var kids := h[root].platforms;
    if kids.None? then One(Autodetect)
    else
      var i := FirstSuccessful(h, kids.value);
      if i < 0 then One(Autodetect) else h[kids.value[i]].conf.platform
  }

  /** `detectPlatform(build, req)`; a string platform `p` is `One(p)`. */
  function Detect(h: Heap, build: Option<BuildRef>, param: Option<string>, userAgent: Option<string>): PlatformConf
    requires Wf(h) && (build.Some? ==> build.value in h)
  {
    var p := Named(param, userAgent);
    if p != Autodetect || build.None? then One(p) else Fallback(h, RootOf(h, build.value))
  }

  /** The fallback answers the same for a child as for its master. */
  lemma ChildAsksMaster(h: Heap, c: BuildRef, param: Option<string>, ua: Option<string>)
    requires Wf(h) && c in h && h[c].master.Some?
    ensures h[c].master.value in h
    ensures Detect(h, Some(c), param, ua) == Detect(h, h[c].master, param, ua)
  {
    assert LinksOk(h, c);
  }

  /** When neither the request nor the user agent names a platform, the
      answer is the platform of the first successful child of the root,
      and `autodetect` exactly when there is none (or that child has none
      of its own). */
  lemma FallbackChoice(h: Heap, r: BuildRef, param: Option<string>, ua: Option<string>)
    requires Wf(h) && r in h && Named(param, ua) == Autodetect
    ensures var root := RootOf(h, r);
            var d := Detect(h, Some(r), param, ua);
            (h[root].platforms.None? ==> d == One(Autodetect))
            && (h[root].platforms.Some? ==>
                  var cs := h[root].platforms.value;
                  ((forall k :: 0 <= k < |cs| ==> h[cs[k]].conf.status != Success) ==> d == One(Autodetect))
                  && forall i :: (0 <= i < |cs| && h[cs[i]].conf.status == Success
                                  && (forall k :: 0 <= k < i ==> h[cs[k]].conf.status != Success)) ==> d == h[cs[i]].conf.platform)
  {
    var root := RootOf(h, r);
    assert LinksOk(h, root);
    if h[root].platforms.Some? {
      var cs := h[root].platforms.value;
      var j := FirstSuccessful(h, cs);
      forall i | 0 <= i < |cs| && h[cs[i]].conf.status == Success && (forall k :: 0 <= k < i ==> h[cs[k]].conf.status != Success)
        ensures j == i
      {
      }
    }
  }

  // ---------------------------------------------------------------------
  // parseBuildRequest
  // ---------------------------------------------------------------------

  /** Why a download request is answered with status 500. */
  datatype Rejection =
    | NoSuchBuild
    | Undetected
    | NotRequested(platform: PlatformConf)
    | NoChild(platform: PlatformConf)
    | NotSucceeded(status: string)
    | NoOutputs

  datatype Answer = Rejected(why: Rejection) | Serve(build: BuildRef, platform: PlatformConf)

  /** The text sent with a rejection of the request for build `id`. */
  function Reply(why: Rejection, id: string): string {
    match why
    case NoSuchBuild => "There is no built with id " + id + " to be found!"
    case Undetected => "We could not detect your platform. Please download a specific platform from the nearby tabs!"
    case NotRequested(p) => "The specified build " + id + " was not requested on " + PlatformText(p) + "!"
    case NoChild(p) => "The build " + id + " contains no child builds on platform " + PlatformText(p) + "!"
    case NotSucceeded(s) => "The build " + id + " has not completed successfully yet. Currently it is on status: " + s + "!"
    case NoOutputs => "There are no output files for the build " + id + "!"
  }

  /** `findOne` over children: the position of the first child built for
      platform `p`, or -1. */
  function FindOnPlatform(h: Heap, cs: seq<BuildRef>, p: PlatformConf): (i: int)
    requires forall c :: c in cs ==> c in h
    ensures -1 <= i < |cs|
    ensures i >= 0 ==> h[cs[i]].conf.platform == p && forall k :: 0 <= k < i ==> h[cs[k]].conf.platform != p
    ensures i == -1 <==> forall k :: 0 <= k < |cs| ==> h[cs[k]].conf.platform != p
  {
    if cs == [] then -1
    else if h[cs[0]].conf.platform == p then 0
    else
      var j := FindOnPlatform(h, cs[1..], p);
      assert forall k :: 1 <= k < |cs| ==> cs[k] == cs[1..][k - 1];
      if j == -1 then -1 else j + 1
  }

  /** The builds a request for build `r` chooses among: the children of
      its master, or its own children. */
  function Candidates(h: Heap, r: BuildRef): Option<seq<BuildRef>>
    requires Wf(h) && r in h
  {
    assert LinksOk(h, r);
    if h[r].master.Some? then h[h[r].master.value].platforms else h[r].platforms
  }

  /** The position among the candidates of the child for platform `p`. */
  function Pick(h: Heap, r: BuildRef, p: PlatformConf): (i: int)
    requires Wf(h) && r in h
    ensures Candidates(h, r).None? ==> i == -1
    ensures Candidates(h, r).Some? ==> -1 <= i < |Candidates(h, r).value|
  {
    var cs := Candidates(h, r);
    assert LinksOk(h, r);
    assert h[r].master.Some? ==> LinksOk(h, h[r].master.value);
    if cs.None? then -1 else FindOnPlatform(h, cs.value, p)
  }

  predicate Indexes(h: Heap, byId: map<string, BuildRef>) {
    forall k :: k in byId ==> byId[k] in h
  }

  /** `parseBuildRequest(req, res)` for the build id `id`. */
  function Parse(h: Heap, byId: map<string, BuildRef>, id: string, param: Option<string>, userAgent: Option<string>): Answer
    requires Wf(h) && Indexes(h, byId)
  {
    if id !in byId then Rejected(NoSuchBuild)
    else
      var r := byId[id];
      var p := Detect(h, Some(r), param, userAgent);
      if p == One(Autodetect) then Rejected(Undetected)
      else
        var i := Pick(h, r, p);
        if i < 0 then Rejected(if h[r].master.Some? then NotRequested(p) else NoChild(p))
        else
          assert LinksOk(h, r);
          assert h[r].master.Some? ==> LinksOk(h, h[r].master.value);
          var c := Candidates(h, r).value[i];
          if h[c].conf.status != Success then Rejected(NotSucceeded(h[c].conf.status))
          else if h[c].outputFiles == [] then Rejected(NoOutputs)
          else Serve(c, p)
  }

  /** The checks come in order: an unknown id is reported before anything
      else, an undetectable platform before any missing child, a missing
      child before any status, and a status before the output files. */
  lemma ParseOrder(h: Heap, byId: map<string, BuildRef>, id: string, param: Option<string>, ua: Option<string>)
    requires Wf(h) && Indexes(h, byId)
    ensures Parse(h, byId, id, param, ua) == Rejected(NoSuchBuild) <==> id !in byId
    ensures Parse(h, byId, id, param, ua) == Rejected(Undetected) <==>
              id in byId && Detect(h, Some(byId[id]), param, ua) == One(Autodetect)
    ensures (Parse(h, byId, id, param, ua).Rejected? && (Parse(h, byId, id, param, ua).why.NotRequested? || Parse(h, byId, id, param, ua).why.NoChild?)) <==>
              id in byId && Detect(h, Some(byId[id]), param, ua) != One(Autodetect)
              && Pick(h, byId[id], Detect(h, Some(byId[id]), param, ua)) < 0
  {
  }

  /** A download is served only from a child built for the detected
      platform, among the children of the requested build's root, that
      succeeded and has output files; every earlier child was built for
      another platform. */
  lemma ParseServes(h: Heap, byId: map<string, BuildRef>, id: string, param: Option<string>, ua: Option<string>)
    requires Wf(h) && Indexes(h, byId)
    requires Parse(h, byId, id, param, ua).Serve?
    ensures id in byId
    ensures var a := Parse(h, byId, id, param, ua);
            var r := byId[id];
            var root := RootOf(h, r);
            a.platform == Detect(h, Some(r), param, ua) && a.platform != One(Autodetect)
            && h[root].platforms.Some?
            && (exists i :: 0 <= i < |h[root].platforms.value| && h[root].platforms.value[i] == a.build
                            && forall k :: 0 <= k < i ==> h[h[root].platforms.value[k]].conf.platform != a.platform)
            && h[a.build].master == Some(root)
            && h[a.build].conf.platform == a.platform && h[a.build].conf.status == Success && h[a.build].outputFiles != []
  {
    var r := byId[id];
    var root := RootOf(h, r);
    var a := Parse(h, byId, id, param, ua);
    assert LinksOk(h, r);
    assert LinksOk(h, root);
    var cs := Candidates(h, r).value;
    assert cs == h[root].platforms.value;
    var i := Pick(h, r, a.platform);
    assert cs[i] == a.build;
  }

  /** Every request for a build that passes each check in turn is served. */
  lemma ParseAccepts(h: Heap, byId: map<string, BuildRef>, id: string, param: Option<string>, ua: Option<string>)
    requires Wf(h) && Indexes(h, byId) && id in byId
    requires Detect(h, Some(byId[id]), param, ua) != One(Autodetect)
    requires var p := Detect(h, Some(byId[id]), param, ua);
             var i := Pick(h, byId[id], p);
             i >= 0 && h[Candidates(h, byId[id]).value[i]].conf.status == Success
             && h[Candidates(h, byId[id]).value[i]].outputFiles != []
    ensures Parse(h, byId, id, param, ua) == Serve(Candidates(h, byId[id]).value[Pick(h, byId[id], Detect(h, Some(byId[id]), param, ua))],
                                                  Detect(h, Some(byId[id]), param, ua))
  {
  }

  // ---------------------------------------------------------------------
  // mime_types
  // ---------------------------------------------------------------------

  const ApkType := "application/vnd.android.package-archive"
  const XapType := "application/x-silverlight-app"
  const IpaType := "application/octet-stream"

  /** `this.mime_types[platform] || this.mime_types.ios` */
  function ContentType(platform: string): (t: string)
    ensures t == ApkType <==> platform == "android"
    ensures t == XapType <==> platform == "wp8"
    ensures t == IpaType <==> platform != "android" && platform != "wp8"
  {
    var types := map["android" := ApkType, "wp8" := XapType, "ios" := IpaType];
    if platform in types then types[platform] else types["ios"]
  }

  // ---------------------------------------------------------------------
  // The server object
  // ---------------------------------------------------------------------

  class Server {
    var heap: Heap
    var builds: seq<BuildRef>
    var byId: map<string, BuildRef>
    var queue: seq<BuildRef>
    var platforms: map<string, seq<AgentRef>>
    var busy: set<AgentRef>
    var started: seq<(AgentRef, BuildRef)>

    predicate Valid()
      reads this
    {
      Wf(heap) && Indexes(heap, byId)
      && (forall r :: r in builds ==> r in heap)
      && (forall r :: r in queue ==> r in heap)
    }

    /** `new Server(conf)` over the build objects of `h`: no builds
        registered, nothing queued, no agents. */
    constructor (h: Heap)
      requires Wf(h)
      ensures Valid()
      ensures heap == h && builds == [] && byId == map[] && queue == []
      ensures platforms == map[] && busy == {} && started == []
    {
      heap, builds, byId, queue := h, [], map[], [];
      platforms, busy, started := map[], {}, [];
    }

    /** `registerBuild(build)`: the build is appended to the list and
        indexed by its id, then each child by its own id. A build without
        a list of children makes the `forEach` throw after the first two
        steps; `thrown` says so. */
    method RegisterBuild(r: BuildRef) returns (thrown: bool)
      requires Valid() && r in heap
      modifies this`builds, this`byId
      ensures Valid()
      ensures builds == old(builds) + [r]
      ensures thrown == heap[r].platforms.None?
      ensures thrown ==> byId == old(byId)[heap[r].id := r]
      ensures !thrown ==> byId == Indexed(heap, old(byId)[heap[r].id := r], heap[r].platforms.value)
    {
      builds := builds + [r];
      byId := byId[heap[r].id := r];
      thrown := heap[r].platforms.None?;
      if !thrown {
        assert LinksOk(heap, r);
        var cs := heap[r].platforms.value;
        var m := byId;
        var i := 0;
        while i < |cs|
          invariant 0 <= i <= |cs|
          invariant forall c :: c in cs[..i] ==> c in heap
          invariant m == Indexed(heap, byId, cs[..i])
          invariant Indexes(heap, m)
        {
          assert cs[..i + 1][..i] == cs[..i];
          m := m[heap[cs[i]].id := cs[i]];
          i := i + 1;
        }
        assert cs[..i] == cs;
        byId := m;
      }
    }

    /** The index of the first idle agent of a worklist (the `every`
        loop of `processQueue`). */
    method FindIdle(agents: seq<AgentRef>) returns (i: int)
      ensures i == FirstIdle(agents, busy)
    {
      i := 0;
      while i < |agents|
        invariant 0 <= i <= |agents|
        invariant forall k :: 0 <= k < i ==> agents[k] in busy
      {
        if agents[i] !in busy {
          return;
        }
        i := i + 1;
      }
      i := -1;
    }

    /** `processQueue()`: one tick takes the head of the queue and starts
        it on the first idle agent of its platform, or puts it back at the
        tail. */
    method ProcessQueue()
      requires Valid()
      modifies this`queue, this`started
      ensures Valid()
      ensures queue == TickQueue(heap, old(queue), platforms, busy)
      ensures started == TickStarted(heap, old(queue), platforms, busy, old(started))
    {
      if queue != [] {
        var b := queue[0];
        queue := queue[1..];
        var agents := Worklist(platforms, heap[b].conf.platform);
        var i := FindIdle(agents);
        if i >= 0 {
          started := started + [(agents[i], b)];
        } else {
          queue := queue + [b];
        }
      }
    }

    /** The fallback of `detectPlatform`: the `every` loop over the
        children of `root`. */
    method FallbackPlatform(root: BuildRef) returns (p: PlatformConf)
      requires Valid() && root in heap
      ensures p == Fallback(heap, root)
    {
      p := One(Autodetect);
      assert LinksOk(heap, root);
      if heap[root].platforms.Some? {
        var cs := heap[root].platforms.value;
        var i := 0;
        while i < |cs|
          invariant 0 <= i <= |cs|
          invariant forall k :: 0 <= k < i ==> heap[cs[k]].conf.status != Success
        {
          if heap[cs[i]].conf.status == Success {
            p := heap[cs[i]].conf.platform;
            return;
          }
          i := i + 1;
        }
      }
    }

    /** `detectPlatform(build, req)` */
    method DetectPlatform(build: Option<BuildRef>, param: Option<string>, userAgent: Option<string>) returns (p: PlatformConf)
      requires Valid() && (build.Some? ==> build.value in heap)
      ensures p == Detect(heap, build, param, userAgent)
    {
      var named := Named(param, userAgent);
      if named == Autodetect && build.Some? {
        p := FallbackPlatform(RootOf(heap, build.value));
      } else {
        p := One(named);
      }
    }

    /** `parseBuildRequest(req, res)`: the child build to serve and its
        platform, or why the request is refused. */
    method ParseBuildRequest(id: string, param: Option<string>, userAgent: Option<string>) returns (a: Answer)
      requires Valid()
      ensures a == Parse(heap, byId, id, param, userAgent)
    {
      if id !in byId {
        return Rejected(NoSuchBuild);
      }
      var r := byId[id];
      var p := DetectPlatform(Some(r), param, userAgent);
      if p == One(Autodetect) {
        return Rejected(Undetected);
      }
      var i := Pick(heap, r, p);
      if i < 0 {
        return Rejected(if heap[r].master.Some? then NotRequested(p) else NoChild(p));
      }
      assert LinksOk(heap, r);
      assert heap[r].master.Some? ==> LinksOk(heap, heap[r].master.value);
      var c := Candidates(heap, r).value[i];
      if heap[c].conf.status != Success {
        a := Rejected(NotSucceeded(heap[c].conf.status));
      } else if heap[c].outputFiles == [] {
        a := Rejected(NoOutputs);
      } else {
        a := Serve(c, p);
      }
    }
  }
}
