/** The handlers of a client's socket (lib/server/sockets/Client.js):
    `validateBuildRequest`, `onRegisterBuild`, `onUploadBuild` with its
    continuation `saveFiles`, and `onFailBuild`.

    A request is the plain object a client sends, not a `Build`: logging
    about it uses its `id` and `conf.number`, and `updateBuildStatus` on it
    looks it up by its text. Clients are not part of the coordinator's
    state: `c` is the client the handler runs for, and `clientIds` gives
    the id each client registered with. */
module ClientSessions {
  import opened Wrappers
  import opened Strings
  import opened Builds
  import opened Messages
  import opened Coordinator
  import ServerUtils
  import PreviousBuilds

  /** The argument of a handler: missing, or an object with an `id` ("" when
      unset), a `conf` and the uploaded `files`. */
  datatype Request = NoRequest | Request(id: string, conf: Option<Conf>, files: seq<FileEntry>)

  /** What `validateBuildRequest` did: returned false, returned true, or
      threw before changing anything. */
  datatype Verdict = Rejected | Accepted | Threw

  const NoConfigTemplate: string := "The client requested a build didn't specify a config"
  const NoPlatformsTemplate: string := "The client requested a build didn't specify any plaftorms to build against"
  const NoAgentTemplate: string := "The client requested a build on platform '{2}', but there is no agent connected yet on that platform."
  const RegisteredTemplate: string := "The build '{0}' has been registered on: {2}"
  const UnknownUploadTemplate: string := "update-build: The client said is uploading a build didn't specify a config"
  const SaveFailedTemplate: string := "The uploaded files could not be saved on the server: \n{2}"
  const QueuedOnTemplate: string := "Build has been queued on platforms: {2}"
  const ChildQueuedTemplate: string := "build queued on {2}"

  /** The client as the sender of a message: its registered id ("" when
      it never registered), and no name. */
  function Who(c: ClientRef, clientIds: map<ClientRef, string>): Sender {
    SenderObj(if c in clientIds then clientIds[c] else "", "")
  }

  /** Logging about a request without an id throws: the message's build id
      is then the request object itself, which `findBuildById` refuses. */
  predicate LogThrows(req: Request) {
    req.Request? && req.id == ""
  }

  /** What a message about a request is about. */
  function RequestSubject(req: Request): Subject {
    match req
    case NoRequest => NoSubject
    case Request(id, conf, _) => SubjectBuild(id, if conf.Some? then conf.value.number else "")
  }

  // ---------------------------------------------------------------------
  // validateBuildRequest
  // ---------------------------------------------------------------------

  /** A platform with no agent to build it: empty, without a worklist, or
      with an empty one. */
  predicate Unserved(wl: map<string, seq<AgentRef>>, p: string) {
    p == "" || p !in wl || wl[p] == []
  }

  function WarningMsg(req: Request, who: Sender, p: string): Msg {
    Make(RequestSubject(req), who, "C", Warning, NoAgentTemplate, [p])
  }

  /** The warnings the platforms of `ps` give, newest first. */
  function Warnings(req: Request, who: Sender, wl: map<string, seq<AgentRef>>, ps: seq<string>): seq<Msg>
    decreases |ps|
  {
    if ps == [] then []
    else
      var p := ps[|ps| - 1];
      (if Unserved(wl, p) then [WarningMsg(req, who, p)] else []) + Warnings(req, who, wl, ps[..|ps| - 1])
  }

  /** A warning names a platform exactly when that platform was requested
      and has no agent. */
  lemma {:induction false} WarnedExactly(req: Request, who: Sender, wl: map<string, seq<AgentRef>>, ps: seq<string>, p: string)
    ensures WarningMsg(req, who, p) in Warnings(req, who, wl, ps) <==> p in ps && Unserved(wl, p)
    decreases |ps|
  {
    if ps != [] {
      var init := ps[..|ps| - 1];
      WarnedExactly(req, who, wl, init, p);
      assert ps == init + [ps[|ps| - 1]];
    }
  }

  /** The `Object.every` pass over the requested platforms, which only
      logs. */
  function AfterWarnings(st: State, req: Request, who: Sender, c: ClientRef, ps: seq<string>): (res: State)
    requires Core(st)
    ensures Core(res) && res.heap.Keys == st.heap.Keys
    ensures res == st.(heap := res.heap, logs := res.logs, events := res.events)
    decreases |ps|
  {
    if ps == [] then st
    else
      var st1 := AfterWarnings(st, req, who, c, ps[..|ps| - 1]);
      var p := ps[|ps| - 1];
      LogKeys(st1, WarningMsg(req, who, p), Some(ClientPeer(c)));
      if Unserved(st1.platforms, p) then AfterLog(st1, WarningMsg(req, who, p), Some(ClientPeer(c))) else st1
  }

  /** The pass logs exactly the warnings, newest first, and changes the
      builds' logs only. */
  lemma {:induction false} WarningsLogged(st: State, req: Request, who: Sender, c: ClientRef, ps: seq<string>)
    requires Core(st)
    ensures AfterWarnings(st, req, who, c, ps).logs == Warnings(req, who, st.platforms, ps) + st.logs
    ensures LogsOnly(st.heap, AfterWarnings(st, req, who, c, ps).heap)
    decreases |ps|
  {
    if ps != [] {
      var init := ps[..|ps| - 1];
      WarningsLogged(st, req, who, c, init);
      var st1 := AfterWarnings(st, req, who, c, init);
      var p := ps[|ps| - 1];
      if Unserved(st1.platforms, p) {
        LogKeys(st1, WarningMsg(req, who, p), Some(ClientPeer(c)));
        forall q | q in st.heap
          ensures AfterWarnings(st, req, who, c, ps).heap[q]
                  == st.heap[q].(conf := st.heap[q].conf.(logs := AfterWarnings(st, req, who, c, ps).heap[q].conf.logs))
        {
          LogKeeps(st1, WarningMsg(req, who, p), Some(ClientPeer(c)), q);
        }
      }
    }
  }

  /** The argument `updateBuildStatus` should be given for a refused
      request: the id the request names. */
  function RequestArg(req: Request): BuildArg {
    if req.Request? then Key(req.id) else NoArg
  }

  /** The argument it is given: the request object, which the registry is
      indexed by as the text `[object Object]`. */
  function AsWrittenArg(req: Request): BuildArg {
    if req.Request? then Key("[object Object]") else NoArg
  }

  /** A refused request: the error is logged and the build is marked
      failed. */
  function AfterReject(st: State, cfg: Config, req: Request, who: Sender, c: ClientRef, template: string,
                       arg: BuildArg): (res: State)
    requires Core(st) && !arg.Obj?
    ensures Core(res) && res.heap.Keys == st.heap.Keys && res.next == st.next
  {
    var st1 := AfterLog(st, Make(RequestSubject(req), who, "C", Error, template, []), Some(ClientPeer(c)));
    LogKeys(st, Make(RequestSubject(req), who, "C", Error, template, []), Some(ClientPeer(c)));
    AfterUpdateBuildStatus(st1, cfg, arg, "failed", false)
  }

  /** The platform setting that counts as no platforms: unset, empty text
      or an empty list. */
  predicate NoPlatforms(p: PlatformConf) {
    p.NoPlatform? || p == One("") || p == Many([])
  }

  /** The error a request is refused with, if it is. */
  function Refusal(req: Request): Option<string> {
    if req.NoRequest? || req.conf.None? then Some(NoConfigTemplate)
    else if NoPlatforms(req.conf.value.platform) then Some(NoPlatformsTemplate)
    else None
  }

  /** `validateBuildRequest(build)`: a missing configuration or platform
      list refuses the request; a single platform given as text makes
      `Object.every` throw; a list is accepted, with a warning for each
      platform no agent serves. */
  function AfterValidate(st: State, cfg: Config, req: Request, c: ClientRef, clientIds: map<ClientRef, string>): (res: (State, Verdict))
    requires Core(st)
    ensures Core(res.0) && res.0.heap.Keys == st.heap.Keys && res.0.next == st.next
  {
    var who := Who(c, clientIds);
    var refusal := Refusal(req);
    if refusal.Some? then
      if LogThrows(req) then (st, Threw)
      else (AfterReject(st, cfg, req, who, c, refusal.value, RequestArg(req)), Rejected)
    else if req.conf.value.platform.One? then (st, Threw)
    else
      var ps := req.conf.value.platform.names;
      if LogThrows(req) && Warnings(req, who, st.platforms, ps) != [] then (st, Threw)
      else (AfterWarnings(st, req, who, c, ps), Accepted)
  }

  /** The request is refused exactly when it has no configuration or no
      platforms (and its error can be logged), accepted only with a
      non-empty platform list, and a throw changes nothing. */
  lemma ValidateVerdict(st: State, cfg: Config, req: Request, c: ClientRef, clientIds: map<ClientRef, string>)
    requires Core(st)
    ensures var v := AfterValidate(st, cfg, req, c, clientIds).1;
            (v == Rejected <==> Refusal(req).Some? && !LogThrows(req))
            && (v == Accepted ==> req.Request? && req.conf.Some? && req.conf.value.platform.Many?
                                  && req.conf.value.platform.names != [])
            && (v == Threw ==> AfterValidate(st, cfg, req, c, clientIds).0 == st)
  {
  }

  /** An accepted request only logs its warnings: no build but for its log,
      and no list of the server, changes. */
  lemma ValidateAcceptOnlyWarns(st: State, cfg: Config, req: Request, c: ClientRef, clientIds: map<ClientRef, string>)
    requires Core(st) && AfterValidate(st, cfg, req, c, clientIds).1 == Accepted
    ensures var res := AfterValidate(st, cfg, req, c, clientIds).0;
            LogsOnly(st.heap, res.heap) && res.ids == st.ids && res.builds == st.builds && res.queue == st.queue
            && SameAgents(st, res)
            && res.logs == Warnings(req, Who(c, clientIds), st.platforms, req.conf.value.platform.names) + st.logs
  {
    WarningsLogged(st, req, Who(c, clientIds), c, req.conf.value.platform.names);
  }

  /** A refused request naming a registered build marks that build failed. */
  lemma ValidateRejectMarks(st: State, cfg: Config, req: Request, c: ClientRef, clientIds: map<ClientRef, string>)
    requires Core(st) && AfterValidate(st, cfg, req, c, clientIds).1 == Rejected
    requires req.Request? && req.id in st.ids
    ensures st.ids[req.id] in AfterValidate(st, cfg, req, c, clientIds).0.heap
    ensures AfterValidate(st, cfg, req, c, clientIds).0.heap[st.ids[req.id]].conf.status == "failed"
  {
    var who := Who(c, clientIds);
    var m := Make(RequestSubject(req), who, "C", Error, Refusal(req).value, []);
    var st1 := AfterLog(st, m, Some(ClientPeer(c)));
    var r := st.ids[req.id];
    assert AfterValidate(st, cfg, req, c, clientIds).0 == AfterUpdateBuildStatus(st1, cfg, Key(req.id), "failed", false);
    assert Target(st1, Key(req.id)) == Some(r) by {
      assert req.id != "" && st1.ids == st.ids;
    }
    FoundStatus(st1, cfg, r, "failed", false);
  }

  /** As written, a refused request marks no registered build failed: the
      registry is searched for `[object Object]`, so only an error is
      logged. */
  lemma RejectAsWrittenMarksNothing(st: State, cfg: Config, req: Request, c: ClientRef, clientIds: map<ClientRef, string>,
                                    template: string)
    requires Core(st) && req.Request? && "[object Object]" !in st.ids
    ensures var res := AfterReject(st, cfg, req, Who(c, clientIds), c, template, AsWrittenArg(req));
            forall q :: q in st.heap ==> q in res.heap && res.heap[q].conf.status == st.heap[q].conf.status
  {
    var who := Who(c, clientIds);
    var m := Make(RequestSubject(req), who, "C", Error, template, []);
    var st1 := AfterLog(st, m, Some(ClientPeer(c)));
    NotFoundOnlyLogs(st1, cfg, AsWrittenArg(req), "failed", false);
    forall q | q in st.heap
      ensures q in st1.heap && st1.heap[q].conf.status == st.heap[q].conf.status
    {
      LogKeeps(st, m, Some(ClientPeer(c)), q);
    }
  }

  /** The pass over the requested platforms, one warning at a time. */
  method WarnEach(s: Server, req: Request, who: Sender, c: ClientRef, ps: seq<string>)
    requires Core(s.St())
    modifies s
    ensures s.St() == AfterWarnings(old(s.St()), req, who, c, ps)
  {
    ghost var st0 := s.St();
    var i := 0;
    while i < |ps|
      invariant 0 <= i <= |ps|
      invariant s.St() == AfterWarnings(st0, req, who, c, ps[..i])
    {
      assert ps[..i + 1][..i] == ps[..i];
      if Unserved(s.platforms, ps[i]) {
        s.Log(WarningMsg(req, who, ps[i]), Some(ClientPeer(c)));
      }
      i := i + 1;
    }
    assert ps[..|ps|] == ps;
  }

  method Reject(s: Server, cfg: Config, req: Request, who: Sender, c: ClientRef, template: string, arg: BuildArg)
    requires Core(s.St()) && !arg.Obj?
    modifies s
    ensures s.St() == AfterReject(old(s.St()), cfg, req, who, c, template, arg)
  {
    s.Log(Make(RequestSubject(req), who, "C", Error, template, []), Some(ClientPeer(c)));
    s.UpdateBuildStatus(cfg, arg, "failed", false);
  }

  /** `validateBuildRequest(build)` */
  method Validate(s: Server, cfg: Config, req: Request, c: ClientRef, clientIds: map<ClientRef, string>)
    returns (v: Verdict)
    requires Core(s.St())
    modifies s
    ensures (s.St(), v) == AfterValidate(old(s.St()), cfg, req, c, clientIds)
  {
    var who := Who(c, clientIds);
    var refusal := Refusal(req);
    if refusal.Some? {
      if LogThrows(req) {
        return Threw;
      }
      Reject(s, cfg, req, who, c, refusal.value, RequestArg(req));
      return Rejected;
    }
    if req.conf.value.platform.One? {
      return Threw;
    }
    var ps := req.conf.value.platform.names;
    if LogThrows(req) && Warnings(req, who, s.platforms, ps) != [] {
      return Threw;
    }
    WarnEach(s, req, who, c, ps);
    return Accepted;
  }

  // ---------------------------------------------------------------------
  // Helpers on updateBuildStatus
  // ---------------------------------------------------------------------

  /** Updating the status of the build at `k` leaves the status of every
      build other than `k` and its master as it was. */
  lemma UpdateLeavesOthers(st: State, cfg: Config, k: BuildRef, status: string, quiet: bool, q: BuildRef)
    requires Core(st) && k in st.heap && q in st.heap && q != k && status != "deleted"
    requires st.heap[k].master.Some? ==> q != st.heap[k].master.value
    ensures q in AfterUpdateBuildStatus(st, cfg, Obj(k), status, quiet).heap
    ensures AfterUpdateBuildStatus(st, cfg, Obj(k), status, quiet).heap[q].conf.status == st.heap[q].conf.status
  {
    ObjFound(st, cfg, k, status, quiet);
    var st1 := AfterLogOnMaster(st, k, status, quiet);
    LogOnMasterKeeps(st, k, status, quiet, q);
    LogOnMasterKeeps(st, k, status, quiet, k);
    if st1.heap[k].master.Some? {
      UpdateChild(st1.heap, k, status, cfg.location);
    } else {
      UpdateRoot(st1.heap, k, status, cfg.location);
    }
  }

  /** A child of `r` is neither `r` nor `r`'s master. */
  lemma ChildApart(h: Heap, r: BuildRef, q: BuildRef)
    requires Wf(h) && r in h && h[r].platforms.Some? && q in h[r].platforms.value
    ensures q in h && q != r && (h[r].master.Some? ==> q != h[r].master.value)
  {
    assert LinksOk(h, r);
    assert LinksOk(h, q);
  }

  // ---------------------------------------------------------------------
  // onFailBuild
  // ---------------------------------------------------------------------

  /** The key `builds[build && build.id]` reads: a missing request or id
      reads the key `undefined`. */
  function RequestKey(req: Request): string {
    if req.Request? && req.id != "" then req.id else "undefined"
  }

  /** The builds at `cs` with status `failed`, set directly. */
  function MarkFailed(h: Heap, cs: seq<BuildRef>): (h': Heap)
    requires Wf(h)
    ensures Wf(h') && h'.Keys == h.Keys
    ensures forall q :: q in h ==> h'[q] == (if q in cs then SetStatus(h[q], "failed") else h[q])
    decreases |cs|
  {
    if cs == [] then h
    else
      var h1 := MarkFailed(h, cs[..|cs| - 1]);
      var q := cs[|cs| - 1];
      assert forall p :: p in cs <==> p in cs[..|cs| - 1] || p == q;
      if q !in h1 then h1
      else
        WfAfterWrite(h1, q, SetStatus(h1[q], "failed"));
        h1[q := SetStatus(h1[q], "failed")]
  }

  /** Marking one more build. */
  lemma MarkFailedStep(h: Heap, cs: seq<BuildRef>, i: nat)
    requires Wf(h) && i < |cs| && cs[i] in h
    ensures MarkFailed(h, cs[..i + 1]) == MarkFailed(h, cs[..i])[cs[i] := SetStatus(MarkFailed(h, cs[..i])[cs[i]], "failed")]
  {
    assert cs[..i + 1][..i] == cs[..i];
  }

  /** The children of the build at `r`, none when it has no list. */
  function ChildrenOf(h: Heap, r: BuildRef): seq<BuildRef>
    requires r in h
  {
    if h[r].platforms.Some? then h[r].platforms.value else []
  }

  /** The statuses `onFailBuild` sets directly: the children's, then the
      build's own. */
  function FailedHeap(h: Heap, r: BuildRef): (h': Heap)
    requires Wf(h) && r in h
    ensures Wf(h') && h'.Keys == h.Keys
  {
    var h1 := MarkFailed(h, ChildrenOf(h, r));
    WfAfterWrite(h1, r, SetStatus(h1[r], "failed"));
    h1[r := SetStatus(h1[r], "failed")]
  }

  /** The state once those statuses are set. */
  function FailedState(st: State, r: BuildRef): (res: State)
    requires Core(st) && r in st.heap
    ensures Core(res) && res.heap.Keys == st.heap.Keys
  {
    st.(heap := FailedHeap(st.heap, r))
  }

  /** `onFailBuild(build)`: an unregistered id is ignored. */
  function AfterFailBuild(st: State, cfg: Config, req: Request): (res: State)
    requires Core(st)
    ensures Core(res)
  {
    var found := FindBuildById(st, RequestKey(req));
    if found.None? then st
    else AfterUpdateBuildStatus(FailedState(st, found.value), cfg, Obj(found.value), "failed", false)
  }

  /** `onFailBuild` on a registered build leaves it `failed`, and
      unregisters nothing. */
  lemma FailBuildMarks(st: State, cfg: Config, req: Request)
    requires Core(st) && RequestKey(req) in st.ids
    ensures var r := st.ids[RequestKey(req)];
            var res := AfterFailBuild(st, cfg, req);
            r in res.heap && res.heap[r].conf.status == "failed"
            && res.ids == st.ids && res.builds == st.builds && res.queue == st.queue
  {
    var r := st.ids[RequestKey(req)];
    StatusDelegated(FailedState(st, r), cfg, r, "failed", false);
  }

  /** `onFailBuild` on a registered build leaves each of its children
      `failed`. */
  lemma FailBuildMarksChildren(st: State, cfg: Config, req: Request, q: BuildRef)
    requires Core(st) && RequestKey(req) in st.ids
    requires q in ChildrenOf(st.heap, st.ids[RequestKey(req)])
    ensures q in AfterFailBuild(st, cfg, req).heap
    ensures AfterFailBuild(st, cfg, req).heap[q].conf.status == "failed"
  {
    var r := st.ids[RequestKey(req)];
    FailBuildIs(st, cfg, req);
    FailedChild(st.heap, r, q);
    UpdateLeavesOthers(FailedState(st, r), cfg, r, "failed", false, q);
  }

  /** `onFailBuild` on a registered build sets the statuses directly, then
      updates the build's own through `updateBuildStatus`. */
  lemma FailBuildIs(st: State, cfg: Config, req: Request)
    requires Core(st) && RequestKey(req) in st.ids
    ensures st.ids[RequestKey(req)] in st.heap
    ensures AfterFailBuild(st, cfg, req)
            == AfterUpdateBuildStatus(FailedState(st, st.ids[RequestKey(req)]), cfg, Obj(st.ids[RequestKey(req)]), "failed", false)
  {
  }

  /** A child of `r` is marked failed directly, and is neither `r` nor its
      master. */
  lemma FailedChild(h: Heap, r: BuildRef, q: BuildRef)
    requires Wf(h) && r in h && q in ChildrenOf(h, r)
    ensures q in FailedHeap(h, r) && q != r && FailedHeap(h, r)[q].conf.status == "failed"
    ensures FailedHeap(h, r)[r].master.Some? ==> q != FailedHeap(h, r)[r].master.value
  {
    ChildApart(h, r, q);
  }

  /** `onFailBuild` with an id that is not registered changes nothing. */
  lemma FailBuildUnknown(st: State, cfg: Config, req: Request)
    requires Core(st) && RequestKey(req) !in st.ids
    ensures AfterFailBuild(st, cfg, req) == st
  {
  }

  /** `onFailBuild(build)` */
  method FailBuild(s: Server, cfg: Config, req: Request)
    requires Core(s.St())
    modifies s
    ensures s.St() == AfterFailBuild(old(s.St()), cfg, req)
  {
    var key := RequestKey(req);
    if key !in s.ids {
      return;
    }
    var r := s.ids[key];
    var h := MarkAll(s.heap, r);
    s.heap := h;
    s.UpdateBuildStatus(cfg, Obj(r), "failed", false);
  }

  /** The `forEach` over the children, then the build itself. */
  method MarkAll(h0: Heap, r: BuildRef) returns (h': Heap)
    requires Wf(h0) && r in h0
    ensures h' == FailedHeap(h0, r)
  {
    var cs := ChildrenOf(h0, r);
    var h := h0;
    var i := 0;
    while i < |cs|
      invariant 0 <= i <= |cs|
      invariant h == MarkFailed(h0, cs[..i])
      modifies {}
    {
      assert cs[i] in h0 by {
        assert LinksOk(h0, r);
      }
      h := MarkNext(h0, cs, i, h);
      i := i + 1;
    }
    assert cs[..|cs|] == cs;
    h' := h[r := SetStatus(h[r], "failed")];
  }

  /** One turn of that loop: marking the next child. */
  method MarkNext(h0: Heap, cs: seq<BuildRef>, i: nat, h: Heap) returns (h': Heap)
    requires Wf(h0) && i < |cs| && cs[i] in h0
    requires h == MarkFailed(h0, cs[..i])
    ensures h' == MarkFailed(h0, cs[..i + 1])
  {
    MarkFailedStep(h0, cs, i);
    h' := h[cs[i] := SetStatus(h[cs[i]], "failed")];
  }

  // ---------------------------------------------------------------------
  // onRegisterBuild
  // ---------------------------------------------------------------------

  /** A child's build number: the master's, then `.` and the platform,
      when the master has one. */
  function ChildNumber(number: string, p: string): (r: string)
    ensures number != "" ==> r == number + "." + p
    ensures number == "" ==> r == ""
  {
    if number != "" then number + "." + p else number
  }

  /** The id of the root made at `r`: the requested one, or a generated
      one. */
  function RootId(id: string, r: BuildRef, gen: BuildRef -> string): string {
    if id != "" then id else gen(r)
  }

  /** The root `onRegisterBuild` makes at `r`, once `n` children follow
      it. */
  function RootBuild(conf: Conf, c: ClientRef, files: seq<FileEntry>, id: string, r: BuildRef, n: nat,
                     gen: BuildRef -> string): Build {
    NewBuild(conf, Some(c), None, conf.platform, files, [], id, NoMaster, gen(r)).(platforms := Some(Refs(r + 1, n)))
  }

  /** The child for platform `p` at `k`: a copy of the configuration with
      its own number and an empty log, linked to the root at `r`. */
  function ChildBuild(conf: Conf, c: ClientRef, p: string, r: BuildRef, rootId: string, k: BuildRef,
                      gen: BuildRef -> string): Build {
    var b := NewBuild(conf.(number := ChildNumber(conf.number, p)), Some(c), None, One(p), [], [], "",
                      MasterObject(r, rootId), gen(k));
    b.(conf := b.conf.(logs := []))
  }

  /** The builds once the root at `r` and its first `n` children are
      made: each child goes in at the next reference and the root is
      rewritten to list it. */
  function MadeHeap(h: Heap, conf: Conf, c: ClientRef, files: seq<FileEntry>, id: string, ps: seq<string>,
                    r: BuildRef, n: nat, gen: BuildRef -> string): Heap
    requires n <= |ps|
    decreases n
  {
    if n == 0 then h[r := RootBuild(conf, c, files, id, r, 0, gen)]
    else MadeHeap(h, conf, c, files, id, ps, r, n - 1, gen)
           [r + n := ChildBuild(conf, c, ps[n - 1], r, RootId(id, r, gen), r + n, gen)]
           [r := RootBuild(conf, c, files, id, r, n, gen)]
  }

  /** The id map once the root and its first `n` children are indexed, the
      later ones replacing any earlier entry with the same id. */
  function MadeIds(ids: map<string, BuildRef>, rootId: string, r: BuildRef, n: nat, gen: BuildRef -> string)
    : map<string, BuildRef>
    decreases n
  {
    if n == 0 then ids[rootId := r] else MadeIds(ids, rootId, r, n - 1, gen)[gen(r + n) := r + n]
  }

  /** Indexing one more child. */
  lemma MadeIdsStep(ids: map<string, BuildRef>, rootId: string, r: BuildRef, n: nat, gen: BuildRef -> string)
    ensures MadeIds(ids, rootId, r, n + 1, gen) == MadeIds(ids, rootId, r, n, gen)[gen(r + 1 + n) := r + 1 + n]
  {
    assert r + (n + 1) == r + 1 + n;
  }

  /** The state once the root and its first `n` children are made and
      indexed, and the root is on the builds list. */
  function Made(st: State, conf: Conf, c: ClientRef, files: seq<FileEntry>, id: string, ps: seq<string>, n: nat,
                gen: BuildRef -> string): State
    requires n <= |ps|
  {
    var r := st.next;
    st.(heap := MadeHeap(st.heap, conf, c, files, id, ps, r, n, gen), next := r + 1 + n,
        ids := MadeIds(st.ids, RootId(id, r, gen), r, n, gen), builds := st.builds + [r])
  }

  /** The references made: the old ones, the root and its children. */
  lemma {:induction false} MadeKeys(h: Heap, conf: Conf, c: ClientRef, files: seq<FileEntry>, id: string,
      ps: seq<string>, r: BuildRef, n: nat, gen: BuildRef -> string, q: BuildRef)
    requires n <= |ps| && PreviousBuilds.Below(h, r)
    ensures q in MadeHeap(h, conf, c, files, id, ps, r, n, gen) <==> q in h || r <= q <= r + n
    decreases n
  {
    if n > 0 {
      MadeKeys(h, conf, c, files, id, ps, r, n - 1, gen, q);
    }
  }

  /** The old builds are left as they were. */
  lemma {:induction false} MadeKeeps(h: Heap, conf: Conf, c: ClientRef, files: seq<FileEntry>, id: string,
      ps: seq<string>, r: BuildRef, n: nat, gen: BuildRef -> string, q: BuildRef)
    requires n <= |ps| && PreviousBuilds.Below(h, r)
    ensures q in h ==> q in MadeHeap(h, conf, c, files, id, ps, r, n, gen) && MadeHeap(h, conf, c, files, id, ps, r, n, gen)[q] == h[q]
    decreases n
  {
    if q in h {
      assert q < r;
    }
    if n > 0 {
      MadeKeeps(h, conf, c, files, id, ps, r, n - 1, gen, q);
    }
  }

  /** The root at `r` lists its `n` children. */
  lemma {:induction false} MadeRootAt(h: Heap, conf: Conf, c: ClientRef, files: seq<FileEntry>, id: string,
      ps: seq<string>, r: BuildRef, n: nat, gen: BuildRef -> string)
    requires n <= |ps|
    ensures r in MadeHeap(h, conf, c, files, id, ps, r, n, gen) && MadeHeap(h, conf, c, files, id, ps, r, n, gen)[r] == RootBuild(conf, c, files, id, r, n, gen)
  {
  }

  /** The children follow the root, one per platform. */
  lemma {:induction false} MadeChildAt(h: Heap, conf: Conf, c: ClientRef, files: seq<FileEntry>, id: string,
      ps: seq<string>, r: BuildRef, n: nat, gen: BuildRef -> string, q: BuildRef)
    requires n <= |ps| && r < q <= r + n
    ensures q in MadeHeap(h, conf, c, files, id, ps, r, n, gen)
            && MadeHeap(h, conf, c, files, id, ps, r, n, gen)[q] == ChildBuild(conf, c, ps[q - r - 1], r, RootId(id, r, gen), q, gen)
    decreases n
  {
    if q < r + n {
      MadeChildAt(h, conf, c, files, id, ps, r, n - 1, gen, q);
    }
  }

  /** What is at each reference once the root and `n` children are made. */
  lemma MadeAt(h: Heap, conf: Conf, c: ClientRef, files: seq<FileEntry>, id: string,
               ps: seq<string>, r: BuildRef, n: nat, gen: BuildRef -> string, q: BuildRef)
    requires n <= |ps| && PreviousBuilds.Below(h, r)
    ensures q in MadeHeap(h, conf, c, files, id, ps, r, n, gen) <==> q in h || r <= q <= r + n
    ensures q in h ==> MadeHeap(h, conf, c, files, id, ps, r, n, gen)[q] == h[q]
    ensures q == r ==> MadeHeap(h, conf, c, files, id, ps, r, n, gen)[q] == RootBuild(conf, c, files, id, r, n, gen)
    ensures r < q <= r + n ==>
              MadeHeap(h, conf, c, files, id, ps, r, n, gen)[q] == ChildBuild(conf, c, ps[q - r - 1], r, RootId(id, r, gen), q, gen)
  {
    MadeKeys(h, conf, c, files, id, ps, r, n, gen, q);
    MadeKeeps(h, conf, c, files, id, ps, r, n, gen, q);
    MadeRootAt(h, conf, c, files, id, ps, r, n, gen);
    if r < q <= r + n {
      MadeChildAt(h, conf, c, files, id, ps, r, n, gen, q);
    }
  }

  /** The made builds keep the shape of the build graph. */
  lemma MadeWf(h: Heap, conf: Conf, c: ClientRef, files: seq<FileEntry>, id: string, ps: seq<string>,
               r: BuildRef, n: nat, gen: BuildRef -> string)
    requires n <= |ps| && Wf(h) && PreviousBuilds.Below(h, r)
    ensures Wf(MadeHeap(h, conf, c, files, id, ps, r, n, gen))
  {
    var h' := MadeHeap(h, conf, c, files, id, ps, r, n, gen);
    forall q | q in h' ensures LinksOk(h', q) {
      MadeAt(h, conf, c, files, id, ps, r, n, gen, q);
      MadeAt(h, conf, c, files, id, ps, r, n, gen, r);
      if q in h {
        assert LinksOk(h, q);
        if h[q].master.Some? {
          MadeAt(h, conf, c, files, id, ps, r, n, gen, h[q].master.value);
        }
        if h[q].platforms.Some? {
          forall k | k in h[q].platforms.value ensures k in h' && h'[k].master == Some(q) {
            MadeAt(h, conf, c, files, id, ps, r, n, gen, k);
          }
        }
      } else if q == r {
        forall k | k in h'[q].platforms.value ensures k in h' && h'[k].master == Some(q) {
          MadeAt(h, conf, c, files, id, ps, r, n, gen, k);
        }
      }
    }
  }

  /** Every id indexed so far names an old build, the root or a made
      child. */
  lemma {:induction false} MadeIdsIn(ids: map<string, BuildRef>, h: Heap, rootId: string, r: BuildRef, n: nat,
                                     gen: BuildRef -> string)
    requires forall k :: k in ids ==> ids[k] in h
    ensures forall k :: k in MadeIds(ids, rootId, r, n, gen) ==>
              MadeIds(ids, rootId, r, n, gen)[k] in h || r <= MadeIds(ids, rootId, r, n, gen)[k] <= r + n
    decreases n
  {
    if n > 0 {
      MadeIdsIn(ids, h, rootId, r, n - 1, gen);
    }
  }

  /** The made state is a well-formed one, with every reference below the
      next free one. */
  lemma MadeCore(st: State, conf: Conf, c: ClientRef, files: seq<FileEntry>, id: string, ps: seq<string>, n: nat,
                 gen: BuildRef -> string)
    requires n <= |ps| && Core(st) && PreviousBuilds.Below(st.heap, st.next)
    ensures Core(Made(st, conf, c, files, id, ps, n, gen))
    ensures PreviousBuilds.Below(Made(st, conf, c, files, id, ps, n, gen).heap, st.next + 1 + n)
  {
    MadeWf(st.heap, conf, c, files, id, ps, st.next, n, gen);
    var h' := MadeHeap(st.heap, conf, c, files, id, ps, st.next, n, gen);
    var ids' := MadeIds(st.ids, RootId(id, st.next, gen), st.next, n, gen);
    MadeIdsIn(st.ids, st.heap, RootId(id, st.next, gen), st.next, n, gen);
    forall k | k in ids' ensures ids'[k] in h' {
      MadeAt(st.heap, conf, c, files, id, ps, st.next, n, gen, ids'[k]);
    }
    forall q | q in h' ensures q < st.next + 1 + n {
      MadeAt(st.heap, conf, c, files, id, ps, st.next, n, gen, q);
    }
  }

  /** The made state, field by field. */
  lemma MadeIs(st: State, conf: Conf, c: ClientRef, files: seq<FileEntry>, id: string, ps: seq<string>, n: nat,
               gen: BuildRef -> string)
    requires n <= |ps|
    ensures Made(st, conf, c, files, id, ps, n, gen)
            == st.(heap := MadeHeap(st.heap, conf, c, files, id, ps, st.next, n, gen), next := st.next + 1 + n,
                   ids := MadeIds(st.ids, RootId(id, st.next, gen), st.next, n, gen), builds := st.builds + [st.next])
  {
  }

  /** The root with one more child listed. */
  lemma RootGrows(conf: Conf, c: ClientRef, files: seq<FileEntry>, id: string, r: BuildRef, n: nat, gen: BuildRef -> string)
    ensures RootBuild(conf, c, files, id, r, n, gen).(platforms := Some(Refs(r + 1, n) + [r + 1 + n]))
            == RootBuild(conf, c, files, id, r, n + 1, gen)
  {
  }

  /** Making the root: it goes on the builds list and into the id map,
      with an empty list of children. */
  method MakeRoot(s: Server, conf: Conf, c: ClientRef, files: seq<FileEntry>, id: string, ps: seq<string>,
                  gen: BuildRef -> string)
    requires PreviousBuilds.Below(s.heap, s.next)
    modifies s
    ensures s.St() == Made(old(s.St()), conf, c, files, id, ps, 0, gen)
  {
    ghost var st0 := s.St();
    var r := s.next;
    var root := NewBuild(conf, Some(c), None, conf.platform, files, [], id, NoMaster, gen(r));
    s.builds := s.builds + [r];
    s.ids := s.ids[root.id := r];
    s.heap := s.heap[r := root.(platforms := Some([]))];
    s.next := r + 1;
  }

  /** The builds after one pass of the `forEach` over the platforms: the
      child for the `i`-th platform is made at `k` and listed by the root
      at `r`. */
  function ChildHeap(h: Heap, conf: Conf, c: ClientRef, ps: seq<string>, r: BuildRef, i: nat, k: BuildRef,
                     gen: BuildRef -> string): Heap
    requires i < |ps| && r in h && h[r].platforms.Some?
  {
    h[k := ChildBuild(conf, c, ps[i], r, h[r].id, k, gen)][r := h[r].(platforms := Some(h[r].platforms.value + [k]))]
  }

  /** The builds after one more pass. */
  lemma MadeStepHeap(h: Heap, conf: Conf, c: ClientRef, files: seq<FileEntry>, id: string, ps: seq<string>,
                     r: BuildRef, i: nat, gen: BuildRef -> string)
    requires i < |ps| && PreviousBuilds.Below(h, r)
    ensures r in MadeHeap(h, conf, c, files, id, ps, r, i, gen)
    ensures MadeHeap(h, conf, c, files, id, ps, r, i, gen)[r].platforms.Some?
    ensures ChildHeap(MadeHeap(h, conf, c, files, id, ps, r, i, gen), conf, c, ps, r, i, r + 1 + i, gen)
            == MadeHeap(h, conf, c, files, id, ps, r, i + 1, gen)
  {
    MadeAt(h, conf, c, files, id, ps, r, i, gen, r);
    RootGrows(conf, c, files, id, r, i, gen);
    assert r + (i + 1) == r + 1 + i;
  }

  /** One pass of the `forEach` over the platforms: the child for the
      `i`-th platform is made at the next free reference, listed by the
      root at `r` and indexed by its id. */
  method AddChild(s: Server, ghost h0: Heap, ghost ids0: map<string, BuildRef>, conf: Conf, c: ClientRef,
                  ghost files: seq<FileEntry>, ghost id: string, ps: seq<string>, r: BuildRef, i: nat,
                  gen: BuildRef -> string)
    requires i < |ps| && PreviousBuilds.Below(h0, r)
    requires s.heap == MadeHeap(h0, conf, c, files, id, ps, r, i, gen) && s.next == r + 1 + i
    requires s.ids == MadeIds(ids0, RootId(id, r, gen), r, i, gen)
    modifies s
    ensures s.heap == MadeHeap(h0, conf, c, files, id, ps, r, i + 1, gen) && s.next == r + 1 + (i + 1)
    ensures s.ids == MadeIds(ids0, RootId(id, r, gen), r, i + 1, gen)
    ensures s.St() == old(s.St()).(heap := s.heap, next := s.next, ids := s.ids)
  {
    MadeStepHeap(h0, conf, c, files, id, ps, r, i, gen);
    var k := s.next;
    var child := ChildBuild(conf, c, ps[i], r, s.heap[r].id, k, gen);
    s.heap := ChildHeap(s.heap, conf, c, ps, r, i, k, gen);
    s.next := k + 1;
    s.ids := s.ids[child.id := k];
    MadeIdsStep(ids0, RootId(id, r, gen), r, i, gen);
  }

  /** The root and one child per requested platform, in request order. */
  method MakeAll(s: Server, conf: Conf, c: ClientRef, files: seq<FileEntry>, id: string, ps: seq<string>,
                 gen: BuildRef -> string)
    requires Core(s.St()) && PreviousBuilds.Below(s.heap, s.next)
    modifies s
    ensures s.St() == Made(old(s.St()), conf, c, files, id, ps, |ps|, gen)
  {
    ghost var st0 := s.St();
    var r := s.next;
    MakeRoot(s, conf, c, files, id, ps, gen);
    MadeIs(st0, conf, c, files, id, ps, 0, gen);
    AddChildren(s, st0.heap, st0.ids, conf, c, files, id, ps, r, gen);
    MadeIs(st0, conf, c, files, id, ps, |ps|, gen);
  }

  /** The `forEach` over the platforms: one child per platform, in
      request order. */
  method AddChildren(s: Server, ghost h0: Heap, ghost ids0: map<string, BuildRef>, conf: Conf, c: ClientRef,
                     ghost files: seq<FileEntry>, ghost id: string, ps: seq<string>, r: BuildRef,
                     gen: BuildRef -> string)
    requires PreviousBuilds.Below(h0, r)
    requires s.heap == MadeHeap(h0, conf, c, files, id, ps, r, 0, gen) && s.next == r + 1
    requires s.ids == MadeIds(ids0, RootId(id, r, gen), r, 0, gen)
    modifies s
    ensures s.heap == MadeHeap(h0, conf, c, files, id, ps, r, |ps|, gen) && s.next == r + 1 + |ps|
    ensures s.ids == MadeIds(ids0, RootId(id, r, gen), r, |ps|, gen)
    ensures s.St() == old(s.St()).(heap := s.heap, next := s.next, ids := s.ids)
  {
    var i := 0;
    while i < |ps|
      invariant 0 <= i <= |ps|
      invariant s.heap == MadeHeap(h0, conf, c, files, id, ps, r, i, gen)
      invariant s.next == r + 1 + i
      invariant s.ids == MadeIds(ids0, RootId(id, r, gen), r, i, gen)
      invariant s.St() == old(s.St()).(heap := s.heap, next := s.next, ids := s.ids)
    {
      AddChild(s, h0, ids0, conf, c, files, id, ps, r, i, gen);
      i := i + 1;
    }
  }

  /** Where later generated ids do not repeat it, each made child is
      indexed under its generated id. */
  lemma {:induction false} MadeIdsChild(ids: map<string, BuildRef>, rootId: string, r: BuildRef, n: nat,
                                        gen: BuildRef -> string, k: BuildRef)
    requires r < k <= r + n
    requires forall k' :: k < k' <= r + n ==> gen(k') != gen(k)
    ensures gen(k) in MadeIds(ids, rootId, r, n, gen) && MadeIds(ids, rootId, r, n, gen)[gen(k)] == k
    decreases n
  {
    if k < r + n {
      MadeIdsChild(ids, rootId, r, n - 1, gen, k);
    }
  }

  /** Where no child's generated id repeats it, the root is indexed under
      its id. */
  lemma {:induction false} MadeIdsRoot(ids: map<string, BuildRef>, rootId: string, r: BuildRef, n: nat,
                                       gen: BuildRef -> string)
    requires forall k :: r < k <= r + n ==> gen(k) != rootId
    ensures rootId in MadeIds(ids, rootId, r, n, gen) && MadeIds(ids, rootId, r, n, gen)[rootId] == r
    decreases n
  {
    if n > 0 {
      MadeIdsRoot(ids, rootId, r, n - 1, gen);
    }
  }

  /** An id already registered that no made build takes keeps its
      build. */
  lemma {:induction false} MadeIdsKeep(ids: map<string, BuildRef>, rootId: string, r: BuildRef, n: nat,
                                       gen: BuildRef -> string, key: string)
    requires key in ids && key != rootId && forall k :: r < k <= r + n ==> gen(k) != key
    ensures key in MadeIds(ids, rootId, r, n, gen) && MadeIds(ids, rootId, r, n, gen)[key] == ids[key]
    decreases n
  {
    if n > 0 {
      MadeIdsKeep(ids, rootId, r, n - 1, gen, key);
    }
  }

  /** The message announcing the registration. */
  function RegisteredMsg(root: Build, who: Sender, ps: seq<string>): Msg {
    Make(SubjectOf(root), who, "C", Info, RegisteredTemplate, [Join(ps, ",")])
  }

  /** The made state once the registration is announced. */
  function Announced(st: State, conf: Conf, c: ClientRef, files: seq<FileEntry>, id: string, ps: seq<string>,
                     who: Sender, gen: BuildRef -> string): (res: State)
    requires Core(st) && PreviousBuilds.Below(st.heap, st.next)
    ensures Core(res) && res.heap.Keys == Made(st, conf, c, files, id, ps, |ps|, gen).heap.Keys
    ensures res == Made(st, conf, c, files, id, ps, |ps|, gen).(heap := res.heap, logs := res.logs, events := res.events)
  {
    var st1 := Made(st, conf, c, files, id, ps, |ps|, gen);
    MadeCore(st, conf, c, files, id, ps, |ps|, gen);
    var m := RegisteredMsg(RootBuild(conf, c, files, id, st.next, |ps|, gen), who, ps);
    LogKeys(st1, m, Some(ClientPeer(c)));
    AfterLog(st1, m, Some(ClientPeer(c)))
  }

  /** The accepted half of `onRegisterBuild`: the root and its children
      are made and registered, the registration is announced to the
      client, and the root's status is applied through
      `updateBuildStatus`. */
  function AfterCreate(st: State, cfg: Config, conf: Conf, c: ClientRef, files: seq<FileEntry>, id: string,
                       ps: seq<string>, who: Sender, gen: BuildRef -> string): (res: State)
    requires Core(st) && PreviousBuilds.Below(st.heap, st.next)
    ensures Core(res) && res.heap.Keys == Made(st, conf, c, files, id, ps, |ps|, gen).heap.Keys
  {
    var st2 := Announced(st, conf, c, files, id, ps, who, gen);
    MadeKeys(st.heap, conf, c, files, id, ps, st.next, |ps|, gen, st.next);
    AfterUpdateBuildStatus(st2, cfg, Obj(st.next), conf.status, false)
  }

  /** The root is made at the next free reference: as the request asked,
      with the client that sent it, no master and the list of its
      children, and the requested status; only its log differs. It is
      appended to the builds list. */
  lemma CreateRoot(st: State, cfg: Config, conf: Conf, c: ClientRef, files: seq<FileEntry>, id: string,
                   ps: seq<string>, who: Sender, gen: BuildRef -> string)
    requires Core(st) && PreviousBuilds.Below(st.heap, st.next) && conf.status != "deleted"
    ensures st.next in AfterCreate(st, cfg, conf, c, files, id, ps, who, gen).heap
    ensures SameButStatus(RootBuild(conf, c, files, id, st.next, |ps|, gen),
                          AfterCreate(st, cfg, conf, c, files, id, ps, who, gen).heap[st.next])
    ensures AfterCreate(st, cfg, conf, c, files, id, ps, who, gen).heap[st.next].conf.status == conf.status
    ensures AfterCreate(st, cfg, conf, c, files, id, ps, who, gen).builds == st.builds + [st.next]
  {
    var r := st.next;
    var st2 := Announced(st, conf, c, files, id, ps, who, gen);
    MadeAt(st.heap, conf, c, files, id, ps, r, |ps|, gen, r);
    MadeIs(st, conf, c, files, id, ps, |ps|, gen);
    var m := RegisteredMsg(RootBuild(conf, c, files, id, r, |ps|, gen), who, ps);
    LogKeeps(Made(st, conf, c, files, id, ps, |ps|, gen), m, Some(ClientPeer(c)), r);
    ObjFound(st2, cfg, r, conf.status, false);
    FoundKeeps(st2, cfg, r, conf.status, false, r);
    StatusDelegated(st2, cfg, r, conf.status, false);
  }

  /** Announcing changes no made build but for its log. */
  lemma AnnouncedKeeps(st: State, conf: Conf, c: ClientRef, files: seq<FileEntry>, id: string, ps: seq<string>,
                       who: Sender, gen: BuildRef -> string, q: BuildRef)
    requires Core(st) && PreviousBuilds.Below(st.heap, st.next)
    requires q in Made(st, conf, c, files, id, ps, |ps|, gen).heap
    ensures q in Announced(st, conf, c, files, id, ps, who, gen).heap
    ensures Announced(st, conf, c, files, id, ps, who, gen).heap[q]
            == Made(st, conf, c, files, id, ps, |ps|, gen).heap[q].(conf := Made(st, conf, c, files, id, ps, |ps|, gen).heap[q].conf.(logs := Announced(st, conf, c, files, id, ps, who, gen).heap[q].conf.logs))
  {
    MadeCore(st, conf, c, files, id, ps, |ps|, gen);
    var m := RegisteredMsg(RootBuild(conf, c, files, id, st.next, |ps|, gen), who, ps);
    LogKeeps(Made(st, conf, c, files, id, ps, |ps|, gen), m, Some(ClientPeer(c)), q);
  }

  /** Every made build but the root comes out of the status update as it
      was made, but for its log. */
  lemma CreateAt(st: State, cfg: Config, conf: Conf, c: ClientRef, files: seq<FileEntry>, id: string,
                 ps: seq<string>, who: Sender, gen: BuildRef -> string, q: BuildRef)
    requires Core(st) && PreviousBuilds.Below(st.heap, st.next) && conf.status != "deleted"
    requires q in Made(st, conf, c, files, id, ps, |ps|, gen).heap && q != st.next
    ensures q in AfterCreate(st, cfg, conf, c, files, id, ps, who, gen).heap
    ensures AfterCreate(st, cfg, conf, c, files, id, ps, who, gen).heap[q]
            == Made(st, conf, c, files, id, ps, |ps|, gen).heap[q].(conf := Made(st, conf, c, files, id, ps, |ps|, gen).heap[q].conf.(logs := AfterCreate(st, cfg, conf, c, files, id, ps, who, gen).heap[q].conf.logs))
  {
    var r := st.next;
    var st2 := Announced(st, conf, c, files, id, ps, who, gen);
    assert r in st2.heap && st2.heap[r].master.None? by {
      MadeIs(st, conf, c, files, id, ps, |ps|, gen);
      MadeRootAt(st.heap, conf, c, files, id, ps, r, |ps|, gen);
      AnnouncedKeeps(st, conf, c, files, id, ps, who, gen, r);
    }
    AnnouncedKeeps(st, conf, c, files, id, ps, who, gen, q);
    ObjFound(st2, cfg, r, conf.status, false);
    FoundKeeps(st2, cfg, r, conf.status, false, q);
    UpdateLeavesOthers(st2, cfg, r, conf.status, false, q);
  }

  /** The child for the `j`-th requested platform follows the root: a copy
      of its configuration for that one platform, numbered after it,
      linked to the root and with the requested status; only its log
      differs. */
  lemma CreateChild(st: State, cfg: Config, conf: Conf, c: ClientRef, files: seq<FileEntry>, id: string,
                    ps: seq<string>, who: Sender, gen: BuildRef -> string, j: nat)
    requires Core(st) && PreviousBuilds.Below(st.heap, st.next) && conf.status != "deleted" && j < |ps|
    ensures st.next + 1 + j in AfterCreate(st, cfg, conf, c, files, id, ps, who, gen).heap
    ensures SameButStatus(ChildBuild(conf, c, ps[j], st.next, RootId(id, st.next, gen), st.next + 1 + j, gen),
                          AfterCreate(st, cfg, conf, c, files, id, ps, who, gen).heap[st.next + 1 + j])
    ensures AfterCreate(st, cfg, conf, c, files, id, ps, who, gen).heap[st.next + 1 + j].conf.status == conf.status
  {
    var q := st.next + 1 + j;
    MadeChild(st, conf, c, files, id, ps, gen, j);
    CreateAt(st, cfg, conf, c, files, id, ps, who, gen, q);
    LogsReplaced(Made(st, conf, c, files, id, ps, |ps|, gen).heap, AfterCreate(st, cfg, conf, c, files, id, ps, who, gen).heap,
                 q, ChildBuild(conf, c, ps[j], st.next, RootId(id, st.next, gen), q, gen));
  }

  /** The made child for the `j`-th requested platform. */
  lemma MadeChild(st: State, conf: Conf, c: ClientRef, files: seq<FileEntry>, id: string, ps: seq<string>,
                  gen: BuildRef -> string, j: nat)
    requires Core(st) && PreviousBuilds.Below(st.heap, st.next) && j < |ps|
    ensures st.next + 1 + j in Made(st, conf, c, files, id, ps, |ps|, gen).heap
    ensures Made(st, conf, c, files, id, ps, |ps|, gen).heap[st.next + 1 + j]
            == ChildBuild(conf, c, ps[j], st.next, RootId(id, st.next, gen), st.next + 1 + j, gen)
  {
    MadeIs(st, conf, c, files, id, ps, |ps|, gen);
    MadeChildAt(st.heap, conf, c, files, id, ps, st.next, |ps|, gen, st.next + 1 + j);
  }

  /** A build whose log alone was replaced keeps everything else. */
  lemma LogsReplaced(m: Heap, a: Heap, q: BuildRef, b: Build)
    requires q in m && m[q] == b && q in a
    requires a[q] == m[q].(conf := m[q].conf.(logs := a[q].conf.logs))
    ensures SameButStatus(b, a[q]) && a[q].conf.status == b.conf.status
  {
  }

  /** The builds already registered keep their status and everything but
      their log. */
  lemma CreateKeepsOld(st: State, cfg: Config, conf: Conf, c: ClientRef, files: seq<FileEntry>, id: string,
                       ps: seq<string>, who: Sender, gen: BuildRef -> string, q: BuildRef)
    requires Core(st) && PreviousBuilds.Below(st.heap, st.next) && conf.status != "deleted" && q in st.heap
    ensures q in AfterCreate(st, cfg, conf, c, files, id, ps, who, gen).heap
    ensures SameButStatus(st.heap[q], AfterCreate(st, cfg, conf, c, files, id, ps, who, gen).heap[q])
    ensures AfterCreate(st, cfg, conf, c, files, id, ps, who, gen).heap[q].conf.status == st.heap[q].conf.status
  {
    assert q in Made(st, conf, c, files, id, ps, |ps|, gen).heap
           && Made(st, conf, c, files, id, ps, |ps|, gen).heap[q] == st.heap[q] by {
      MadeIs(st, conf, c, files, id, ps, |ps|, gen);
      MadeKeeps(st.heap, conf, c, files, id, ps, st.next, |ps|, gen, q);
    }
    CreateAt(st, cfg, conf, c, files, id, ps, who, gen, q);
  }

  /** The id map gains the root's id and the children's generated ids,
      and the next free reference moves past the last child. */
  lemma CreateIndexes(st: State, cfg: Config, conf: Conf, c: ClientRef, files: seq<FileEntry>, id: string,
                      ps: seq<string>, who: Sender, gen: BuildRef -> string)
    requires Core(st) && PreviousBuilds.Below(st.heap, st.next) && conf.status != "deleted"
    ensures AfterCreate(st, cfg, conf, c, files, id, ps, who, gen).ids
            == MadeIds(st.ids, RootId(id, st.next, gen), st.next, |ps|, gen)
    ensures AfterCreate(st, cfg, conf, c, files, id, ps, who, gen).next == st.next + 1 + |ps|
    ensures AfterCreate(st, cfg, conf, c, files, id, ps, who, gen).queue == st.queue
  {
    var r := st.next;
    var st2 := Announced(st, conf, c, files, id, ps, who, gen);
    MadeIs(st, conf, c, files, id, ps, |ps|, gen);
    MadeKeys(st.heap, conf, c, files, id, ps, r, |ps|, gen, r);
    StatusDelegated(st2, cfg, r, conf.status, false);
  }

  /** `onRegisterBuild(build)`, made: the root and the children in
      request order, then the announcement and the status update. */
  method Create(s: Server, cfg: Config, conf: Conf, c: ClientRef, files: seq<FileEntry>, id: string,
                ps: seq<string>, who: Sender, gen: BuildRef -> string)
    requires Core(s.St()) && PreviousBuilds.Below(s.heap, s.next)
    modifies s
    ensures s.St() == AfterCreate(old(s.St()), cfg, conf, c, files, id, ps, who, gen)
  {
    ghost var st0 := s.St();
    var r := s.next;
    MakeAll(s, conf, c, files, id, ps, gen);
    MadeCore(st0, conf, c, files, id, ps, |ps|, gen);
    MadeAt(st0.heap, conf, c, files, id, ps, r, |ps|, gen, r);
    s.Log(RegisteredMsg(s.heap[r], who, ps), Some(ClientPeer(c)));
    s.UpdateBuildStatus(cfg, Obj(r), conf.status, false);
  }

  /** The request once `buildConf.started` is set. */
  function Stamped(req: Request, now: int): (req': Request)
    requires req.Request? && req.conf.Some?
    ensures req'.Request? && req'.id == req.id && req'.files == req.files && req'.conf.Some?
    ensures req'.conf.value == req.conf.value.(started := Some(now))
  {
    req.(conf := Some(req.conf.value.(started := Some(now))))
  }

  /** `onRegisterBuild(build)`, with `now` the clock's reading: a missing
      request or configuration throws at `buildConf.started`; otherwise the
      request is validated and, when accepted, the build is made. */
  function AfterRegisterBuild(st: State, cfg: Config, req: Request, c: ClientRef, clientIds: map<ClientRef, string>,
                              now: int, gen: BuildRef -> string): (res: State)
    requires Core(st) && PreviousBuilds.Below(st.heap, st.next)
    ensures Core(res)
  {
    if req.NoRequest? || req.conf.None? then st
    else
      var req' := Stamped(req, now);
      var v := AfterValidate(st, cfg, req', c, clientIds);
      if v.1 != Accepted then v.0
      else
        assert PreviousBuilds.Below(v.0.heap, v.0.next);
        AfterCreate(v.0, cfg, req'.conf.value, c, req.files, req.id, req'.conf.value.platform.names,
                    Who(c, clientIds), gen)
  }

  /** A request without a configuration, or one that validation refuses,
      makes no build: the registry, the builds list and the queue are as
      they were. */
  lemma RegisterRefusedMakesNothing(st: State, cfg: Config, req: Request, c: ClientRef,
                                    clientIds: map<ClientRef, string>, now: int, gen: BuildRef -> string)
    requires Core(st) && PreviousBuilds.Below(st.heap, st.next)
    requires req.NoRequest? || req.conf.None? || AfterValidate(st, cfg, Stamped(req, now), c, clientIds).1 != Accepted
    ensures var res := AfterRegisterBuild(st, cfg, req, c, clientIds, now, gen);
            res.heap.Keys == st.heap.Keys && res.next == st.next && res.builds == st.builds
  {
    if !(req.NoRequest? || req.conf.None?) {
      var req' := Stamped(req, now);
      if AfterValidate(st, cfg, req', c, clientIds).1 == Rejected {
        var who := Who(c, clientIds);
        var m := Make(RequestSubject(req'), who, "C", Error, Refusal(req').value, []);
        var st1 := AfterLog(st, m, Some(ClientPeer(c)));
        LogKeys(st, m, Some(ClientPeer(c)));
        var t := Target(st1, RequestArg(req'));
        if t.None? {
          NotFoundOnlyLogs(st1, cfg, RequestArg(req'), "failed", false);
        } else {
          FoundKeeps(st1, cfg, t.value, "failed", false, t.value);
        }
      }
    }
  }

  /** An accepted request makes its root at the next free reference, with
      the request's status and its start time, and appends it to the
      builds list; the children take the next references, one per
      platform; the queue is untouched. */
  lemma RegisterAcceptedRoot(st: State, cfg: Config, req: Request, c: ClientRef, clientIds: map<ClientRef, string>,
                             now: int, gen: BuildRef -> string)
    requires Core(st) && PreviousBuilds.Below(st.heap, st.next)
    requires req.Request? && req.conf.Some? && req.conf.value.status != "deleted" && req.conf.value.platform.Many?
    requires AfterValidate(st, cfg, Stamped(req, now), c, clientIds).1 == Accepted
    ensures var res := AfterRegisterBuild(st, cfg, req, c, clientIds, now, gen);
            var ps := req.conf.value.platform.names;
            st.next in res.heap
            && SameButStatus(RootBuild(req.conf.value.(started := Some(now)), c, req.files, req.id, st.next, |ps|, gen),
                             res.heap[st.next])
            && res.heap[st.next].conf.status == req.conf.value.status
            && res.builds == st.builds + [st.next] && res.next == st.next + 1 + |ps| && res.queue == st.queue
  {
    var req' := Stamped(req, now);
    var st1 := AfterValidate(st, cfg, req', c, clientIds).0;
    var ps := req.conf.value.platform.names;
    ValidateAcceptOnlyWarns(st, cfg, req', c, clientIds);
    CreateRoot(st1, cfg, req'.conf.value, c, req.files, req.id, ps, Who(c, clientIds), gen);
    CreateIndexes(st1, cfg, req'.conf.value, c, req.files, req.id, ps, Who(c, clientIds), gen);
  }

  /** An accepted registration is the warnings, then the root and its
      children made from the stamped configuration, one child per
      requested platform in request order (`CreateChild`). */
  lemma RegisterIsCreate(st: State, cfg: Config, req: Request, c: ClientRef, clientIds: map<ClientRef, string>,
                         now: int, gen: BuildRef -> string)
    requires Core(st) && PreviousBuilds.Below(st.heap, st.next)
    requires req.Request? && req.conf.Some? && req.conf.value.platform.Many?
    requires AfterValidate(st, cfg, Stamped(req, now), c, clientIds).1 == Accepted
    ensures AfterValidate(st, cfg, Stamped(req, now), c, clientIds).0.next == st.next
    ensures PreviousBuilds.Below(AfterValidate(st, cfg, Stamped(req, now), c, clientIds).0.heap, st.next)
    ensures AfterRegisterBuild(st, cfg, req, c, clientIds, now, gen)
            == AfterCreate(AfterValidate(st, cfg, Stamped(req, now), c, clientIds).0, cfg,
                           req.conf.value.(started := Some(now)), c, req.files, req.id, req.conf.value.platform.names,
                           Who(c, clientIds), gen)
  {
  }

  /** An accepted request leaves every build registered before it with
      its status. */
  lemma RegisterKeepsOld(st: State, cfg: Config, req: Request, c: ClientRef, clientIds: map<ClientRef, string>,
                         now: int, gen: BuildRef -> string, q: BuildRef)
    requires Core(st) && PreviousBuilds.Below(st.heap, st.next) && q in st.heap
    requires req.Request? && req.conf.Some? && req.conf.value.status != "deleted" && req.conf.value.platform.Many?
    requires AfterValidate(st, cfg, Stamped(req, now), c, clientIds).1 == Accepted
    ensures var res := AfterRegisterBuild(st, cfg, req, c, clientIds, now, gen);
            q in res.heap && res.heap[q].conf.status == st.heap[q].conf.status
  {
    var req' := Stamped(req, now);
    var st1 := AfterValidate(st, cfg, req', c, clientIds).0;
    var ps := req.conf.value.platform.names;
    ValidateAcceptOnlyWarns(st, cfg, req', c, clientIds);
    CreateKeepsOld(st1, cfg, req'.conf.value, c, req.files, req.id, ps, Who(c, clientIds), gen, q);
  }

  /** The child made for platform `p`: that platform alone, numbered
      after the root, linked to the root at `r` and its id, with its own
      generated id and an empty log. */
  lemma ChildBuildIs(conf: Conf, c: ClientRef, p: string, r: BuildRef, rootId: string, k: BuildRef,
                     gen: BuildRef -> string)
    ensures var b := ChildBuild(conf, c, p, r, rootId, k, gen);
            b.conf == conf.(platform := One(p), number := ChildNumber(conf.number, p), logs := [])
            && b.master == Some(r) && b.masterId == rootId && b.id == gen(k) && b.platforms.None?
            && b.files == [] && b.client == Some(c)
  {
  }

  /** `onRegisterBuild(build)` */
  method RegisterBuild(s: Server, cfg: Config, req: Request, c: ClientRef, clientIds: map<ClientRef, string>,
                       now: int, gen: BuildRef -> string)
    requires Core(s.St()) && PreviousBuilds.Below(s.heap, s.next)
    modifies s
    ensures s.St() == AfterRegisterBuild(old(s.St()), cfg, req, c, clientIds, now, gen)
  {
    if req.NoRequest? || req.conf.None? {
      return;
    }
    var req' := Stamped(req, now);
    var v := Validate(s, cfg, req', c, clientIds);
    if v != Accepted {
      return;
    }
    Create(s, cfg, req'.conf.value, c, req.files, req.id, req'.conf.value.platform.names, Who(c, clientIds), gen);
  }
}
