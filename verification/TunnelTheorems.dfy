/** What every run of a connection guarantees: correlation, no stranded waiter,
    conservation and order, delivery at most once, quiescence, the closed-channel
    window and progress of lock holders. */
module TunnelTheorems {
  import opened Text
  import opened Headers
  import opened Connector
  import opened Tunnel
  import opened TunnelInv
  import opened Order

  // ---------------------------------------------------------------- runs and their prefixes

  lemma {:induction false} Extend(run: seq<Action>, a: Action)
    requires Run(run) && Enabled(StateAfter(run), a) && FreshStep(StateAfter(run), a)
    ensures Run(run + [a]) && StateAfter(run + [a]) == Step(StateAfter(run), a)
  {
    assert (run + [a])[..|run|] == run;
  }

  // ---------------------------------------------------------------- correlation

  /** The response is rebuilt from the reply to a service of exactly this caller's
      message: its id, method, path, query, headers and body. ReplyFor gives that
      reply as the results of calling the application with the local request made
      from that message. */
  ghost predicate OwnAnswer(served: seq<Service>, c: Caller, resp: Response) {
    exists i :: 0 <= i < |served| && served[i].msg == MsgOf(c.id, c.req)
      && Expands(served[i].msg.headers, served[i].header) && Decodes(ReplyFor(served[i]), resp)
  }

  /** Whenever EnqueueRequest returns (r, false), r carries the caller's id and is
      what the client made of this caller's own request, whatever else happens on
      the connection. */
  lemma {:induction false} Correlation(run: seq<Action>, t: CallerId, resp: Response)
    requires Run(run) && t in StateAfter(run).callers
    requires StateAfter(run).callers[t].pc == Returned(Answered(resp))
    ensures var s := StateAfter(run); var c := s.callers[t];
      c.id != "" && resp.id == c.id && OwnAnswer(s.served, c, resp)
  {
    RunInv(run);
    OwnRequest(StateAfter(run), t);
    AnswerIsOwn(StateAfter(run), t, resp);
  }

  lemma OwnRequest(s: State, t: CallerId)
    requires Inv(s) && t in s.callers
    requires s.callers[t].pc.Returned? && s.callers[t].pc.out.Answered?
    ensures s.callers[t].id != "" && Answers(s.sent, s.callers[t].id, s.callers[t].pc.out.resp)
    ensures s.callers[t].msg == MsgOf(s.callers[t].id, s.callers[t].req)
  {
  }

  /** A reply for a caller's id is the reply to that caller's message. */
  lemma AnswerIsOwn(s: State, t: CallerId, resp: Response)
    requires OwnerInv(s.owner, s.callers) && AskedInv(s.asked, s.owner, s.callers)
    requires SentInv(s.asked, s.served, s.sent) && t in s.callers && Answers(s.sent, s.callers[t].id, resp)
    requires s.callers[t].msg == MsgOf(s.callers[t].id, s.callers[t].req)
    ensures OwnAnswer(s.served, s.callers[t], resp)
  {
    var id := s.callers[t].id;
    var r :| r in s.sent && r.id == id && Decodes(r, resp);
    var i :| 0 <= i < |s.sent| && s.sent[i] == r;
    assert s.served[i].msg.id == id && s.owner[id] == t;
  }

  /** Each request is served at most once, in the order of acceptance, in every run:
      so there is one service a caller's answer can come from. */
  lemma {:induction false} ServedOnceInOrder(run: seq<Action>)
    requires Run(run)
    ensures var s := StateAfter(run); var ids := ReplyIds(s.sent);
      && |s.served| == |s.sent| && (forall i :: 0 <= i < |ids| ==> ids[i] == s.served[i].msg.id)
      && Distinct(ids) && Ordered(ids, s.accepted)
  {
    RunInv(run);
    var s := StateAfter(run);
    var ids := ReplyIds(s.sent);
    assert (ids + Unserved(s))[..|ids|] == ids;
    OrderedPrefix(ids + Unserved(s), |ids|, s.accepted);
    OrderedDistinct(ids, s.accepted);
  }

  /** The client is configured like this, and the application is this function of
      the local request and the attempt, throughout the run. */
  ghost predicate ServedBy(run: seq<Action>, url: string, limit: Limit, app: (LocalRequest, nat) -> AppResult) {
    forall i :: 0 <= i < |run| && run[i].Stream? && run[i].st.ClientReply? ==> By(run[i].st.sv, url, limit, app)
  }

  ghost predicate By(sv: Service, url: string, limit: Limit, app: (LocalRequest, nat) -> AppResult) {
    sv.url == url && sv.limit == limit && sv.app == app
  }

  lemma {:induction false} ServedByHistory(run: seq<Action>, url: string, limit: Limit,
                                           app: (LocalRequest, nat) -> AppResult)
    requires Run(run) && ServedBy(run, url, limit, app)
    ensures forall i :: 0 <= i < |StateAfter(run).served| ==> By(StateAfter(run).served[i], url, limit, app)
    decreases |run|
  {
    if run != [] {
      var n := |run| - 1;
      ServedByHistory(run[..n], url, limit, app);
      ServedGrows(StateAfter(run[..n]), run[n]);
    }
  }

  ghost predicate CanonicalReplies(app: (LocalRequest, nat) -> AppResult) {
    forall q, k :: app(q, k).Replied? ==> CanonicalKeys(app(q, k).header)
  }

  lemma {:induction false} AnswerIsFunction(run: seq<Action>, t: CallerId, resp: Response, url: string, limit: Limit,
                                            app: (LocalRequest, nat) -> AppResult)
    requires Run(run) && t in StateAfter(run).callers
    requires StateAfter(run).callers[t].pc == Returned(Answered(resp))
    requires ServedBy(run, url, limit, app) && CanonicalReplies(app)
    requires CanonicalKeys(StateAfter(run).callers[t].req.header)
    ensures resp == AnswerTo(MsgOf(StateAfter(run).callers[t].id, StateAfter(run).callers[t].req), url, limit, app)
  {
    Correlation(run, t, resp);
    ServedByHistory(run, url, limit, app);
    OwnAnswerIs(StateAfter(run).served, StateAfter(run).callers[t], resp, url, limit, app);
  }

  /** The answer to a message, given the client's configuration and the application. */
  ghost function AnswerTo(m: Msg, url: string, limit: Limit, app: (LocalRequest, nat) -> AppResult): Response {
    var r := ReplyFor(Service(m, Expanded(m.headers), url, limit, app));
    Rebuilt(r, Expanded(r.headers))
  }

  lemma OwnAnswerIs(served: seq<Service>, c: Caller, resp: Response, url: string, limit: Limit,
                    app: (LocalRequest, nat) -> AppResult)
    requires OwnAnswer(served, c, resp) && CanonicalReplies(app) && CanonicalKeys(c.req.header)
    requires forall i :: 0 <= i < |served| ==> By(served[i], url, limit, app)
    ensures resp == AnswerTo(MsgOf(c.id, c.req), url, limit, app)
  {
    var m := MsgOf(c.id, c.req);
    var i :| 0 <= i < |served| && served[i].msg == m
      && Expands(m.headers, served[i].header) && Decodes(ReplyFor(served[i]), resp);
    ExpandsCanonical(m.headers, served[i].header);
    CanonicalReply(served[i]);
    ExpandsCanonical(ReplyFor(served[i]).headers, resp.header);
  }

  lemma CanonicalReply(sv: Service)
    requires CanonicalReplies(sv.app)
    ensures CanonicalKeys(ReplyFor(sv).headers)
  {
  }

  // ---------------------------------------------------------------- no stranded waiter

  /** The caller can receive now, or the receive loop is about to fill its channel:
      nothing blocks that step, and after it the caller can receive. */
  ghost predicate WakesNow(s: State, t: CallerId) {
    || Enabled(s, Call(t, Receive))
    || (&& (exists h :: Enabled(s, Stream(RecvHand(h))))
        && (forall h :: Enabled(s, Stream(RecvHand(h))) ==> Enabled(Step(s, Stream(RecvHand(h))), Call(t, Receive))))
  }

  /** Once any call to Close has returned, or the connection has refused a caller,
      every caller past its send has a value waiting, or gets one at the next step
      of the receive loop. */
  lemma {:induction false} NoStrandedWaiter(run: seq<Action>, t: CallerId)
    requires Run(run)
    requires var s := StateAfter(run);
      || (exists k :: k in s.closers && s.closers[k].CloseReturned?)
      || (exists u :: u in s.callers && s.callers[u].id == "" && s.callers[u].pc.Returned?)
    requires t in StateAfter(run).callers && StateAfter(run).callers[t].pc.Waiting?
    ensures WakesNow(StateAfter(run), t)
  {
    RunInv(run);
    SweptMeansFilled(StateAfter(run), t);
    FilledOrHandedWakes(StateAfter(run), t);
  }

  lemma SweptMeansFilled(s: State, t: CallerId)
    requires CoreInv(s) && t in s.callers && s.callers[t].pc.Waiting?
    requires (exists k :: k in s.closers && s.closers[k].CloseReturned?)
      || (exists u :: u in s.callers && s.callers[u].id == "" && s.callers[u].pc.Returned?)
    ensures s.chanClosed && (s.callers[t].reply != [] || HandingTo(s.recv, t))
  {
    assert SweepOver(s.chanClosed, s.closedMu, s.closers);
  }

  lemma FilledOrHandedWakes(s: State, t: CallerId)
    requires t in s.callers && s.callers[t].pc.Waiting?
    requires s.callers[t].reply != [] || HandingTo(s.recv, t)
    ensures WakesNow(s, t)
  {
    if s.callers[t].reply == [] {
      var h := ExpansionExists(s.recv.reply.headers);
      assert Enabled(s, Stream(RecvHand(h)));
    }
  }

  // ---------------------------------------------------------------- conservation and order

  predicate StreamError(a: Action) {
    a.Stream? && (a.st.AckFail? || a.st.SenderFail? || a.st.RecvFail? || a.st.ClientFail? || a.st.WireLoss?)
  }

  predicate Repeat(a: Action) {
    a.Stream? && a.st.ClientRepeat?
  }

  predicate ClosesChan(a: Action) {
    a.Close? && a.cl.CloseChan?
  }

  predicate IsClose(a: Action) {
    a.Close?
  }

  /** Which actions serve a request. */
  lemma ServedGrows(s: State, a: Action)
    requires Enabled(s, a)
    ensures Step(s, a).served == if a.Stream? && a.st.ClientReply? then s.served + [a.st.sv] else s.served
  {
    match a
    case Call(t, ca) => FlagsCall(s, t, ca);
    case Close(k, cl) => FlagsClose(s, k, cl);
    case Stream(st) => ServedStream(s, st);
  }

  lemma ServedStream(s: State, st: StreamAction)
    requires StreamEnabled(s, st)
    ensures StreamStep(s, st).served == if st.ClientReply? then s.served + [st.sv] else s.served
  {
    if !st.ClientReply? {
      SentSame(s, st);
    }
  }

  /** Which actions set the flags. */
  lemma Flags(s: State, a: Action)
    requires Enabled(s, a)
    ensures Step(s, a).broken <==> s.broken || StreamError(a)
    ensures Step(s, a).repeated <==> s.repeated || Repeat(a)
    ensures Step(s, a).chanClosed <==> s.chanClosed || ClosesChan(a)
    ensures !IsClose(a) ==> Step(s, a).closers == s.closers
  {
    match a
    case Call(t, ca) => FlagsCall(s, t, ca);
    case Close(k, cl) => FlagsClose(s, k, cl);
    case Stream(st) => FlagsStream(s, st);
  }

  lemma FlagsCall(s: State, t: CallerId, ca: CallerAction)
    requires CallerEnabled(s, t, ca)
    ensures var n := CallerStep(s, t, ca);
      && n.broken == s.broken && n.repeated == s.repeated && n.chanClosed == s.chanClosed
      && n.closers == s.closers && n.served == s.served
  {
    match ca
    case Enter(_) =>
    case LockCheck =>
    case SeeClosed =>
    case SeeOpen(_) =>
    case LockInsert =>
    case Insert =>
    case Send =>
    case SendOnClosed =>
    case CancelSend =>
    case Receive =>
    case GiveUp =>
    case LockRemove =>
    case Remove =>
  }

  lemma FlagsClose(s: State, k: CloserId, cl: CloserAction)
    requires CloserEnabled(s, k, cl)
    ensures var n := CloserStep(s, k, cl);
      && n.broken == s.broken && n.repeated == s.repeated && n.chanClosed == (s.chanClosed || cl.CloseChan?)
      && n.served == s.served
  {
    match cl
    case CloseEnter =>
    case CloseLock =>
    case CloseNoop =>
    case CloseMark =>
    case CloseChan =>
    case CloseLockPending =>
    case SweepOne(_) =>
    case SweepDone =>
    case CloseUnlock =>
  }

  lemma FlagsStream(s: State, st: StreamAction)
    requires StreamEnabled(s, st)
    ensures var n := StreamStep(s, st);
      && n.broken == (s.broken || StreamError(Stream(st))) && n.repeated == (s.repeated || st.ClientRepeat?)
      && n.chanClosed == s.chanClosed && n.closers == s.closers
  {
    match st
    case Start =>
    case AckFail =>
    case SenderTake =>
    case SenderPut =>
    case SenderStop =>
    case SenderFail =>
    case RecvTake =>
    case RecvLock =>
    case RecvLookup =>
    case RecvHand(_) =>
    case RecvFail =>
    case ClientTake =>
    case ClientReply(_) =>
    case ClientFail =>
    case ClientRepeat(_) =>
    case WireLoss(_, _) =>
  }

  /** Without a stream error; the client may repeat its replies. */
  ghost predicate Reliable(run: seq<Action>) {
    forall i :: 0 <= i < |run| ==> !StreamError(run[i])
  }

  ghost predicate WithoutRepeats(run: seq<Action>) {
    forall i :: 0 <= i < |run| ==> !Repeat(run[i])
  }

  lemma {:induction false} FlagsHistory(run: seq<Action>)
    requires Run(run)
    ensures Reliable(run) ==> !StateAfter(run).broken
    ensures WithoutRepeats(run) ==> !StateAfter(run).repeated
    decreases |run|
  {
    if run != [] {
      var n := |run| - 1;
      FlagsHistory(run[..n]);
      Flags(StateAfter(run[..n]), run[n]);
      assert Reliable(run) ==> Reliable(run[..n]) && !StreamError(run[n]);
      assert WithoutRepeats(run) ==> WithoutRepeats(run[..n]) && !Repeat(run[n]);
    }
  }

  /** Until a stream error every accepted id is in the pipeline: its places, read
      from the last stage to the first and without later copies of repeated replies,
      spell the accepted ids in order, each once. Without repeats the pipeline has no
      copies, so each id is in exactly one place. */
  lemma {:induction false} Conservation(run: seq<Action>)
    requires Run(run) && Reliable(run)
    ensures var s := StateAfter(run);
      && s.accepted == Firsts(ReplyLine(s)) + Unserved(s)
      && Distinct(s.accepted)
      && (WithoutRepeats(run) ==> s.accepted == Pipeline(s))
  {
    RunInv(run);
    FlagsHistory(run);
    FirstsDistinct(ReplyLine(StateAfter(run)));
  }

  /** In every run, with repeats, losses and failures, replies first arrive in the
      order in which their requests were accepted; until a stream error they do so
      without gaps. */
  lemma {:induction false} RepliesInOrder(run: seq<Action>)
    requires Run(run)
    ensures var s := StateAfter(run);
      && Ordered(Firsts(ResolvedIds(s.resolved)), s.accepted)
      && (Reliable(run) ==> Firsts(ResolvedIds(s.resolved)) <= s.accepted)
  {
    RunInv(run);
    FlagsHistory(run);
    ArrivedInOrder(StateAfter(run));
  }

  lemma ArrivedInOrder(s: State)
    requires OrderInv(s)
    ensures var arrived := Firsts(ResolvedIds(s.resolved));
      Ordered(arrived, s.accepted) && (!s.broken ==> arrived <= s.accepted)
  {
    var ids := ResolvedIds(s.resolved);
    assert ReplyLine(s)[..|ids|] == ids;
    FirstsPrefix(ReplyLine(s), |ids|);
    var line, n := ReplyIds(s.sent) + Unserved(s), |Firsts(ids)|;
    assert line[..n] == Firsts(ids);
    OrderedPrefix(line, n, s.accepted);
  }

  /** No id is delivered twice, even when the client repeats its replies and the
      stream loses messages. */
  lemma {:induction false} DeliveredAtMostOnce(run: seq<Action>, i: nat, j: nat)
    requires Run(run) && i < j < |StateAfter(run).resolved|
    requires StateAfter(run).resolved[i].delivered && StateAfter(run).resolved[j].delivered
    ensures StateAfter(run).resolved[i].id != StateAfter(run).resolved[j].id
  {
    RunInv(run);
  }

  // ---------------------------------------------------------------- quiescence

  /** Both wires and sendCh are empty and the sender, the receive loop and the
      client are idle. */
  predicate Quiescent(s: State) {
    && s.sendBuf == [] && s.reqWire == [] && s.replyWire == []
    && SenderMsg(s.sender) == [] && ClientMsg(s.client) == [] && RecvReply(s.recv) == []
  }

  lemma {:induction false} NoCloseState(run: seq<Action>)
    requires Run(run) && forall i :: 0 <= i < |run| ==> !IsClose(run[i])
    ensures StateAfter(run).closers == map[] && !StateAfter(run).chanClosed
    decreases |run|
  {
    if run != [] {
      var n := |run| - 1;
      NoCloseState(run[..n]);
      Flags(StateAfter(run[..n]), run[n]);
      assert !IsClose(run[n]);
    }
  }

  /** On a reliable stream, when nothing is left in the pipeline, every caller past
      its send has a value waiting: its own response unless a Close was called. */
  lemma {:induction false} QuiescentAnswered(run: seq<Action>, t: CallerId)
    requires Run(run) && Reliable(run) && Quiescent(StateAfter(run))
    requires t in StateAfter(run).callers && StateAfter(run).callers[t].pc.Waiting?
    ensures |StateAfter(run).callers[t].reply| == 1
    ensures (forall i :: 0 <= i < |run| ==> !IsClose(run[i])) ==>
      var c := StateAfter(run).callers[t];
      c.reply[0].Some? && OwnAnswer(StateAfter(run).served, c, c.reply[0].value)
  {
    var s := StateAfter(run);
    Conservation(run);
    assert ReplyLine(s) == ResolvedIds(s.resolved) && Unserved(s) == [];
    WaitingIsResolved(run, t);
    if forall i :: 0 <= i < |run| ==> !IsClose(run[i]) {
      NoCloseState(run);
      OpenReplyIsOwn(run, t);
    }
  }

  lemma {:induction false} WaitingIsResolved(run: seq<Action>, t: CallerId)
    requires Run(run) && StateAfter(run).accepted == Firsts(ResolvedIds(StateAfter(run).resolved))
    requires t in StateAfter(run).callers && StateAfter(run).callers[t].pc.Waiting?
    ensures |StateAfter(run).callers[t].reply| == 1
  {
    RunInv(run);
    ResolvedFillsChannel(StateAfter(run), t);
  }

  lemma ResolvedFillsChannel(s: State, t: CallerId)
    requires OwnerInv(s.owner, s.callers) && AskedInv(s.asked, s.owner, s.callers) && AcceptedInv(s.asked, s.accepted)
    requires ResolvedInv(s.resolved, s.owner, s.callers) && AnswerInv(s.sent, s.callers)
    requires s.accepted == Firsts(ResolvedIds(s.resolved)) && t in s.callers && s.callers[t].pc.Waiting?
    ensures |s.callers[t].reply| == 1
  {
    var id := s.callers[t].id;
    assert id in s.asked && id in s.accepted && s.owner[id] == t;
    FirstsMembers(ResolvedIds(s.resolved));
    var i :| 0 <= i < |s.resolved| && ResolvedIds(s.resolved)[i] == id;
    assert s.resolved[i].id == id && WaitingOn(s.owner, s.callers, s.resolved[i].id);
  }

  lemma {:induction false} OpenReplyIsOwn(run: seq<Action>, t: CallerId)
    requires Run(run) && !StateAfter(run).chanClosed
    requires t in StateAfter(run).callers && StateAfter(run).callers[t].pc.Waiting?
    requires |StateAfter(run).callers[t].reply| == 1
    ensures var c := StateAfter(run).callers[t];
      c.reply[0].Some? && OwnAnswer(StateAfter(run).served, c, c.reply[0].value)
  {
    RunInv(run);
    var s := StateAfter(run);
    ReplyIsSome(s, t);
    AnswerIsOwn(s, t, s.callers[t].reply[0].value);
  }

  lemma ReplyIsSome(s: State, t: CallerId)
    requires CoreInv(s) && !s.chanClosed
    requires t in s.callers && s.callers[t].pc.Waiting? && |s.callers[t].reply| == 1
    ensures var c := s.callers[t];
      && c.reply[0].Some? && Answers(s.sent, c.id, c.reply[0].value)
      && c.msg == MsgOf(c.id, c.req)
  {
    assert s.callers[t].reply != [None];
  }

  // ---------------------------------------------------------------- the closed-channel window

  ghost predicate SomeClose(run: seq<Action>) {
    exists j :: 0 <= j < |run| && ClosesChan(run[j])
  }

  lemma {:induction false} SomeCloseSnoc(run: seq<Action>)
    requires run != []
    ensures SomeClose(run) <==> SomeClose(run[..|run| - 1]) || ClosesChan(run[|run| - 1])
  {
    var init := run[..|run| - 1];
    if SomeClose(init) {
      var j :| 0 <= j < |init| && ClosesChan(init[j]);
      assert ClosesChan(run[j]);
    }
    if SomeClose(run) {
      var j :| 0 <= j < |run| && ClosesChan(run[j]);
      assert j < |init| ==> ClosesChan(init[j]);
    }
  }

  lemma {:induction false} ChanClosedHistory(run: seq<Action>)
    requires Run(run)
    ensures StateAfter(run).chanClosed <==> SomeClose(run)
    decreases |run|
  {
    if run != [] {
      var n := |run| - 1;
      ChanClosedHistory(run[..n]);
      Flags(StateAfter(run[..n]), run[n]);
      SomeCloseSnoc(run);
    }
  }

  /** sendCh is closed at most once, however many Close calls race. */
  lemma {:induction false} ClosedAtMostOnce(run: seq<Action>, i: nat, j: nat)
    requires Run(run) && i < j < |run| && ClosesChan(run[i])
    ensures !ClosesChan(run[j])
    decreases |run|
  {
    var n := |run| - 1;
    assert ClosesChan(run[..n][i]);
    if j < n {
      ClosedAtMostOnce(run[..n], i, j);
      assert !ClosesChan(run[..n][j]);
    } else {
      LastCloses(run);
    }
  }

  lemma {:induction false} LastCloses(run: seq<Action>)
    requires Run(run) && run != [] && SomeClose(run[..|run| - 1])
    ensures !ClosesChan(run[|run| - 1])
  {
    var init, last := run[..|run| - 1], run[|run| - 1];
    ChanClosedHistory(init);
    if ClosesChan(last) {
      ChanCloseNeedsOpen(init, last);
    }
  }

  lemma {:induction false} ChanCloseNeedsOpen(run: seq<Action>, a: Action)
    requires Run(run) && Enabled(StateAfter(run), a) && ClosesChan(a)
    ensures !StateAfter(run).chanClosed
  {
    RunInv(run);
    assert CloserOk(StateAfter(run).closed, StateAfter(run).chanClosed, StateAfter(run).closers[a.k]);
  }

  /** The buffer of sendCh never holds more than 64 messages. */
  lemma {:induction false} BufferBounded(run: seq<Action>)
    requires Run(run)
    ensures |StateAfter(run).sendBuf| <= 64
  {
    RunInv(run);
  }

  predicate PassesCheck(a: Action, t: CallerId) {
    a.Call? && a.t == t && a.ca.SeeOpen?
  }

  lemma {:induction false} CheckHistory(run: seq<Action>, t: CallerId)
    requires Run(run) && t in StateAfter(run).callers && StateAfter(run).callers[t].id != ""
    ensures exists i :: 0 <= i < |run| && PassesCheck(run[i], t)
    decreases |run|
  {
    if run == [] {
    } else {
      var n := |run| - 1;
      if PassesCheck(run[n], t) {
      } else {
        IdKept(StateAfter(run[..n]), run[n], t);
        CheckHistory(run[..n], t);
        var i :| 0 <= i < n && PassesCheck(run[..n][i], t);
        assert PassesCheck(run[i], t);
      }
    }
  }

  predicate SameCall(c: Caller, d: Caller) {
    c.id == d.id && c.req == d.req
  }

  lemma IdKept(s: State, a: Action, t: CallerId)
    requires Enabled(s, a) && t in Step(s, a).callers && Step(s, a).callers[t].id != "" && !PassesCheck(a, t)
    ensures t in s.callers && SameCall(s.callers[t], Step(s, a).callers[t])
  {
    match a
    case Call(u, ca) => IdKeptCall(s, u, ca, t);
    case Close(k, cl) => IdKeptClose(s, k, cl, t);
    case Stream(st) => IdKeptStream(s, st, t);
  }

  lemma IdKeptCall(s: State, u: CallerId, ca: CallerAction, t: CallerId)
    requires CallerEnabled(s, u, ca) && t in CallerStep(s, u, ca).callers && CallerStep(s, u, ca).callers[t].id != ""
    requires u != t || !ca.SeeOpen?
    ensures t in s.callers && SameCall(s.callers[t], CallerStep(s, u, ca).callers[t])
  {
    match ca
    case Enter(_) =>
    case LockCheck =>
    case SeeClosed =>
    case SeeOpen(_) =>
    case LockInsert =>
    case Insert =>
    case Send =>
    case SendOnClosed =>
    case CancelSend =>
    case Receive =>
    case GiveUp =>
    case LockRemove =>
    case Remove =>
  }

  lemma IdKeptClose(s: State, k: CloserId, cl: CloserAction, t: CallerId)
    requires CloserEnabled(s, k, cl) && t in CloserStep(s, k, cl).callers
    ensures t in s.callers && SameCall(s.callers[t], CloserStep(s, k, cl).callers[t])
  {
    match cl
    case CloseEnter =>
    case CloseLock =>
    case CloseNoop =>
    case CloseMark =>
    case CloseChan =>
    case CloseLockPending =>
    case SweepOne(_) =>
    case SweepDone =>
    case CloseUnlock =>
  }

  lemma IdKeptStream(s: State, st: StreamAction, t: CallerId)
    requires StreamEnabled(s, st) && t in StreamStep(s, st).callers
    ensures t in s.callers && SameCall(s.callers[t], StreamStep(s, st).callers[t])
  {
    if !st.RecvHand? {
      CallersSame(s, st);
    }
  }

  lemma CallersSame(s: State, st: StreamAction)
    requires StreamEnabled(s, st) && !st.RecvHand?
    ensures StreamStep(s, st).callers == s.callers
  {
    match st
    case Start =>
    case AckFail =>
    case SenderTake =>
    case SenderPut =>
    case SenderStop =>
    case SenderFail =>
    case RecvTake =>
    case RecvLock =>
    case RecvLookup =>
    case RecvFail =>
    case ClientTake =>
    case ClientReply(_) =>
    case ClientFail =>
    case ClientRepeat(_) =>
    case WireLoss(_, _) =>
  }

  /** The caller passes its check and takes this id: its request's own, or the new one
      when that has none. */
  predicate TakesId(a: Action, t: CallerId, req: Request, id: Id) {
    PassesCheck(a, t) && (if req.id == "" then id == a.ca.uuid else id == req.id)
  }

  /** In every run a call has no id or the one taken at its check, and no two calls have
      the same. */
  lemma {:induction false} IdIsChosen(run: seq<Action>, t: CallerId)
    requires Run(run) && t in StateAfter(run).callers && StateAfter(run).callers[t].id != ""
    ensures var c := StateAfter(run).callers[t];
      && (exists i :: 0 <= i < |run| && TakesId(run[i], t, c.req, c.id))
      && (forall u :: u in StateAfter(run).callers && u != t ==> StateAfter(run).callers[u].id != c.id)
  {
    IdWasTaken(run, t);
    RunInv(run);
    assert OwnerInv(StateAfter(run).owner, StateAfter(run).callers);
  }

  lemma {:induction false} IdWasTaken(run: seq<Action>, t: CallerId)
    requires Run(run) && t in StateAfter(run).callers && StateAfter(run).callers[t].id != ""
    ensures var c := StateAfter(run).callers[t]; exists i :: 0 <= i < |run| && TakesId(run[i], t, c.req, c.id)
    decreases |run|
  {
    if run == [] {
    } else {
      var n := |run| - 1;
      var c := StateAfter(run).callers[t];
      if PassesCheck(run[n], t) {
        assert TakesId(run[n], t, c.req, c.id);
      } else {
        IdKept(StateAfter(run[..n]), run[n], t);
        IdWasTaken(run[..n], t);
        var i :| 0 <= i < n && TakesId(run[..n][i], t, c.req, c.id);
        assert TakesId(run[i], t, c.req, c.id);
      }
    }
  }

  /** A caller at its send can send, blocks, or panics: which one depends on whether a
      Close has closed the channel, and on the 64 slots of its buffer. */
  lemma {:induction false} CanSendWhen(run: seq<Action>, t: CallerId)
    requires Run(run) && t in StateAfter(run).callers && StateAfter(run).callers[t].pc.Sending?
    ensures var s := StateAfter(run);
      && (Enabled(s, Call(t, Send)) <==> !SomeClose(run) && |s.sendBuf| < 64)
      && (Enabled(s, Call(t, SendOnClosed)) <==> SomeClose(run))
      && (!SomeClose(run) && |s.sendBuf| == 64 <==> !Enabled(s, Call(t, Send)) && !Enabled(s, Call(t, SendOnClosed)))
  {
    ChanClosedHistory(run);
    BufferBounded(run);
  }

  /** Nothing keeps a caller from giving up at either select. */
  lemma CallerMayGiveUp(s: State, t: CallerId)
    requires t in s.callers
    ensures s.callers[t].pc.Sending? ==> CallerEnabled(s, t, CancelSend)
    ensures s.callers[t].pc.Waiting? ==> CallerEnabled(s, t, GiveUp)
  {}

  /** Nor the stream from failing at any of its operations and losing what is on the
      wires, nor the client from sending a reply again. */
  lemma StreamMayFail(s: State)
    ensures !s.started && s.recv.Listening? ==> StreamEnabled(s, Start) && StreamEnabled(s, AckFail)
    ensures s.sender.SenderHolds? ==> StreamEnabled(s, SenderFail)
    ensures s.started && s.recv.Listening? ==> StreamEnabled(s, RecvFail)
    ensures !s.client.ClientGone? ==> StreamEnabled(s, ClientFail)
    ensures forall i :: 0 <= i < |s.sent| ==> StreamEnabled(s, ClientRepeat(i))
    ensures forall i, j :: 0 <= i <= |s.reqWire| && 0 <= j <= |s.replyWire| ==> StreamEnabled(s, WireLoss(i, j))
  {}

  /** A caller about to send panics exactly when some Close closed sendCh after the
      caller's own check of `closed`. */
  lemma {:induction false} PanicWindow(run: seq<Action>, t: CallerId)
    requires Run(run) && t in StateAfter(run).callers && StateAfter(run).callers[t].pc.Sending?
    ensures Enabled(StateAfter(run), Call(t, SendOnClosed)) <==>
      exists i, j :: 0 <= i < j < |run| && PassesCheck(run[i], t) && ClosesChan(run[j])
  {
    ChanClosedHistory(run);
    SendingHasId(run, t);
    assert Enabled(StateAfter(run), Call(t, SendOnClosed)) <==> SomeClose(run);
    if SomeClose(run) {
      CheckHistory(run, t);
      var i :| 0 <= i < |run| && PassesCheck(run[i], t);
      var j :| 0 <= j < |run| && ClosesChan(run[j]);
      NothingClosedAtCheck(run, t, i, j);
    }
  }

  lemma {:induction false} SendingHasId(run: seq<Action>, t: CallerId)
    requires Run(run) && t in StateAfter(run).callers && StateAfter(run).callers[t].pc.Sending?
    ensures StateAfter(run).callers[t].id != ""
  {
    RunInv(run);
  }

  lemma {:induction false} NothingClosedAtCheck(run: seq<Action>, t: CallerId, i: nat, j: nat)
    requires Run(run) && i < |run| && j < |run| && PassesCheck(run[i], t) && ClosesChan(run[j])
    ensures i < j
    decreases |run|
  {
    var n := |run| - 1;
    if i < n && j < n {
      NothingClosedAtCheck(run[..n], t, i, j);
    } else if j < i {
      assert ClosesChan(run[..n][j]);
      LastChecks(run, t);
    }
  }

  lemma {:induction false} LastChecks(run: seq<Action>, t: CallerId)
    requires Run(run) && run != [] && SomeClose(run[..|run| - 1])
    ensures !PassesCheck(run[|run| - 1], t)
  {
    var init, last := run[..|run| - 1], run[|run| - 1];
    ChanClosedHistory(init);
    RunInv(init);
    if PassesCheck(last, t) {
      CheckNeedsOpen(StateAfter(init), last, t);
    }
  }

  lemma CheckNeedsOpen(s: State, a: Action, t: CallerId)
    requires CoreInv(s) && Enabled(s, a) && PassesCheck(a, t)
    ensures !s.chanClosed
  {
  }

  // ---------------------------------------------------------------- progress of lock holders

  /** The next step of a thread that holds one of the two locks. */
  ghost function HolderAction(s: State): Action
    requires !s.closedMu.Free? || !s.pendingMu.Free?
  {
    match s.pendingMu
    case ByRecv => Stream(RecvLookup)
    case ByCaller(t) => Call(t, if t in s.callers && s.callers[t].pc.Inserting? then Insert else Remove)
    case ByCloser(k) =>
      if k in s.closers && s.closers[k].Sweeping? && s.closers[k].todo != {}
      then Close(k, SweepOne(AnyOf(s.closers[k].todo)))
      else Close(k, SweepDone)
    case Free =>
      match s.closedMu
      case ByCaller(t) => Call(t, if s.closed then SeeClosed else SeeOpen(""))
      case ByCloser(k) =>
        var pc := if k in s.closers then s.closers[k] else CloseEntered;
        Close(k, match pc
                 case CloseChecking => if s.closed then CloseNoop else CloseMark
                 case Marked => CloseChan
                 case ChanClosed => CloseLockPending
                 case _ => CloseUnlock)
      case _ => Stream(RecvLookup)
  }

  ghost function AnyOf(ids: set<Id>): Id
    requires ids != {}
  {
    var id :| id in ids; id
  }

  /** Whoever holds pendingMu can always step; if nobody holds it, whoever holds
      closedMu can. So a held lock never blocks the connection for good. */
  lemma LockHolderCanStep(s: State)
    requires LockInv(s) && (!s.closedMu.Free? || !s.pendingMu.Free?)
    ensures Enabled(s, HolderAction(s))
  {
  }
}
