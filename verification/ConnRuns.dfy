/** The runs of module Tunnel that one call on a connection amounts to when nothing
    else runs inside its critical sections: each lemma extends a run by the steps
    of the call and says what state they lead to. */
module ConnRuns {
  import opened Text
  import opened Headers
  import opened Connector
  import opened Tunnel
  import opened TunnelInv
  import opened TunnelTheorems

  ghost predicate Reaches(run: seq<Action>, s: State) {
    Run(run) && StateAfter(run) == s
  }

  ghost predicate Unlocked(s: State) {
    s.closedMu.Free? && s.pendingMu.Free?
  }

  lemma {:induction false} One(run: seq<Action>, s: State, a: Action) returns (more: seq<Action>)
    requires Reaches(run, s) && Enabled(s, a) && FreshStep(s, a)
    ensures Reaches(more, Step(s, a)) && run <= more
  {
    Extend(run, a);
    more := run + [a];
  }

  lemma {:induction false} Two(run: seq<Action>, s: State, a: Action, b: Action) returns (more: seq<Action>)
    requires Reaches(run, s) && Enabled(s, a) && FreshStep(s, a)
    requires Enabled(Step(s, a), b) && FreshStep(Step(s, a), b)
    ensures Reaches(more, Step(Step(s, a), b)) && run <= more
  {
    var next := One(run, s, a);
    more := One(next, Step(s, a), b);
  }

  // ---------------------------------------------------------------- EnqueueRequest

  function Checked(s: State, t: CallerId, uuid: Id): State
    requires t in s.callers
  {
    var c := s.callers[t];
    var id := ChosenId(c.req, uuid);
    if s.closed then s.(callers := s.callers[t := c.(pc := Returned(Unavailable))])
    else s.(callers := s.callers[t := c.(id := id, pc := Registering)], owner := s.owner[id := t])
  }

  lemma CheckedIs(s: State, t: CallerId, uuid: Id)
    requires t in s.callers
    ensures var n := Checked(s, t, uuid);
      && n == s.(callers := n.callers, owner := n.owner) && n.callers.Keys == s.callers.Keys
      && (forall other :: other in s.callers ==> n.callers[other].reply == s.callers[other].reply)
      && CheckedCaller(n.callers[t], s.closed, s.callers[t].req, uuid)
  {}

  /** Refused, or registering under the id of its request, or the new one if that has
      none. */
  ghost predicate CheckedCaller(c: Caller, closed: bool, req: Request, uuid: Id) {
    && c.req == req
    && (closed ==> c.pc == Returned(Unavailable))
    && (!closed ==> c.pc == Registering && c.id == if req.id == "" then uuid else req.id)
  }

  lemma {:induction false} CheckSteps(run: seq<Action>, s: State, t: CallerId, uuid: Id) returns (more: seq<Action>)
    requires Reaches(run, s) && s.closedMu.Free? && t in s.callers && s.callers[t].pc.Entered?
    requires ChosenId(s.callers[t].req, uuid) != "" && ChosenId(s.callers[t].req, uuid) !in s.owner
    ensures Reaches(more, Checked(s, t, uuid)) && run <= more
  {
    more := Two(run, s, Call(t, LockCheck), Call(t, if s.closed then SeeClosed else SeeOpen(uuid)));
    var c := s.callers[t];
    assert s.callers[t := c.(pc := Checking)][t := Checked(s, t, uuid).callers[t]] == Checked(s, t, uuid).callers;
  }

  lemma CheckRun(run: seq<Action>, s: State, t: CallerId, uuid: Id) returns (more: seq<Action>)
    requires Reaches(run, s) && s.closedMu.Free? && t in s.callers && s.callers[t].pc.Entered?
    requires var id := if s.callers[t].req.id == "" then uuid else s.callers[t].req.id; id != "" && id !in s.owner
    ensures Reaches(more, Checked(s, t, uuid)) && run <= more
    ensures t in StateAfter(more).callers
    ensures CheckedCaller(StateAfter(more).callers[t], s.closed, s.callers[t].req, uuid)
  {
    CheckedIs(s, t, uuid);
    more := CheckSteps(run, s, t, uuid);
  }

  function Inserted(s: State, t: CallerId): State
    requires t in s.callers
  {
    var c := s.callers[t];
    s.(callers := s.callers[t := c.(msg := MsgOf(c.id, c.req), pc := Sending)], pending := s.pending[c.id := t])
  }

  lemma {:induction false} InsertRun(run: seq<Action>, s: State, t: CallerId) returns (more: seq<Action>)
    requires Reaches(run, s) && s.pendingMu.Free? && t in s.callers && s.callers[t].pc.Registering?
    ensures Reaches(more, Inserted(s, t)) && run <= more
  {
    var c := s.callers[t];
    more := Two(run, s, Call(t, LockInsert), Call(t, Insert));
    assert s.callers[t := c.(pc := Inserting)][t := Inserted(s, t).callers[t]] == Inserted(s, t).callers;
  }

  function Removed(s: State, t: CallerId, out: Outcome): State
    requires t in s.callers
  {
    var c := s.callers[t];
    s.(callers := s.callers[t := c.(pc := Returned(out))], pending := s.pending - {c.id})
  }

  lemma {:induction false} RemoveRun(run: seq<Action>, s: State, t: CallerId, out: Outcome) returns (more: seq<Action>)
    requires Reaches(run, s) && s.pendingMu.Free? && t in s.callers && s.callers[t].pc == Leaving(out)
    ensures Reaches(more, Removed(s, t, out)) && run <= more
    ensures out.Answered? ==> out.resp.id == s.callers[t].id && OwnAnswer(s.served, s.callers[t], out.resp)
  {
    var c := s.callers[t];
    more := Two(run, s, Call(t, LockRemove), Call(t, Remove));
    assert s.callers[t := c.(pc := Removing(out))][t := c.(pc := Returned(out))]
        == s.callers[t := c.(pc := Returned(out))];
    RemovedAnswer(more, s, t, out);
  }

  lemma {:induction false} RemovedAnswer(run: seq<Action>, s: State, t: CallerId, out: Outcome)
    requires t in s.callers && Reaches(run, Removed(s, t, out))
    ensures out.Answered? ==> out.resp.id == s.callers[t].id && OwnAnswer(s.served, s.callers[t], out.resp)
  {
    if out.Answered? {
      Correlation(run, t, out.resp);
    }
  }

  // ---------------------------------------------------------------- Close

  ghost predicate CanClose(s: State, k: CloserId) {
    Unlocked(s) && (k in s.closers ==> s.closers[k].CloseReturned?)
  }

  lemma {:induction false} CloseLockRun(run: seq<Action>, s: State, k: CloserId) returns (more: seq<Action>)
    requires Reaches(run, s) && CanClose(s, k)
    ensures Reaches(more, s.(closers := s.closers[k := CloseChecking], closedMu := ByCloser(k))) && run <= more
  {
    more := Two(run, s, Close(k, CloseEnter), Close(k, CloseLock));
    assert s.closers[k := CloseEntered][k := CloseChecking] == s.closers[k := CloseChecking];
  }

  lemma {:induction false} ClosedMeansChan(run: seq<Action>, s: State)
    requires Reaches(run, s) && s.closedMu.Free? && s.closed
    ensures s.chanClosed
  {
    RunInv(run);
  }

  lemma {:induction false} CloseNoopRun(run: seq<Action>, s: State, k: CloserId) returns (more: seq<Action>)
    requires Reaches(run, s) && CanClose(s, k) && s.closed
    ensures Reaches(more, s.(closers := s.closers[k := CloseReturned])) && run <= more
    ensures s.chanClosed
  {
    ClosedMeansChan(run, s);
    var locked := CloseLockRun(run, s, k);
    more := One(locked, s.(closers := s.closers[k := CloseChecking], closedMu := ByCloser(k)), Close(k, CloseNoop));
    assert s.closers[k := CloseChecking][k := CloseReturned] == s.closers[k := CloseReturned];
  }

  lemma {:induction false} CloseMarkRun(run: seq<Action>, s: State, k: CloserId) returns (more: seq<Action>)
    requires Reaches(run, s) && CanClose(s, k) && !s.closed
    ensures Reaches(more, s.(closers := s.closers[k := ChanClosed], closed := true, chanClosed := true,
                             closedMu := ByCloser(k)))
    ensures run <= more
  {
    var locked := CloseLockRun(run, s, k);
    var n := s.(closers := s.closers[k := CloseChecking], closedMu := ByCloser(k));
    more := Two(locked, n, Close(k, CloseMark), Close(k, CloseChan));
    assert s.closers[k := CloseChecking][k := Marked][k := ChanClosed] == s.closers[k := ChanClosed];
  }

  /** All callers, after the sweep has woken some of them. */
  function AllWoken(callers: Callers, woken: set<CallerId>): Callers {
    map t | t in callers :: if t in woken && callers[t].reply == [] then callers[t].(reply := [None]) else callers[t]
  }

  function Owners(pending: map<Id, CallerId>, ids: set<Id>): set<CallerId> {
    set id | id in ids && id in pending :: pending[id]
  }

  lemma WokenOnce(callers: Callers, t: CallerId)
    ensures Offered(callers, t, None) == AllWoken(callers, {t})
  {}

  lemma {:induction false} SweepOneRun(run: seq<Action>, s: State, k: CloserId, id: Id,
                                       todo: set<Id>) returns (more: seq<Action>)
    requires Reaches(run, s) && k in s.closers && s.closers[k] == Sweeping(todo) && id in todo && id in s.pending
    ensures Reaches(more, s.(callers := AllWoken(s.callers, {s.pending[id]}),
                             closers := s.closers[k := Sweeping(todo - {id})]))
    ensures run <= more
  {
    WokenOnce(s.callers, s.pending[id]);
    more := One(run, s, Close(k, SweepOne(id)));
  }

  lemma WokenTwice(callers: Callers, pending: map<Id, CallerId>, id: Id, todo: set<Id>)
    requires id in todo && id in pending
    ensures AllWoken(AllWoken(callers, {pending[id]}), Owners(pending, todo - {id}))
         == AllWoken(callers, Owners(pending, todo))
  {
    assert Owners(pending, todo) == Owners(pending, todo - {id}) + {pending[id]};
  }

  function SweptOf(s: State, k: CloserId, todo: set<Id>): State {
    s.(callers := AllWoken(s.callers, Owners(s.pending, todo)), closers := s.closers[k := Sweeping({})])
  }

  lemma SweptNothing(s: State, k: CloserId)
    requires k in s.closers && s.closers[k] == Sweeping({})
    ensures SweptOf(s, k, {}) == s
  {
    assert AllWoken(s.callers, Owners(s.pending, {})) == s.callers;
    assert s.closers[k := Sweeping({})] == s.closers;
  }

  lemma SweptRest(s: State, k: CloserId, id: Id, todo: set<Id>)
    requires id in todo && id in s.pending
    ensures var n := s.(callers := AllWoken(s.callers, {s.pending[id]}),
                        closers := s.closers[k := Sweeping(todo - {id})]);
      SweptOf(n, k, todo - {id})
         == SweptOf(s, k, todo)
  {
    WokenTwice(s.callers, s.pending, id, todo);
    assert s.closers[k := Sweeping(todo - {id})][k := Sweeping({})] == s.closers[k := Sweeping({})];
  }

  lemma {:induction false} SweepRun(run: seq<Action>, s: State, k: CloserId, todo: set<Id>) returns (more: seq<Action>)
    requires Reaches(run, s) && k in s.closers && s.closers[k] == Sweeping(todo) && todo <= s.pending.Keys
    ensures Reaches(more, SweptOf(s, k, todo)) && run <= more
    decreases |todo|
  {
    if todo == {} {
      more := run;
      SweptNothing(s, k);
    } else {
      var id :| id in todo;
      var next := SweepOneRun(run, s, k, id, todo);
      SweptRest(s, k, id, todo);
      var n := s.(callers := AllWoken(s.callers, {s.pending[id]}), closers := s.closers[k := Sweeping(todo - {id})]);
      more := SweepRun(next, n, k, todo - {id});
    }
  }

  lemma {:induction false} LockedSweepRun(run: seq<Action>, s: State, k: CloserId) returns (more: seq<Action>)
    requires Reaches(run, s) && s.pendingMu.Free? && k in s.closers && s.closers[k].ChanClosed?
    ensures Reaches(more, s.(callers := AllWoken(s.callers, s.pending.Values), closers := s.closers[k := Sweeping({})],
                             pendingMu := ByCloser(k)))
    ensures run <= more
  {
    var locked := One(run, s, Close(k, CloseLockPending));
    var n := s.(closers := s.closers[k := Sweeping(s.pending.Keys)], pendingMu := ByCloser(k));
    more := SweepRun(locked, n, k, s.pending.Keys);
    assert n.closers[k := Sweeping({})] == s.closers[k := Sweeping({})];
    assert Owners(s.pending, s.pending.Keys) == s.pending.Values;
  }

  lemma {:induction false} UnlockRun(run: seq<Action>, s: State, k: CloserId) returns (more: seq<Action>)
    requires Reaches(run, s) && k in s.closers && s.closers[k] == Sweeping({})
    ensures Reaches(more, s.(closers := s.closers[k := CloseReturned], pendingMu := Free, closedMu := Free))
    ensures run <= more
  {
    more := Two(run, s, Close(k, SweepDone), Close(k, CloseUnlock));
    assert s.closers[k := Swept][k := CloseReturned] == s.closers[k := CloseReturned];
  }

  function Closed(s: State, k: CloserId): State {
    s.(callers := AllWoken(s.callers, s.pending.Values), closers := s.closers[k := CloseReturned],
       closed := true, chanClosed := true)
  }

  lemma {:induction false} CloseAllRun(run: seq<Action>, s: State, k: CloserId) returns (more: seq<Action>)
    requires Reaches(run, s) && CanClose(s, k) && !s.closed
    ensures Reaches(more, Closed(s, k)) && run <= more
  {
    var marked := CloseMarkRun(run, s, k);
    var m := s.(closers := s.closers[k := ChanClosed], closed := true, chanClosed := true, closedMu := ByCloser(k));
    var swept := LockedSweepRun(marked, m, k);
    var n := m.(callers := AllWoken(s.callers, s.pending.Values), closers := m.closers[k := Sweeping({})],
                pendingMu := ByCloser(k));
    more := UnlockRun(swept, n, k);
    assert n.closers[k := CloseReturned] == s.closers[k := CloseReturned];
  }

  // ---------------------------------------------------------------- the receive loop

  function Found(s: State, reply: Reply): State {
    s.(recv := Handing(reply, Registered(s.pending, reply.id)), pending := s.pending - {reply.id})
  }

  function HandedOver(s: State, reply: Reply, to: Option<CallerId>, resp: Response): State {
    s.(recv := Listening, callers := Handed(s.callers, to, resp),
       resolved := s.resolved + [Resolution(reply.id, Fits(s.callers, to))])
  }

  function Delivered(s: State, reply: Reply, resp: Response): State {
    HandedOver(Found(s, reply), reply, Registered(s.pending, reply.id), resp)
  }

  lemma {:induction false} LookupRun(run: seq<Action>, s: State, reply: Reply) returns (more: seq<Action>)
    requires Reaches(run, s) && s.pendingMu.Free? && s.recv == Got(reply)
    ensures Reaches(more, Found(s, reply)) && run <= more
  {
    more := Two(run, s, Stream(RecvLock), Stream(RecvLookup));
  }

  lemma {:induction false} HandRun(run: seq<Action>, s: State, reply: Reply, to: Option<CallerId>, resp: Response)
    returns (more: seq<Action>)
    requires Reaches(run, s) && s.recv == Handing(reply, to) && Decodes(reply, resp)
    ensures Reaches(more, HandedOver(s, reply, to, resp)) && run <= more
  {
    more := One(run, s, Stream(RecvHand(resp.header)));
  }

  lemma {:induction false} DeliverRun(run: seq<Action>, s: State, reply: Reply,
                                      resp: Response) returns (more: seq<Action>)
    requires Reaches(run, s) && s.pendingMu.Free? && s.recv == Got(reply) && Decodes(reply, resp)
    ensures Reaches(more, Delivered(s, reply, resp)) && run <= more
  {
    var found := LookupRun(run, s, reply);
    more := HandRun(found, Found(s, reply), reply, Registered(s.pending, reply.id), resp);
  }

  // ---------------------------------------------------------------- what can happen

  /** A caller that has registered on a fresh connection. */
  function ReadyToSend(req: Request, uuid: Id): State {
    Inserted(Checked(Init().(callers := map[0 := Caller(req, "", NO_MSG, [], Entered)]), 0, uuid), 0)
  }

  lemma ReadyRun(req: Request, uuid: Id) returns (run: seq<Action>)
    requires ChosenId(req, uuid) != ""
    ensures Reaches(run, ReadyToSend(req, uuid))
  {
    var entered := One([], Init(), Call(0, Enter(req)));
    var s := Init().(callers := map[0 := Caller(req, "", NO_MSG, [], Entered)]);
    assert Step(Init(), Call(0, Enter(req))) == s;
    var checked := CheckRun(entered, s, 0, uuid);
    run := InsertRun(checked, Checked(s, 0, uuid), 0);
  }

  /** The state once the one message of a service has been sent, served and answered. */
  function Answering(s: State, sv: Service): State {
    s.(sendBuf := [], recv := Got(ReplyFor(sv)), served := s.served + [sv], sent := s.sent + [ReplyFor(sv)])
  }

  /** A message alone in the send buffer goes out, is served, and its reply comes in. */
  lemma {:induction false} ServeRun(run: seq<Action>, s: State, sv: Service) returns (more: seq<Action>)
    requires Reaches(run, s) && s.started && s.sendBuf == [sv.msg] && s.reqWire == [] && s.replyWire == [] && !s.cut
    requires s.sender.SenderIdle? && s.client.ClientIdle? && s.recv.Listening? && Expands(sv.msg.headers, sv.header)
    ensures Reaches(more, Answering(s, sv))
  {
    var out := SentRun(run, s, sv.msg);
    more := ServedRun(out, s.(sendBuf := [], reqWire := [sv.msg]), sv);
    assert Answering(s.(sendBuf := [], reqWire := []), sv) == Answering(s, sv);
  }

  lemma {:induction false} SentRun(run: seq<Action>, s: State, m: Msg) returns (more: seq<Action>)
    requires Reaches(run, s) && s.started && s.sendBuf == [m] && s.reqWire == [] && !s.cut && s.sender.SenderIdle?
    ensures Reaches(more, s.(sendBuf := [], reqWire := [m]))
  {
    more := Two(run, s, Stream(SenderTake), Stream(SenderPut));
    assert Step(Step(s, Stream(SenderTake)), Stream(SenderPut)) == s.(sendBuf := [], reqWire := [m]);
  }

  lemma {:induction false} ServedRun(run: seq<Action>, s: State, sv: Service) returns (more: seq<Action>)
    requires Reaches(run, s) && s.started && s.sendBuf == [] && s.reqWire == [sv.msg] && s.replyWire == [] && !s.cut
    requires s.client.ClientIdle? && s.recv.Listening? && Expands(sv.msg.headers, sv.header)
    ensures Reaches(more, Answering(s.(reqWire := []), sv))
  {
    var r := ReplyFor(sv);
    var served := Two(run, s, Stream(ClientTake), Stream(ClientReply(sv)));
    var n := s.(reqWire := [], replyWire := [r], served := s.served + [sv], sent := s.sent + [r]);
    assert Step(Step(s, Stream(ClientTake)), Stream(ClientReply(sv))) == n;
    more := One(served, n, Stream(RecvTake));
    assert Step(n, Stream(RecvTake)) == Answering(s.(reqWire := []), sv);
  }

  /** The registered caller sends, and its reply comes in. */
  lemma AskRun(req: Request, uuid: Id, sv: Service) returns (run: seq<Action>, s: State)
    requires ChosenId(req, uuid) != "" && sv.msg == MsgOf(ChosenId(req, uuid), req)
    requires Expands(sv.msg.headers, sv.header)
    ensures Reaches(run, s) && s.pendingMu.Free? && s.recv == Got(ReplyFor(sv)) && s.served == [sv]
    ensures s.callers == map[0 := Caller(req, sv.msg.id, sv.msg, [], Waiting)] && s.pending == map[sv.msg.id := 0]
  {
    var q := ReadyToSend(req, uuid);
    var ready := ReadyRun(req, uuid);
    var sent := Two(ready, q, Call(0, Send), Stream(Start));
    s := Step(Step(q, Call(0, Send)), Stream(Start));
    run := ServeRun(sent, s, sv);
    s := Answering(s, sv);
  }

  /** The counterpart of Correlation: whatever the application makes of the local
      request built from a caller's own message, which carries the caller's id or, when
      it has none, a new one, some run serves that message and returns the answer to
      that caller. */
  lemma AnswerIsPossible(req: Request, uuid: Id, sv: Service, resp: Response) returns (run: seq<Action>)
    requires var id := if req.id == "" then uuid else req.id;
      && id != ""
      && sv.msg == Msg(id, req.verb, req.path, req.query, Flattened(req.header), req.body)
    requires Expands(sv.msg.headers, sv.header) && Decodes(ReplyFor(sv), resp)
    ensures Run(run) && 0 in StateAfter(run).callers && StateAfter(run).callers[0].req == req
    ensures StateAfter(run).callers[0].pc == Returned(Answered(resp)) && StateAfter(run).served == [sv]
  {
    var asked, s := AskRun(req, uuid, sv);
    var r := ReplyFor(sv);
    var delivered := DeliverRun(asked, s, r, resp);
    var d := Delivered(s, r, resp);
    assert d.callers[0] == s.callers[0].(reply := [Some(resp)]);
    var received := One(delivered, d, Call(0, Receive));
    run := RemoveRun(received, Step(d, Call(0, Receive)), 0, Answered(resp));
  }

  /** The check and the send are separate steps: when a Close falls between them, the
      caller's send meets a closed channel. */
  lemma PanicIsPossible(req: Request, uuid: Id) returns (run: seq<Action>)
    requires (if req.id == "" then uuid else req.id) != ""
    ensures Run(run) && 0 in StateAfter(run).callers && StateAfter(run).callers[0].req == req
    ensures Enabled(StateAfter(run), Call(0, SendOnClosed))
    ensures CallerStep(StateAfter(run), 0, SendOnClosed).callers[0].pc == Leaving(Panicked)
  {
    var registered := ReadyRun(req, uuid);
    run := CloseAllRun(registered, ReadyToSend(req, uuid), AdminThread(0));
    assert Closed(ReadyToSend(req, uuid), AdminThread(0)).callers[0].pc == Sending;
  }
}
