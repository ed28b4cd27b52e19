/** GrpcTunnelConn of grpc_tunnel.go in its own form: an object whose methods update
    its fields. Each method is one critical section, one channel operation or one
    call to Close, and is proved to be a run of the steps of module Tunnel, so what
    is proved of every run holds of the object after any sequence of calls. */
module Conn {
  import opened Text
  import opened Headers
  import opened Connector
  import opened Tunnel
  import opened TunnelTheorems
  import opened ConnRuns

  datatype Pushed = Sent | Full | OnClosed

  type Replies = map<CallerId, seq<Option<Response>>>

  /** What the sweep leaves in the reply channels. */
  ghost function Woken(replies: Replies, woken: set<CallerId>): Replies {
    map t | t in replies :: if t in woken && replies[t] == [] then [None] else replies[t]
  }

  ghost predicate SameReplies(replies: Replies, callers: Callers) {
    replies.Keys == callers.Keys && forall t :: t in replies ==> replies[t] == callers[t].reply
  }

  /** What an answer does to the channels. */
  ghost function Filled(replies: Replies, to: Option<CallerId>, v: Response): Replies {
    if to.Some? && to.value in replies && replies[to.value] == [] then replies[to.value := [Some(v)]] else replies
  }

  lemma SameFilled(replies: Replies, callers: Callers,
                   to: Option<CallerId>, v: Response)
    requires SameReplies(replies, callers)
    ensures SameReplies(Filled(replies, to, v), Handed(callers, to, v))
  {
    assert forall t :: t in replies <==> t in callers.Keys;
  }

  class GrpcTunnelConn {
    const remoteAddr: string
    var closed: bool
    var chanClosed: bool
    var sendBuf: seq<Msg>
    var pending: map<Id, CallerId>
    /** The capacity-1 reply channel of each call. */
    var replies: Replies

    ghost var model: State
    ghost var trace: seq<Action>

    ghost predicate Traced()
      reads this
    {
      Reaches(trace, model)
    }

    ghost predicate Mirrors()
      reads this
    {
      && closed == model.closed && chanClosed == model.chanClosed
      && sendBuf == model.sendBuf && pending == model.pending
      && SameReplies(replies, model.callers)
    }

    /** Between two calls the object is the state of its run, and no lock is held. */
    ghost predicate Valid()
      reads this
    {
      Traced() && Mirrors() && model.closedMu.Free? && model.pendingMu.Free?
    }

    constructor (remoteAddr: string)
      ensures Valid() && model == Init() && this.remoteAddr == remoteAddr
      ensures !closed && sendBuf == [] && pending == map[] && replies == map[]
    {
      this.remoteAddr := remoteAddr;
      closed, chanClosed, sendBuf, pending, replies := false, false, [], map[], map[];
      model, trace := Init(), [];
    }

    /** The run goes on to a longer one. */
    ghost method GoOn(more: seq<Action>, s: State)
      requires Reaches(more, s) && trace <= more
      modifies this`model, this`trace
      ensures Traced() && trace == more && model == s
    {
      trace, model := more, s;
    }

    /** One step of the run. */
    ghost method Do(a: Action)
      requires Traced() && Enabled(model, a) && FreshStep(model, a)
      modifies this`model, this`trace
      ensures Traced() && model == Step(old(model), a) && trace == old(trace) + [a]
    {
      Extend(trace, a);
      GoOn(trace + [a], Step(model, a));
    }

    ghost predicate At(t: CallerId, pc: CallerPc)
      reads this
    {
      t in model.callers && model.callers[t].pc == pc
    }

    // -------------------------------------------------------------- EnqueueRequest, step by step

    /** A handler calls EnqueueRequest. */
    method Call(t: CallerId, req: Request)
      requires Valid() && t !in replies
      modifies this`replies, this`model, this`trace
      ensures Valid() && At(t, Entered) && replies == old(replies)[t := []]
      ensures model == Step(old(model), Action.Call(t, Enter(req)))
    {
      Do(Action.Call(t, Enter(req)));
      replies := replies[t := []];
    }

    ghost method Check(t: CallerId, uuid: Id)
      requires Valid() && At(t, Entered)
      requires ChosenId(model.callers[t].req, uuid) != "" && ChosenId(model.callers[t].req, uuid) !in model.owner
      modifies this`model, this`trace
      ensures Valid() && model == Checked(old(model), t, uuid) && t in model.callers
      ensures CheckedCaller(model.callers[t], closed, old(model.callers[t].req), uuid)
    {
      ghost var more := CheckRun(trace, model, t, uuid);
      CheckedIs(model, t, uuid);
      GoOn(more, Checked(model, t, uuid));
    }

    /** The check of `closed` under its lock, and the choice of the id: the request's
        own, or the new one when it has none. */
    method CheckOpen(t: CallerId, req: Request, uuid: Id) returns (open: bool, id: Id)
      requires Valid() && At(t, Entered) && model.callers[t].req == req
      requires var chosen := if req.id == "" then uuid else req.id; chosen != "" && chosen !in model.owner
      modifies this`model, this`trace
      ensures Valid() && open == !closed && model == Checked(old(model), t, uuid)
      ensures At(t, if open then Registering else Returned(Unavailable)) && model.callers[t].req == req
      ensures open ==> id == model.callers[t].id && (req.id == "" ==> id == uuid) && (req.id != "" ==> id == req.id)
    {
      open, id := !closed, if req.id == "" then uuid else req.id;
      Check(t, uuid);
    }

    /** Register the reply channel. */
    method Register(t: CallerId, id: Id)
      requires Valid() && At(t, Registering) && model.callers[t].id == id
      modifies this`pending, this`model, this`trace
      ensures Valid() && At(t, Sending) && pending == old(pending)[id := t] && model == Inserted(old(model), t)
      ensures model.callers[t].id == id && model.callers[t].req == old(model.callers[t].req)
      ensures var req := model.callers[t].req;
        model.callers[t].msg == Msg(id, req.verb, req.path, req.query, Flattened(req.header), req.body)
    {
      pending := pending[id := t];
      ghost var more := InsertRun(trace, model, t);
      GoOn(more, Inserted(model, t));
    }

    /** The send case of the first select, when it can fire. */
    method Push(t: CallerId, msg: Msg) returns (r: Pushed)
      requires Valid() && At(t, Sending) && model.callers[t].msg == msg
      modifies this`sendBuf, this`model, this`trace
      ensures Valid() && sendBuf == old(sendBuf) + (if r.Sent? then [msg] else [])
      ensures r == if chanClosed then OnClosed else if |old(sendBuf)| < 64 then Sent else Full
      ensures At(t, match r case Sent => Waiting case Full => Sending case OnClosed => Leaving(Panicked))
      ensures model == match r
        case Sent => old(Step(model, Action.Call(t, Send)))
        case Full => old(model)
        case OnClosed => old(Step(model, Action.Call(t, SendOnClosed)))
    {
      if chanClosed {
        Do(Action.Call(t, SendOnClosed));
        return OnClosed;
      }
      if |sendBuf| == SEND_CAPACITY {
        return Full;
      }
      assert |sendBuf| < SEND_CAPACITY by {
        BufferBounded(trace);
      }
      sendBuf := sendBuf + [msg];
      Do(Action.Call(t, Send));
      return Sent;
    }

    /** The receive case of the second select, when it can fire: the response, or
        nothing for the nil of Close. */
    method Await(t: CallerId) returns (r: Option<Option<Response>>)
      requires Valid() && At(t, Waiting)
      modifies this`replies, this`model, this`trace
      ensures Valid()
      ensures if old(replies[t]) == [] then r == None && replies == old(replies) && At(t, Waiting)
              else r == Some(old(replies[t])[0]) && replies == old(replies)[t := old(replies[t])[1..]]
                   && At(t, Leaving(if r.value.Some? then Answered(r.value.value) else Unavailable))
      ensures model == if r == None then old(model) else old(Step(model, Action.Call(t, Receive)))
    {
      if replies[t] == [] {
        return None;
      }
      r := Some(replies[t][0]);
      replies := replies[t := replies[t][1..]];
      Do(Action.Call(t, Receive));
    }

    /** The cancellation and timeout cases of the two selects: they win whenever they
        fire, whatever is in the caller's channel. */
    method Abandon(t: CallerId)
      requires Valid() && (At(t, Sending) || At(t, Waiting))
      modifies this`model, this`trace
      ensures Valid() && At(t, Leaving(Unavailable))
      ensures model == old(Step(model, Action.Call(t, if model.callers[t].pc.Sending? then CancelSend else GiveUp)))
    {
      Do(Action.Call(t, if model.callers[t].pc.Sending? then CancelSend else GiveUp));
    }

    /** The deferred removal from `pending`; whoever then returns with an answer has
        the answer to its own request. */
    method Cleanup(t: CallerId, id: Id, out: Outcome)
      requires Valid() && At(t, Leaving(out)) && model.callers[t].id == id
      modifies this`pending, this`model, this`trace
      ensures Valid() && At(t, Returned(out)) && pending == old(pending) - {id} && model == Removed(old(model), t, out)
      ensures out.Answered? ==> out.resp.id == id && OwnAnswer(model.served, model.callers[t], out.resp)
    {
      pending := pending - {id};
      ghost var more := RemoveRun(trace, model, t, out);
      GoOn(more, Removed(model, t, out));
    }

    // -------------------------------------------------------------- Close

    /** No call of k to Close is still running. */
    ghost predicate Idle(k: CloserId)
      reads this
    {
      k in model.closers ==> model.closers[k].CloseReturned?
    }

    /** The first call closes the channel and wakes every registered call that has
        no reply yet; any later one changes nothing. */
    method Close(ghost k: CloserId)
      requires Valid() && Idle(k)
      modifies this`closed, this`chanClosed, this`replies, this`model, this`trace
      ensures Valid() && closed && chanClosed
      ensures replies == (if old(closed) then old(replies) else Woken(old(replies), pending.Values))
      ensures replies.Keys == old(replies.Keys) && forall t :: t in replies ==>
        replies[t] == if !old(closed) && t in pending.Values && old(replies)[t] == [] then [None] else old(replies)[t]
      ensures model == if old(closed) then old(model.(closers := model.closers[k := CloseReturned]))
                       else Closed(old(model), k)
    {
      if closed {
        ghost var more := CloseNoopRun(trace, model, k);
        GoOn(more, model.(closers := model.closers[k := CloseReturned]));
        return;
      }
      ghost var more := CloseAllRun(trace, model, k);
      closed := true;
      chanClosed := true;
      Sweep();
      GoOn(more, Closed(model, k));
    }

    /** The loop of Close over `pending`. */
    method Sweep()
      modifies this`replies
      ensures replies == Woken(old(replies), pending.Values) && replies.Keys == old(replies.Keys)
      ensures forall t :: t in replies ==>
        replies[t] == if t in pending.Values && old(replies)[t] == [] then [None] else old(replies)[t]
    {
      var todo := pending.Keys;
      while todo != {}
        invariant todo <= pending.Keys
        invariant replies == Woken(old(replies), set id | id in pending && id !in todo :: pending[id])
        decreases |todo|
      {
        var id :| id in todo;
        var t := pending[id];
        if t in replies && replies[t] == [] {
          replies := replies[t := [None]];
        }
        todo := todo - {id};
      }
      assert (set id | id in pending && id !in todo :: pending[id]) == pending.Values;
    }

    // -------------------------------------------------------------- the receive loop

    /** The response made of a reply before any lock is taken. */
    static method Rebuild(reply: Reply) returns (resp: Response)
      ensures Decodes(reply, resp) && Expands(reply.headers, resp.header)
      ensures resp.id == reply.id && resp.status == reply.status && resp.body == reply.body
    {
      var header := Expand(reply.headers);
      resp := Rebuilt(reply, header);
    }

    /** The locked lookup and removal of the channel registered for a reply. */
    method LookUp(reply: Reply) returns (to: Option<CallerId>)
      requires Valid() && model.recv == Got(reply)
      modifies this`pending, this`model, this`trace
      ensures to == if reply.id in old(pending) then Some(old(pending)[reply.id]) else None
      ensures Valid() && pending == old(pending) - {reply.id}
      ensures model == Found(old(model), reply)
    {
      to := if reply.id in pending then Some(pending[reply.id]) else None;
      pending := pending - {reply.id};
      ghost var more := LookupRun(trace, model, reply);
      GoOn(more, Found(model, reply));
    }

    /** The non-blocking send to the channel found: a Close may have come first. */
    method HandOver(reply: Reply, to: Option<CallerId>, resp: Response)
      requires Valid() && model.recv == Handing(reply, to) && Decodes(reply, resp)
      modifies this`replies, this`model, this`trace
      ensures Valid() && replies == Filled(old(replies), to, resp) && replies.Keys == old(replies.Keys)
      ensures forall t :: t in replies ==>
        replies[t] == if to == Some(t) && old(replies)[t] == [] then [Some(resp)] else old(replies)[t]
      ensures model == HandedOver(old(model), reply, to, resp)
    {
      SameFilled(replies, model.callers, to, resp);
      ghost var more := HandRun(trace, model, reply, to, resp);
      Offer(to, resp);
      GoOn(more, HandedOver(model, reply, to, resp));
    }

    /** Fill the channel found, if it is there and empty. */
    method Offer(to: Option<CallerId>, resp: Response)
      modifies this`replies
      ensures replies == Filled(old(replies), to, resp) && replies.Keys == old(replies.Keys)
      ensures forall t :: t in replies ==>
        replies[t] == if to == Some(t) && old(replies)[t] == [] then [Some(resp)] else old(replies)[t]
    {
      if to.Some? && to.value in replies && replies[to.value] == [] {
        replies := replies[to.value := [Some(resp)]];
      }
    }

    /** The sender goroutine takes a message, or stops once the channel is closed
        and empty. */
    method TakeForSending() returns (m: Option<Msg>)
      requires Valid() && model.started && model.sender.SenderIdle?
      modifies this`sendBuf, this`model, this`trace
      ensures Valid()
      ensures if old(sendBuf) != [] then m == Some(old(sendBuf)[0]) && sendBuf == old(sendBuf)[1..]
              else m == None && sendBuf == []
      ensures model == if m.Some? then old(Step(model, Action.Stream(SenderTake)))
                       else if chanClosed then old(Step(model, Action.Stream(SenderStop))) else old(model)
    {
      if sendBuf == [] {
        if chanClosed {
          Do(Action.Stream(SenderStop));
        }
        return None;
      }
      m := Some(sendBuf[0]);
      sendBuf := sendBuf[1..];
      Do(Action.Stream(SenderTake));
    }
  }

  /** Two handlers pass the check, each with the id of its request or a new one. */
  method TwoHandlersCheck(c: GrpcTunnelConn, t: CallerId, u: CallerId, a: Request, b: Request, x: Id, y: Id)
    returns (i: Id, j: Id)
    requires c.Valid() && !c.closed && t != u && t !in c.replies && u !in c.replies
    requires NewIds(c.model, a, b, x, y)
    modifies c
    ensures c.Valid() && !c.closed && c.model.closers == old(c.model.closers)
    ensures i == (if a.id == "" then x else a.id) && j == (if b.id == "" then y else b.id)
    ensures Stands(c.model, t, CallerPc.Registering, i, a) && Stands(c.model, u, CallerPc.Registering, j, b)
  {
    c.Call(t, a);
    c.Call(u, b);
    var open;
    open, i := c.CheckOpen(t, a, x);
    assert c.At(u, Entered) && c.model.callers[u].req == b;
    open, j := c.CheckOpen(u, b, y);
  }

  /** The ids the two requests will have are two that nobody has used. */
  ghost predicate NewIds(s: State, a: Request, b: Request, x: Id, y: Id) {
    var i := if a.id == "" then x else a.id;
    var j := if b.id == "" then y else b.id;
    i != "" && j != "" && i != j && i !in s.owner && j !in s.owner
  }

  /** Caller t stands at pc with this request under this id. */
  ghost predicate Stands(s: State, t: CallerId, pc: CallerPc, id: Id, req: Request) {
    t in s.callers && s.callers[t].pc == pc && s.callers[t].id == id && s.callers[t].req == req
    && (pc.Sending? ==> s.callers[t].msg == MsgOf(id, req))
  }

  lemma CloseLeavesCallers(s: State, k: CloserId, t: CallerId, pc: CallerPc, id: Id, req: Request)
    requires Stands(s, t, pc, id, req)
    ensures Stands(Closed(s, k), t, pc, id, req)
  {
  }

  method RegisterThenClose(c: GrpcTunnelConn, t: CallerId, u: CallerId, i: Id, j: Id, ghost a: Request,
                           ghost b: Request, ghost k: CloserId)
    requires c.Valid() && !c.closed && c.Idle(k) && t != u
    requires Stands(c.model, t, CallerPc.Registering, i, a) && Stands(c.model, u, CallerPc.Registering, j, b)
    modifies c
    ensures c.Valid() && c.chanClosed
    ensures Stands(c.model, t, Sending, i, a) && Stands(c.model, u, CallerPc.Registering, j, b)
  {
    c.Register(t, i);
    ghost var s := c.model;
    assert Stands(s, t, Sending, i, a) && Stands(s, u, CallerPc.Registering, j, b);
    c.Close(k);
    CloseLeavesCallers(s, k, t, Sending, i, a);
    CloseLeavesCallers(s, k, u, CallerPc.Registering, j, b);
  }

  /** A Close between registration and send, while the other has not registered yet. */
  method SendAfterClose(c: GrpcTunnelConn, t: CallerId, u: CallerId, i: Id, j: Id, a: Request, ghost b: Request,
                        ghost k: CloserId)
    returns (r: Pushed)
    requires c.Valid() && !c.closed && c.Idle(k) && t != u
    requires Stands(c.model, t, CallerPc.Registering, i, a) && Stands(c.model, u, CallerPc.Registering, j, b)
    modifies c
    ensures c.Valid() && c.chanClosed && r == OnClosed
    ensures c.At(t, Leaving(Panicked)) && Stands(c.model, u, CallerPc.Registering, j, b)
  {
    RegisterThenClose(c, t, u, i, j, a, b, k);
    r := c.Push(t, MsgOf(i, a));
  }

  lemma PanicLeavesOthers(s: State, t: CallerId, u: CallerId)
    requires t != u && t in s.callers && CallerEnabled(s, u, SendOnClosed)
    ensures var n := Step(s, Action.Call(u, SendOnClosed)); t in n.callers && n.callers[t] == s.callers[t]
  {}

  /** A handler that registers and sends after the channel is closed. */
  method LateSend(c: GrpcTunnelConn, t: CallerId, u: CallerId, j: Id, b: Request, ghost out: Outcome)
    returns (r: Pushed)
    requires c.Valid() && c.chanClosed && t != u && c.At(t, Leaving(out))
    requires Stands(c.model, u, CallerPc.Registering, j, b)
    modifies c
    ensures c.Valid() && r == OnClosed && c.At(u, Leaving(Panicked)) && c.At(t, Leaving(out))
  {
    LateRegister(c, t, u, j, b, out);
    PanicLeavesOthers(c.model, t, u);
    r := c.Push(u, MsgOf(j, b));
  }

  method LateRegister(c: GrpcTunnelConn, t: CallerId, u: CallerId, j: Id, ghost b: Request, ghost out: Outcome)
    requires c.Valid() && c.chanClosed && t != u && c.At(t, Leaving(out))
    requires Stands(c.model, u, CallerPc.Registering, j, b)
    modifies c
    ensures c.Valid() && c.chanClosed && Stands(c.model, u, Sending, j, b) && c.At(t, Leaving(out))
  {
    c.Register(u, j);
  }

  /** A Close then runs between the registration of the one and of the other, and the
      send of each meets the closed channel. */
  method TwoHandlersRace(c: GrpcTunnelConn, t: CallerId, u: CallerId, a: Request, b: Request, x: Id, y: Id,
                         ghost k: CloserId)
    returns (first: Pushed, second: Pushed)
    requires c.Valid() && !c.closed && c.Idle(k) && t != u && t !in c.replies && u !in c.replies
    requires NewIds(c.model, a, b, x, y)
    modifies c
    ensures c.Valid() && first == second == OnClosed
    ensures c.At(t, Leaving(Panicked)) && c.At(u, Leaving(Panicked))
  {
    var i, j := TwoHandlersCheck(c, t, u, a, b, x, y);
    first := SendAfterClose(c, t, u, i, j, a, b, k);
    second := LateSend(c, t, u, j, b, Panicked);
  }
}
