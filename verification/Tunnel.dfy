/** One tunnel connection as a labelled transition system (grpc_tunnel.go,
    connector.go): any number of EnqueueRequest callers, any number of Close
    calls, the sender goroutine, the receive loop, the two wires of the stream
    and the client at the other end. An action is one atomic step of one of
    them: taking a lock, a critical section that ends by releasing it, or one
    channel operation. */
module Tunnel {
  import opened Text
  import opened Headers
  import opened Connector

  type Id = string
  type CallerId = nat

  const SEND_CAPACITY := 64

  /** A call to Close is made by a stream's own thread or by another one. */
  datatype CloserId = StreamThread(stream: nat) | AdminThread(admin: nat)

  datatype Request = Request(id: Id, verb: string, path: string, query: string, header: Header, body: Bytes)
  datatype Response = Response(id: Id, status: int, header: Header, body: Bytes)

  /** What EnqueueRequest ends with: (r, false), (nil, true), or a panic. */
  datatype Outcome = Answered(resp: Response) | Unavailable | Panicked

  datatype CallerPc =
    | Entered                      // about to lock closedMu
    | Checking                     // holds closedMu
    | Registering                  // id chosen, about to lock pendingMu
    | Inserting                    // holds pendingMu
    | Sending                      // at the select that sends
    | Waiting                      // at the select that waits
    | Leaving(out: Outcome)        // deferred cleanup: about to lock pendingMu
    | Removing(out: Outcome)       // deferred cleanup: holds pendingMu
    | Returned(out: Outcome)

  /** `reply` is the content of the caller's capacity-1 reply channel; a None
      inside it is the nil that Close puts there. The id is "" until chosen, and
      `msg` is meaningful once the message to send has been built. */
  datatype Caller = Caller(req: Request, id: Id, msg: Msg, reply: seq<Option<Response>>, pc: CallerPc)

  const NO_MSG := Msg("", "", "", "", map[], [])

  datatype ClosePc =
    | CloseEntered                 // about to lock closedMu
    | CloseChecking                // holds closedMu from here to CloseReturned
    | Marked                       // closed set, sendCh not yet closed
    | ChanClosed                   // sendCh closed, about to lock pendingMu
    | Sweeping(todo: set<Id>)      // holds pendingMu too
    | Swept                        // pendingMu released
    | CloseReturned

  type Callers = map<CallerId, Caller>
  type Closers = map<CloserId, ClosePc>

  datatype SenderPc = SenderIdle | SenderHolds(msg: Msg) | SenderStopped
  datatype RecvPc =
    | Listening
    | Got(reply: Reply)                                   // about to lock pendingMu
    | LookingUp(reply: Reply)                             // holds pendingMu
    | Handing(reply: Reply, to: Option<CallerId>)         // about to fill the channel found
    | RecvEnded
  datatype ClientPc = ClientIdle | ClientBusy(msg: Msg) | ClientGone

  datatype Owner = Free | ByCaller(caller: CallerId) | ByCloser(closer: CloserId) | ByRecv

  /** How one reply taken off the wire ended: put into its caller's channel, or
      dropped because nobody was registered or the channel was full. */
  datatype Resolution = Resolution(id: Id, delivered: bool)

  /** `pending` maps an id to the caller whose channel is registered for it. From
      `owner` on the fields are history that no code step reads: who chose each
      id, the request accepted under it, the order of acceptance, how each reply
      ended, what the client served and sent, whether the stream failed, a reply was
      repeated, or the wires were cut. A cut wire delivers nothing put on it later. */
  datatype State = State(
    closed: bool,
    chanClosed: bool,
    sendBuf: seq<Msg>,
    pending: map<Id, CallerId>,
    closedMu: Owner,
    pendingMu: Owner,
    callers: Callers,
    closers: Closers,
    started: bool,
    sender: SenderPc,
    recv: RecvPc,
    client: ClientPc,
    reqWire: seq<Msg>,
    replyWire: seq<Reply>,
    owner: map<Id, CallerId>,
    asked: map<Id, Msg>,
    accepted: seq<Id>,
    resolved: seq<Resolution>,
    served: seq<Service>,
    sent: seq<Reply>,
    broken: bool,
    repeated: bool,
    cut: bool)

  function Init(): State {
    State(false, false, [], map[], Free, Free, map[], map[], false, SenderIdle, Listening, ClientIdle,
          [], [], map[], map[], [], [], [], [], false, false, false)
  }

  datatype CallerAction =
    | Enter(req: Request)
    | LockCheck
    | SeeClosed
    | SeeOpen(uuid: Id)
    | LockInsert
    | Insert
    | Send
    | SendOnClosed
    | CancelSend
    | Receive
    | GiveUp                       // timeout or cancellation while waiting
    | LockRemove
    | Remove

  datatype CloserAction =
    | CloseEnter
    | CloseLock
    | CloseNoop
    | CloseMark
    | CloseChan
    | CloseLockPending
    | SweepOne(id: Id)
    | SweepDone
    | CloseUnlock

  datatype StreamAction =
    | Start                        // the register ack is sent: both loops begin
    | AckFail                      // the register ack cannot be sent
    | SenderTake
    | SenderPut
    | SenderStop
    | SenderFail
    | RecvTake
    | RecvLock
    | RecvLookup
    | RecvHand(header: Header)     // the header rebuilt from the reply
    | RecvFail
    | ClientTake
    | ClientReply(sv: Service)
    | ClientFail
    | ClientRepeat(which: nat)     // a misbehaving client sends an old reply again
    | WireLoss(reqs: nat, reps: nat)   // the stream breaks, the tails of both wires are lost

  datatype Action =
    | Call(t: CallerId, ca: CallerAction)
    | Close(k: CloserId, cl: CloserAction)
    | Stream(st: StreamAction)

  // ---------------------------------------------------------------- callers

  function ChosenId(req: Request, uuid: Id): Id {
    if req.id == "" then uuid else req.id
  }

  function MsgOf(id: Id, req: Request): Msg {
    Msg(id, req.verb, req.path, req.query, Flattened(req.header), req.body)
  }

  predicate CallerEnabled(s: State, t: CallerId, a: CallerAction) {
    if a.Enter? then t !in s.callers
    else
      t in s.callers &&
      var c := s.callers[t];
      match a
      case Enter(_) => false
      case LockCheck => c.pc.Entered? && s.closedMu.Free?
      case SeeClosed => c.pc.Checking? && s.closed
      case SeeOpen(uuid) => c.pc.Checking? && !s.closed
      case LockInsert => c.pc.Registering? && s.pendingMu.Free?
      case Insert => c.pc.Inserting?
      case Send => c.pc.Sending? && !s.chanClosed && |s.sendBuf| < SEND_CAPACITY
      case SendOnClosed => c.pc.Sending? && s.chanClosed
      case CancelSend => c.pc.Sending?
      case Receive => c.pc.Waiting? && c.reply != []
      case GiveUp => c.pc.Waiting?
      case LockRemove => c.pc.Leaving? && s.pendingMu.Free?
      case Remove => c.pc.Removing?
  }

  function CallerStep(s: State, t: CallerId, a: CallerAction): State
    requires CallerEnabled(s, t, a)
  {
    if a.Enter? then s.(callers := s.callers[t := Caller(a.req, "", NO_MSG, [], Entered)])
    else
      var c := s.callers[t];
      match a
      case LockCheck => s.(callers := s.callers[t := c.(pc := Checking)], closedMu := ByCaller(t))
      case SeeClosed => s.(callers := s.callers[t := c.(pc := Returned(Unavailable))], closedMu := Free)
      case SeeOpen(uuid) =>
        var id := ChosenId(c.req, uuid);
        s.(callers := s.callers[t := c.(id := id, pc := Registering)], closedMu := Free, owner := s.owner[id := t])
      case LockInsert => s.(callers := s.callers[t := c.(pc := Inserting)], pendingMu := ByCaller(t))
      case Insert =>
        s.(callers := s.callers[t := c.(msg := MsgOf(c.id, c.req), pc := Sending)],
           pendingMu := Free, pending := s.pending[c.id := t])
      case Send =>
        s.(callers := s.callers[t := c.(pc := Waiting)],
           sendBuf := s.sendBuf + [c.msg], asked := s.asked[c.id := c.msg], accepted := s.accepted + [c.id])
      case SendOnClosed => s.(callers := s.callers[t := c.(pc := Leaving(Panicked))])
      case CancelSend => s.(callers := s.callers[t := c.(pc := Leaving(Unavailable))])
      case Receive =>
        var out := if c.reply[0].None? then Unavailable else Answered(c.reply[0].value);
        s.(callers := s.callers[t := c.(reply := c.reply[1..], pc := Leaving(out))])
      case GiveUp => s.(callers := s.callers[t := c.(pc := Leaving(Unavailable))])
      case LockRemove => s.(callers := s.callers[t := c.(pc := Removing(c.pc.out))], pendingMu := ByCaller(t))
      case Remove =>
        s.(callers := s.callers[t := c.(pc := Returned(c.pc.out))], pendingMu := Free, pending := s.pending - {c.id})
  }

  // ---------------------------------------------------------------- Close

  predicate CloserEnabled(s: State, k: CloserId, a: CloserAction) {
    if a.CloseEnter? then k in s.closers ==> s.closers[k].CloseReturned?
    else
      k in s.closers &&
      var pc := s.closers[k];
      match a
      case CloseEnter => false
      case CloseLock => pc.CloseEntered? && s.closedMu.Free?
      case CloseNoop => pc.CloseChecking? && s.closed
      case CloseMark => pc.CloseChecking? && !s.closed
      case CloseChan => pc.Marked?
      case CloseLockPending => pc.ChanClosed? && s.pendingMu.Free?
      case SweepOne(id) => pc.Sweeping? && id in pc.todo
      case SweepDone => pc.Sweeping? && pc.todo == {}
      case CloseUnlock => pc.Swept?
  }

  /** A non-blocking send to a reply channel: `select { case ch <- v: default: }`. */
  function Offered(callers: Callers, t: CallerId, v: Option<Response>): Callers {
    if t in callers && callers[t].reply == [] then callers[t := callers[t].(reply := [v])] else callers
  }

  /** There is a channel and it has room. */
  predicate Fits(callers: Callers, to: Option<CallerId>) {
    to.Some? && to.value in callers && callers[to.value].reply == []
  }

  function Handed(callers: Callers, to: Option<CallerId>, v: Response): Callers {
    if to.Some? then Offered(callers, to.value, Some(v)) else callers
  }

  function CloserStep(s: State, k: CloserId, a: CloserAction): State
    requires CloserEnabled(s, k, a)
  {
    match a
    case CloseEnter => s.(closers := s.closers[k := CloseEntered])
    case CloseLock => s.(closers := s.closers[k := CloseChecking], closedMu := ByCloser(k))
    case CloseNoop => s.(closers := s.closers[k := CloseReturned], closedMu := Free)
    case CloseMark => s.(closers := s.closers[k := Marked], closed := true)
    case CloseChan => s.(closers := s.closers[k := ChanClosed], chanClosed := true)
    case CloseLockPending => s.(closers := s.closers[k := Sweeping(s.pending.Keys)], pendingMu := ByCloser(k))
    case SweepOne(id) =>
      s.(callers := if id in s.pending then Offered(s.callers, s.pending[id], None) else s.callers,
         closers := s.closers[k := Sweeping(s.closers[k].todo - {id})])
    case SweepDone => s.(closers := s.closers[k := Swept], pendingMu := Free)
    case CloseUnlock => s.(closers := s.closers[k := CloseReturned], closedMu := Free)
  }

  // ---------------------------------------------------------------- the stream

  /** The response that the receive loop makes of a reply. */
  function Rebuilt(r: Reply, header: Header): Response {
    Response(r.id, r.status, header, r.body)
  }

  predicate Decodes(r: Reply, resp: Response) {
    Expands(r.headers, resp.header) && resp == Rebuilt(r, resp.header)
  }

  function Registered(pending: map<Id, CallerId>, id: Id): Option<CallerId> {
    if id in pending then Some(pending[id]) else None
  }

  function Put<T>(wire: seq<T>, cut: bool, m: T): seq<T> {
    if cut then wire else wire + [m]
  }

  predicate StreamEnabled(s: State, a: StreamAction) {
    match a
    case Start => !s.started && s.recv.Listening?
    case AckFail => !s.started && s.recv.Listening?
    case SenderTake => s.started && s.sender.SenderIdle? && s.sendBuf != []
    case SenderPut => s.sender.SenderHolds?
    case SenderStop => s.started && s.sender.SenderIdle? && s.sendBuf == [] && s.chanClosed
    case SenderFail => s.sender.SenderHolds?
    case RecvTake => s.started && s.recv.Listening? && s.replyWire != []
    case RecvLock => s.recv.Got? && s.pendingMu.Free?
    case RecvLookup => s.recv.LookingUp?
    case RecvHand(header) => s.recv.Handing? && Expands(s.recv.reply.headers, header)
    case RecvFail => s.started && s.recv.Listening?
    case ClientTake => s.client.ClientIdle? && s.reqWire != []
    case ClientReply(sv) => s.client.ClientBusy? && sv.msg == s.client.msg && Expands(sv.msg.headers, sv.header)
    case ClientFail => !s.client.ClientGone?
    case ClientRepeat(which) => which < |s.sent|
    case WireLoss(reqs, reps) => reqs <= |s.reqWire| && reps <= |s.replyWire|
  }

  function StreamStep(s: State, a: StreamAction): State
    requires StreamEnabled(s, a)
  {
    match a
    case Start => s.(started := true)
    case AckFail => s.(recv := RecvEnded, broken := true)
    case SenderTake => s.(sender := SenderHolds(s.sendBuf[0]), sendBuf := s.sendBuf[1..])
    case SenderPut => s.(sender := SenderIdle, reqWire := Put(s.reqWire, s.cut, s.sender.msg))
    case SenderStop => s.(sender := SenderStopped)
    case SenderFail => s.(sender := SenderStopped, broken := true)
    case RecvTake => s.(recv := Got(s.replyWire[0]), replyWire := s.replyWire[1..])
    case RecvLock => s.(recv := LookingUp(s.recv.reply), pendingMu := ByRecv)
    case RecvLookup =>
      var id := s.recv.reply.id;
      s.(recv := Handing(s.recv.reply, Registered(s.pending, id)), pending := s.pending - {id}, pendingMu := Free)
    case RecvHand(header) =>
      var r, to := s.recv.reply, s.recv.to;
      s.(recv := Listening, callers := Handed(s.callers, to, Rebuilt(r, header)),
         resolved := s.resolved + [Resolution(r.id, Fits(s.callers, to))])
    case RecvFail => s.(recv := RecvEnded, broken := true)
    case ClientTake => s.(client := ClientBusy(s.reqWire[0]), reqWire := s.reqWire[1..])
    case ClientReply(sv) =>
      var r := ReplyFor(sv);
      s.(client := ClientIdle, replyWire := Put(s.replyWire, s.cut, r), served := s.served + [sv], sent := s.sent + [r])
    case ClientFail => s.(client := ClientGone, broken := true)
    case ClientRepeat(which) => s.(replyWire := Put(s.replyWire, s.cut, s.sent[which]), repeated := true)
    case WireLoss(reqs, reps) =>
      s.(reqWire := s.reqWire[..reqs], replyWire := s.replyWire[..reps], broken := true, cut := true)
  }

  // ---------------------------------------------------------------- runs

  predicate Enabled(s: State, a: Action) {
    match a
    case Call(t, ca) => CallerEnabled(s, t, ca)
    case Close(k, cl) => CloserEnabled(s, k, cl)
    case Stream(st) => StreamEnabled(s, st)
  }

  function Step(s: State, a: Action): State
    requires Enabled(s, a)
  {
    match a
    case Call(t, ca) => CallerStep(s, t, ca)
    case Close(k, cl) => CloserStep(s, k, cl)
    case Stream(st) => StreamStep(s, st)
  }

  /** The id a caller picks is a fresh, non-empty one (a new UUID). */
  predicate FreshStep(s: State, a: Action)
    requires Enabled(s, a)
  {
    a.Call? && a.ca.SeeOpen? ==>
      var id := ChosenId(s.callers[a.t].req, a.ca.uuid);
      id != "" && id !in s.owner
  }

  /** A step that is not enabled does not happen. */
  function Perform(s: State, a: Action): State {
    if Enabled(s, a) then Step(s, a) else s
  }

  function StateAfter(run: seq<Action>): State {
    if run == [] then Init() else Perform(StateAfter(run[..|run| - 1]), run[|run| - 1])
  }

  /** A possible run: every step is enabled when it is taken, and every chosen id is
      fresh. */
  ghost predicate Run(run: seq<Action>) {
    run == [] ||
    var before, a := StateAfter(run[..|run| - 1]), run[|run| - 1];
    Run(run[..|run| - 1]) && Enabled(before, a) && FreshStep(before, a)
  }
}
