/** The inductive invariant of the connection, and its preservation by every
    action. */
module TunnelInv {
  import opened Text
  import opened Headers
  import opened Connector
  import opened Tunnel
  import opened Order

  // ---------------------------------------------------------------- the parts

  /** A lock is owned exactly by the thread whose program counter says so. */
  ghost predicate LockInv(s: State) {
    && ClosedMuInv(s.closedMu, s.callers, s.closers)
    && PendingMuInv(s.pendingMu, s.callers, s.closers, s.recv.LookingUp?)
  }

  ghost predicate ClosedMuInv(mu: Owner, callers: Callers, closers: Closers) {
    && !mu.ByRecv?
    && (mu.ByCaller? ==> mu.caller in callers && callers[mu.caller].pc.Checking?)
    && (mu.ByCloser? ==> mu.closer in closers && HoldsClosedMu(closers[mu.closer]))
    && (forall t :: t in callers && callers[t].pc.Checking? ==> mu == ByCaller(t))
    && (forall k :: k in closers && HoldsClosedMu(closers[k]) ==> mu == ByCloser(k))
  }

  ghost predicate PendingMuInv(mu: Owner, callers: Callers, closers: Closers, looking: bool) {
    && (mu.ByRecv? <==> looking)
    && (mu.ByCaller? ==> mu.caller in callers && HoldsPendingMu(callers[mu.caller].pc))
    && (mu.ByCloser? ==> mu.closer in closers && closers[mu.closer].Sweeping?)
    && (forall t :: t in callers && HoldsPendingMu(callers[t].pc) ==> mu == ByCaller(t))
    && (forall k :: k in closers && closers[k].Sweeping? ==> mu == ByCloser(k))
  }

  predicate HoldsPendingMu(pc: CallerPc) {
    pc.Inserting? || pc.Removing?
  }

  predicate HoldsClosedMu(pc: ClosePc) {
    !pc.CloseEntered? && !pc.CloseReturned?
  }

  predicate BeforeInsert(pc: CallerPc) {
    pc.Entered? || pc.Checking? || pc.Registering? || pc.Inserting?
  }

  predicate BeforeSend(pc: CallerPc) {
    BeforeInsert(pc) || pc.Sending?
  }

  /** Ids name callers one to one. */
  ghost predicate OwnerInv(owner: map<Id, CallerId>, callers: Callers) {
    && "" !in owner
    && (forall t :: t in callers ==> Named(owner, t, callers[t]))
    && (forall id :: id in owner ==> owner[id] in callers && callers[owner[id]].id == id)
  }

  ghost predicate Named(owner: map<Id, CallerId>, t: CallerId, c: Caller) {
    && (c.id != "" ==> c.id in owner && owner[c.id] == t)
    && (c.pc.Entered? || c.pc.Checking? ==> c.id == "")
    && (c.id == "" ==> c.pc.Entered? || c.pc.Checking? || c.pc == Returned(Unavailable))
    && (if BeforeInsert(c.pc) then c.reply == [] else c.id != "" ==> c.msg == MsgOf(c.id, c.req))
  }

  /** `pending` only holds entries of callers between their insert and removal. */
  ghost predicate PendingInv(pending: map<Id, CallerId>, owner: map<Id, CallerId>, callers: Callers) {
    forall id :: id in pending ==>
      && id in owner && owner[id] == pending[id]
      && owner[id] in callers && !callers[owner[id]].pc.Returned? && !BeforeInsert(callers[owner[id]].pc)
  }

  /** Each accepted request is its caller's, and is accepted once. */
  ghost predicate AskedInv(asked: map<Id, Msg>, owner: map<Id, CallerId>, callers: Callers) {
    && (forall id :: id in asked ==>
          && id in owner && owner[id] in callers
          && asked[id] == callers[owner[id]].msg && !BeforeSend(callers[owner[id]].pc))
    && (forall t :: t in callers && callers[t].pc.Waiting? ==> callers[t].id in asked)
  }

  ghost predicate AcceptedInv(asked: map<Id, Msg>, accepted: seq<Id>) {
    && (forall id :: id in asked <==> id in accepted)
    && Distinct(accepted)
  }

  // -- what travels

  ghost predicate GoodMsgs(asked: map<Id, Msg>, q: seq<Msg>) {
    forall i :: 0 <= i < |q| ==> q[i].id in asked && q[i] == asked[q[i].id]
  }

  /** What was sent are the replies to what was served, each the own message of the
      caller that asked. */
  ghost predicate SentInv(asked: map<Id, Msg>, served: seq<Service>, sent: seq<Reply>) {
    && |sent| == |served|
    && forall i :: 0 <= i < |served| ==>
         && sent[i] == ReplyFor(served[i])
         && Expands(served[i].msg.headers, served[i].header)
         && served[i].msg.id in asked && asked[served[i].msg.id] == served[i].msg
  }

  ghost predicate GoodReplies(sent: seq<Reply>, q: seq<Reply>) {
    forall i :: 0 <= i < |q| ==> q[i] in sent
  }

  function RecvReply(pc: RecvPc): seq<Reply> {
    match pc
    case Got(r) => [r]
    case LookingUp(r) => [r]
    case Handing(r, _) => [r]
    case _ => []
  }

  function SenderMsg(pc: SenderPc): seq<Msg> {
    if pc.SenderHolds? then [pc.msg] else []
  }

  function ClientMsg(pc: ClientPc): seq<Msg> {
    if pc.ClientBusy? then [pc.msg] else []
  }

  ghost predicate MsgsInv(s: State) {
    && GoodMsgs(s.asked, s.sendBuf) && GoodMsgs(s.asked, SenderMsg(s.sender))
    && GoodMsgs(s.asked, s.reqWire) && GoodMsgs(s.asked, ClientMsg(s.client))
  }

  ghost predicate RepliesInv(s: State) {
    GoodReplies(s.sent, s.replyWire) && GoodReplies(s.sent, RecvReply(s.recv))
  }

  ghost predicate CargoInv(s: State) {
    MsgsInv(s) && RepliesInv(s) && SentInv(s.asked, s.served, s.sent)
  }

  /** A response is rebuilt from one of the client's replies for this id. */
  ghost predicate Answers(sent: seq<Reply>, id: Id, resp: Response) {
    exists r :: r in sent && r.id == id && Decodes(r, resp)
  }

  ghost predicate AnswerInv(sent: seq<Reply>, callers: Callers) {
    forall t :: t in callers ==> CallerAnswers(sent, callers[t])
  }

  predicate HasOutcome(pc: CallerPc) {
    pc.Leaving? || pc.Removing? || pc.Returned?
  }

  ghost predicate CallerAnswers(sent: seq<Reply>, c: Caller) {
    && |c.reply| <= 1
    && (c.reply != [] && c.reply[0].Some? ==> Answers(sent, c.id, c.reply[0].value))
    && (HasOutcome(c.pc) && c.pc.out.Answered? ==> Answers(sent, c.id, c.pc.out.resp))
  }

  // -- waiting and closing

  predicate HandingTo(recv: RecvPc, t: CallerId) {
    recv.Handing? && recv.to == Some(t)
  }

  predicate AtSelect(pc: CallerPc) {
    pc.Sending? || pc.Waiting?
  }

  /** A caller that has registered is still registered, or the receive loop is
      about to fill its channel, or its channel is full. */
  ghost predicate RegisteredInv(callers: Callers, pending: map<Id, CallerId>, recv: RecvPc) {
    && (forall t :: t in callers && AtSelect(callers[t].pc) ==>
          callers[t].id in pending || HandingTo(recv, t) || callers[t].reply != [])
    && (recv.Handing? ==> recv.reply.id !in pending)
    && (recv.Handing? && recv.to.Some? ==>
          && recv.to.value in callers && !BeforeSend(callers[recv.to.value].pc)
          && callers[recv.to.value].id == recv.reply.id)
  }

  /** The Close that holds closedMu has closed sendCh and will still visit this id. */
  predicate SweepAhead(mu: Owner, closers: Closers, id: Id) {
    mu.ByCloser? && mu.closer in closers &&
    var pc := closers[mu.closer];
    pc.ChanClosed? || (pc.Sweeping? && id in pc.todo)
  }

  /** What a closed sendCh means for a waiting caller that is still registered. */
  ghost predicate SweepInv(callers: Callers, pending: map<Id, CallerId>, chanClosed: bool, mu: Owner,
                           closers: Closers) {
    && (chanClosed ==> forall t :: t in callers && callers[t].pc.Waiting? && callers[t].id in pending ==>
          SweepAhead(mu, closers, callers[t].id) || callers[t].reply != [])
    && (!chanClosed ==> forall t :: t in callers ==> callers[t].reply != [None])
  }

  ghost predicate CloseInv(closed: bool, chanClosed: bool, mu: Owner, closers: Closers) {
    && (chanClosed ==> closed)
    && (forall k :: k in closers ==> CloserOk(closed, chanClosed, closers[k]))
    // closed without a closed channel: the one Close in between holds closedMu
    && (closed && !chanClosed ==> mu.ByCloser? && mu.closer in closers && closers[mu.closer].Marked?)
    // once a Close has returned, the sweep is over
    && (forall k :: k in closers && (closers[k].CloseReturned? || closers[k].Swept?) ==>
          SweepOver(chanClosed, mu, closers))
  }

  predicate CloserOk(closed: bool, chanClosed: bool, pc: ClosePc) {
    && (pc.Marked? ==> closed && !chanClosed)
    && (pc.ChanClosed? || pc.Sweeping? || pc.Swept? ==> chanClosed)
  }

  /** sendCh is closed and no Close is between closing it and finishing its sweep. */
  predicate SweepOver(chanClosed: bool, mu: Owner, closers: Closers) {
    chanClosed &&
    !(mu.ByCloser? && mu.closer in closers && (closers[mu.closer].ChanClosed? || closers[mu.closer].Sweeping?))
  }

  /** A caller refused by its first check has seen a finished Close. */
  ghost predicate RefusedInv(callers: Callers, chanClosed: bool, mu: Owner, closers: Closers) {
    forall t :: t in callers && callers[t].id == "" && callers[t].pc.Returned? ==> SweepOver(chanClosed, mu, closers)
  }

  predicate LoopInv(s: State) {
    && |s.sendBuf| <= SEND_CAPACITY
    && (!s.started ==> s.sender.SenderIdle? && (s.recv.Listening? || s.recv.RecvEnded?))
  }

  // -- delivery and conservation

  predicate Delivers(recv: RecvPc, id: Id) {
    recv.Handing? && recv.to.Some? && recv.reply.id == id
  }

  ghost predicate OnceInv(resolved: seq<Resolution>, asked: map<Id, Msg>, pending: map<Id, CallerId>, recv: RecvPc) {
    && (forall i :: 0 <= i < |resolved| ==> resolved[i].id in asked)
    && (forall i :: 0 <= i < |resolved| && resolved[i].delivered ==>
          resolved[i].id !in pending && !Delivers(recv, resolved[i].id))
    && (forall i, j :: 0 <= i < j < |resolved| && resolved[i].delivered && resolved[j].delivered ==>
          resolved[i].id != resolved[j].id)
  }

  predicate WaitingOn(owner: map<Id, CallerId>, callers: Callers, id: Id) {
    id in owner && owner[id] in callers && callers[owner[id]].pc.Waiting?
  }

  /** A caller still waiting after its reply was resolved has a full channel. */
  ghost predicate ResolvedInv(resolved: seq<Resolution>, owner: map<Id, CallerId>, callers: Callers) {
    forall i :: 0 <= i < |resolved| && WaitingOn(owner, callers, resolved[i].id) ==>
      callers[owner[resolved[i].id]].reply != []
  }

  function MsgIds(q: seq<Msg>): seq<Id> {
    seq(|q|, i requires 0 <= i < |q| => q[i].id)
  }

  function ReplyIds(q: seq<Reply>): seq<Id> {
    seq(|q|, i requires 0 <= i < |q| => q[i].id)
  }

  function ResolvedIds(q: seq<Resolution>): seq<Id> {
    seq(|q|, i requires 0 <= i < |q| => q[i].id)
  }

  /** Where the ids of replies are, last stage first; a repeated reply has copies. */
  function ReplyLine(s: State): seq<Id> {
    ResolvedIds(s.resolved) + ReplyIds(RecvReply(s.recv)) + ReplyIds(s.replyWire)
  }

  /** Where the ids of requests not yet served are, last stage first. */
  function Unserved(s: State): seq<Id> {
    MsgIds(ClientMsg(s.client)) + MsgIds(s.reqWire) + MsgIds(SenderMsg(s.sender)) + MsgIds(s.sendBuf)
  }

  /** All the places an accepted id can be in, last stage first. */
  function Pipeline(s: State): seq<Id> {
    ReplyLine(s) + Unserved(s)
  }

  /** Requests are served in the order of acceptance, and all of them are served or
      under way until the stream fails. */
  ghost predicate RequestsInv(accepted: seq<Id>, sentIds: seq<Id>, unserved: seq<Id>, broken: bool) {
    Ordered(sentIds + unserved, accepted) && (!broken ==> accepted == sentIds + unserved)
  }

  /** Replies first arrive in the order they were sent, all of them until the wires
      are cut, and once each until one is repeated. */
  ghost predicate RepliedInv(replied: seq<Id>, sentIds: seq<Id>, repeated: bool, cut: bool) {
    && Firsts(replied) <= sentIds && (!cut ==> Firsts(replied) == sentIds)
    && (!repeated ==> Distinct(replied))
  }

  ghost predicate OrderInv(s: State) {
    && (s.cut ==> s.broken)
    && RequestsInv(s.accepted, ReplyIds(s.sent), Unserved(s), s.broken)
    && RepliedInv(ReplyLine(s), ReplyIds(s.sent), s.repeated, s.cut)
  }

  // -- the whole

  /** The threads and what they share. */
  ghost predicate CoreInv(s: State) {
    && LockInv(s)
    && OwnerInv(s.owner, s.callers) && PendingInv(s.pending, s.owner, s.callers)
    && AskedInv(s.asked, s.owner, s.callers) && AnswerInv(s.sent, s.callers)
    && RegisteredInv(s.callers, s.pending, s.recv) && ResolvedInv(s.resolved, s.owner, s.callers)
    && SweepInv(s.callers, s.pending, s.chanClosed, s.closedMu, s.closers)
    && CloseInv(s.closed, s.chanClosed, s.closedMu, s.closers)
    && RefusedInv(s.callers, s.chanClosed, s.closedMu, s.closers)
    && LoopInv(s)
  }

  /** What moves through the pipeline. */
  ghost predicate FlowInv(s: State) {
    && AcceptedInv(s.asked, s.accepted)
    && CargoInv(s)
    && OnceInv(s.resolved, s.asked, s.pending, s.recv)
    && OrderInv(s)
  }

  ghost predicate Inv(s: State) {
    CoreInv(s) && FlowInv(s)
  }

  lemma InitInv()
    ensures Inv(Init())
  {
  }

  // ---------------------------------------------------------------- one caller moves

  /** Caller t becomes c, keeping its id. */
  predicate SameId(callers: Callers, t: CallerId, c: Caller) {
    c.id == if t in callers then callers[t].id else ""
  }

  lemma OwnerMove(owner: map<Id, CallerId>, callers: Callers, t: CallerId, c: Caller)
    requires OwnerInv(owner, callers) && SameId(callers, t, c) && Named(owner, t, c)
    ensures OwnerInv(owner, callers[t := c])
  {
  }

  lemma PendingMove(pending: map<Id, CallerId>, owner: map<Id, CallerId>, callers: Callers, t: CallerId, c: Caller)
    requires PendingInv(pending, owner, callers) && OwnerInv(owner, callers) && SameId(callers, t, c)
    requires c.id in pending ==> !c.pc.Returned? && !BeforeInsert(c.pc)
    ensures PendingInv(pending, owner, callers[t := c])
  {
  }

  lemma AskedMove(asked: map<Id, Msg>, owner: map<Id, CallerId>, callers: Callers, t: CallerId, c: Caller)
    requires AskedInv(asked, owner, callers) && OwnerInv(owner, callers) && SameId(callers, t, c)
    requires c.id in asked ==> t in callers && c.msg == callers[t].msg && !BeforeSend(c.pc)
    requires c.pc.Waiting? ==> c.id in asked
    ensures AskedInv(asked, owner, callers[t := c])
  {
  }

  lemma AnswerMove(sent: seq<Reply>, callers: Callers, t: CallerId, c: Caller)
    requires AnswerInv(sent, callers) && CallerAnswers(sent, c)
    ensures AnswerInv(sent, callers[t := c])
  {
  }

  lemma RegisteredMove(callers: Callers, pending: map<Id, CallerId>, recv: RecvPc, t: CallerId, c: Caller)
    requires RegisteredInv(callers, pending, recv) && SameId(callers, t, c)
    requires AtSelect(c.pc) ==> c.id in pending || HandingTo(recv, t) || c.reply != []
    requires BeforeSend(c.pc) ==> t !in callers || BeforeSend(callers[t].pc)
    ensures RegisteredInv(callers[t := c], pending, recv)
  {
  }

  predicate Unresolved(resolved: seq<Resolution>, id: Id) {
    forall i :: 0 <= i < |resolved| ==> resolved[i].id != id
  }

  lemma ResolvedMove(resolved: seq<Resolution>, owner: map<Id, CallerId>, callers: Callers, t: CallerId, c: Caller)
    requires ResolvedInv(resolved, owner, callers) && OwnerInv(owner, callers) && SameId(callers, t, c)
    requires c.pc.Waiting? && c.reply == [] ==>
      (t in callers && callers[t].pc.Waiting? && callers[t].reply == []) || Unresolved(resolved, c.id)
    ensures ResolvedInv(resolved, owner, callers[t := c])
  {
  }

  lemma ClosedMuMove(mu: Owner, mu': Owner, callers: Callers, closers: Closers, t: CallerId, c: Caller)
    requires ClosedMuInv(mu, callers, closers)
    requires if c.pc.Checking? then (mu.Free? || mu == ByCaller(t)) && mu' == ByCaller(t)
             else mu' == if mu == ByCaller(t) then Free else mu
    ensures ClosedMuInv(mu', callers[t := c], closers)
  {
  }

  lemma PendingMuMove(mu: Owner, mu': Owner, callers: Callers, closers: Closers, looking: bool, t: CallerId, c: Caller)
    requires PendingMuInv(mu, callers, closers, looking)
    requires if HoldsPendingMu(c.pc) then (mu.Free? || mu == ByCaller(t)) && mu' == ByCaller(t)
             else mu' == if mu == ByCaller(t) then Free else mu
    ensures PendingMuInv(mu', callers[t := c], closers, looking)
  {
  }

  lemma SweepMove(callers: Callers, pending: map<Id, CallerId>, chanClosed: bool, mu: Owner, mu': Owner,
                  closers: Closers, t: CallerId, c: Caller)
    requires SweepInv(callers, pending, chanClosed, mu, closers) && SameId(callers, t, c)
    requires mu' == mu || (!mu.ByCloser? && !mu'.ByCloser?)
    requires c.pc.Waiting? && chanClosed && c.reply == [] ==>
      t in callers && callers[t].pc.Waiting? && callers[t].reply == []
    requires c.reply == [None] ==> chanClosed
    ensures SweepInv(callers[t := c], pending, chanClosed, mu', closers)
  {
  }

  lemma RefusedMove(callers: Callers, chanClosed: bool, mu: Owner, mu': Owner, closers: Closers, t: CallerId, c: Caller)
    requires RefusedInv(callers, chanClosed, mu, closers)
    requires mu' == mu || (!mu.ByCloser? && !mu'.ByCloser?)
    requires c.id == "" && c.pc.Returned? ==> SweepOver(chanClosed, mu, closers)
    ensures RefusedInv(callers[t := c], chanClosed, mu', closers)
  {
  }

  lemma CloseMove(closed: bool, chanClosed: bool, mu: Owner, mu': Owner, closers: Closers)
    requires CloseInv(closed, chanClosed, mu, closers)
    requires mu' == mu || (!mu.ByCloser? && !mu'.ByCloser?)
    ensures CloseInv(closed, chanClosed, mu', closers)
  {
  }

  /** A caller arrives, or moves without sending and without changing its message,
      its id or any table: the common case. `mu` and `pmu` are the locks after the
      move. */
  ghost predicate PlainMove(s: State, t: CallerId, d: Caller, mu: Owner, pmu: Owner) {
    && (t !in s.callers ==> d.pc.Entered? && d.reply == [])
    && var c := if t in s.callers then s.callers[t] else d;
    && d.id == c.id && d.req == c.req && d.msg == c.msg
    && (BeforeSend(d.pc) ==> BeforeSend(c.pc))
    && (BeforeInsert(d.pc) ==> BeforeInsert(c.pc))
    && (BeforeInsert(c.pc) ==> BeforeInsert(d.pc) || d.id == "")
    && (d.pc.Waiting? ==> c.pc.Waiting?)
    && (d.pc.Sending? ==> c.pc.Sending?)
    && (d.pc.Returned? ==> d.id !in s.pending)
    && (d.pc.Entered? || d.pc.Checking? ==> d.id == "")
    && (d.id == "" ==>
          (d.pc.Entered? || d.pc.Checking?
           || (d.pc == Returned(Unavailable) && SweepOver(s.chanClosed, s.closedMu, s.closers))))
    && (d.reply == c.reply || (d.reply == [] && !AtSelect(d.pc)) || Filled(s, c, d))
    && (HasOutcome(d.pc) && d.pc.out.Answered? ==> Answers(s.sent, d.id, d.pc.out.resp))
    && (if d.pc.Checking? then (s.closedMu.Free? || s.closedMu == ByCaller(t)) && mu == ByCaller(t)
        else mu == if s.closedMu == ByCaller(t) then Free else s.closedMu)
    && (if HoldsPendingMu(d.pc) then (s.pendingMu.Free? || s.pendingMu == ByCaller(t)) && pmu == ByCaller(t)
        else pmu == if s.pendingMu == ByCaller(t) then Free else s.pendingMu)
  }

  /** Somebody put a value into the empty channel of a registered caller. */
  ghost predicate Filled(s: State, c: Caller, d: Caller) {
    && c.reply == [] && |d.reply| == 1 && !BeforeInsert(c.pc)
    && (d.reply[0].None? ==> s.chanClosed)
    && (d.reply[0].Some? ==> Answers(s.sent, d.id, d.reply[0].value))
  }

  lemma MoveNamed(s: State, t: CallerId, d: Caller, mu: Owner, pmu: Owner)
    requires OwnerInv(s.owner, s.callers) && PendingInv(s.pending, s.owner, s.callers)
    requires AskedInv(s.asked, s.owner, s.callers) && PlainMove(s, t, d, mu, pmu)
    ensures OwnerInv(s.owner, s.callers[t := d]) && PendingInv(s.pending, s.owner, s.callers[t := d])
    ensures AskedInv(s.asked, s.owner, s.callers[t := d])
  {
    OwnerMove(s.owner, s.callers, t, d);
    PendingMove(s.pending, s.owner, s.callers, t, d);
    AskedMove(s.asked, s.owner, s.callers, t, d);
  }

  lemma MoveReplies(s: State, t: CallerId, d: Caller, mu: Owner, pmu: Owner)
    requires OwnerInv(s.owner, s.callers) && AnswerInv(s.sent, s.callers)
    requires RegisteredInv(s.callers, s.pending, s.recv) && ResolvedInv(s.resolved, s.owner, s.callers)
    requires PlainMove(s, t, d, mu, pmu)
    ensures AnswerInv(s.sent, s.callers[t := d])
    ensures RegisteredInv(s.callers[t := d], s.pending, s.recv)
    ensures ResolvedInv(s.resolved, s.owner, s.callers[t := d])
  {
    AnswerMove(s.sent, s.callers, t, d);
    RegisteredMove(s.callers, s.pending, s.recv, t, d);
    ResolvedMove(s.resolved, s.owner, s.callers, t, d);
  }

  lemma MoveGuards(s: State, t: CallerId, d: Caller, mu: Owner, pmu: Owner)
    requires LockInv(s) && SweepInv(s.callers, s.pending, s.chanClosed, s.closedMu, s.closers)
    requires RefusedInv(s.callers, s.chanClosed, s.closedMu, s.closers)
    requires CloseInv(s.closed, s.chanClosed, s.closedMu, s.closers)
    requires PlainMove(s, t, d, mu, pmu)
    ensures ClosedMuInv(mu, s.callers[t := d], s.closers)
    ensures PendingMuInv(pmu, s.callers[t := d], s.closers, s.recv.LookingUp?)
    ensures SweepInv(s.callers[t := d], s.pending, s.chanClosed, mu, s.closers)
    ensures RefusedInv(s.callers[t := d], s.chanClosed, mu, s.closers)
    ensures CloseInv(s.closed, s.chanClosed, mu, s.closers)
  {
    ClosedMuMove(s.closedMu, mu, s.callers, s.closers, t, d);
    PendingMuMove(s.pendingMu, pmu, s.callers, s.closers, s.recv.LookingUp?, t, d);
    SweepMove(s.callers, s.pending, s.chanClosed, s.closedMu, mu, s.closers, t, d);
    RefusedMove(s.callers, s.chanClosed, s.closedMu, mu, s.closers, t, d);
    CloseMove(s.closed, s.chanClosed, s.closedMu, mu, s.closers);
  }

  lemma MoveAll(s: State, t: CallerId, d: Caller, mu: Owner, pmu: Owner)
    requires CoreInv(s) && PlainMove(s, t, d, mu, pmu)
    ensures CoreInv(s.(callers := s.callers[t := d], closedMu := mu, pendingMu := pmu))
  {
    MoveNamed(s, t, d, mu, pmu);
    MoveReplies(s, t, d, mu, pmu);
    MoveGuards(s, t, d, mu, pmu);
  }

  // ---------------------------------------------------------------- callers

  lemma LockCheckKeeps(s: State, t: CallerId)
    requires CoreInv(s) && CallerEnabled(s, t, LockCheck)
    ensures CoreInv(CallerStep(s, t, LockCheck))
  {
    MoveAll(s, t, s.callers[t].(pc := Checking), ByCaller(t), s.pendingMu);
  }

  lemma LockInsertKeeps(s: State, t: CallerId)
    requires CoreInv(s) && CallerEnabled(s, t, LockInsert)
    ensures CoreInv(CallerStep(s, t, LockInsert))
  {
    MoveAll(s, t, s.callers[t].(pc := Inserting), s.closedMu, ByCaller(t));
  }

  lemma SendOnClosedKeeps(s: State, t: CallerId)
    requires CoreInv(s) && CallerEnabled(s, t, SendOnClosed)
    ensures CoreInv(CallerStep(s, t, SendOnClosed))
  {
    Depart(s, t, Panicked, s.callers[t].reply);
  }

  lemma CancelSendKeeps(s: State, t: CallerId)
    requires CoreInv(s) && CallerEnabled(s, t, CancelSend)
    ensures CoreInv(CallerStep(s, t, CancelSend))
  {
    Depart(s, t, Unavailable, s.callers[t].reply);
  }

  lemma ReceiveKeeps(s: State, t: CallerId)
    requires CoreInv(s) && CallerEnabled(s, t, Receive)
    ensures CoreInv(CallerStep(s, t, Receive))
  {
    var out := ReceiveDeparts(s, t);
    Depart(s, t, out, []);
  }

  lemma ReceiveDeparts(s: State, t: CallerId) returns (out: Outcome)
    requires AnswerInv(s.sent, s.callers) && CallerEnabled(s, t, Receive)
    ensures out.Answered? ==> s.callers[t].reply == [Some(out.resp)]
    ensures CallerStep(s, t, Receive) == s.(callers := s.callers[t := s.callers[t].(reply := [], pc := Leaving(out))])
  {
    out := CallerStep(s, t, Receive).callers[t].pc.out;
    assert s.callers[t].reply[1..] == [];
  }

  lemma GiveUpKeeps(s: State, t: CallerId)
    requires CoreInv(s) && CallerEnabled(s, t, GiveUp)
    ensures CoreInv(CallerStep(s, t, GiveUp))
  {
    Depart(s, t, Unavailable, s.callers[t].reply);
  }

  /** Leaving one of the two selects, with what the channel may have held. */
  lemma Depart(s: State, t: CallerId, out: Outcome, rest: seq<Option<Response>>)
    requires CoreInv(s) && t in s.callers && AtSelect(s.callers[t].pc)
    requires rest == s.callers[t].reply || rest == []
    requires out.Answered? ==> s.callers[t].reply == [Some(out.resp)]
    ensures CoreInv(s.(callers := s.callers[t := s.callers[t].(reply := rest, pc := Leaving(out))]))
  {
    DepartIsPlain(s, t, out, rest);
    MoveAll(s, t, s.callers[t].(reply := rest, pc := Leaving(out)), s.closedMu, s.pendingMu);
  }

  lemma DepartIsPlain(s: State, t: CallerId, out: Outcome, rest: seq<Option<Response>>)
    requires LockInv(s) && OwnerInv(s.owner, s.callers) && AnswerInv(s.sent, s.callers)
    requires t in s.callers && AtSelect(s.callers[t].pc)
    requires rest == s.callers[t].reply || rest == []
    requires out.Answered? ==> s.callers[t].reply == [Some(out.resp)]
    ensures PlainMove(s, t, s.callers[t].(reply := rest, pc := Leaving(out)), s.closedMu, s.pendingMu)
  {
  }

  lemma LockRemoveKeeps(s: State, t: CallerId)
    requires CoreInv(s) && CallerEnabled(s, t, LockRemove)
    ensures CoreInv(CallerStep(s, t, LockRemove))
  {
    LockRemoveIsPlain(s, t);
    MoveAll(s, t, s.callers[t].(pc := Removing(s.callers[t].pc.out)), s.closedMu, ByCaller(t));
  }

  lemma LockRemoveIsPlain(s: State, t: CallerId)
    requires LockInv(s) && OwnerInv(s.owner, s.callers) && AnswerInv(s.sent, s.callers)
    requires CallerEnabled(s, t, LockRemove)
    ensures PlainMove(s, t, s.callers[t].(pc := Removing(s.callers[t].pc.out)), s.closedMu, ByCaller(t))
  {
  }

  lemma RemoveKeeps(s: State, t: CallerId)
    requires CoreInv(s) && CallerEnabled(s, t, Remove)
    ensures CoreInv(CallerStep(s, t, Remove))
  {
    var c := s.callers[t];
    ForgetKeeps(s, t);
    var forgotten := s.(pending := s.pending - {c.id});
    RemoveIsPlain(forgotten, t);
    MoveAll(forgotten, t, c.(pc := Returned(c.pc.out)), s.closedMu, Free);
  }

  lemma RemoveIsPlain(s: State, t: CallerId)
    requires LockInv(s) && OwnerInv(s.owner, s.callers) && AnswerInv(s.sent, s.callers)
    requires t in s.callers && s.callers[t].pc.Removing? && s.callers[t].id !in s.pending
    ensures PlainMove(s, t, s.callers[t].(pc := Returned(s.callers[t].pc.out)), s.closedMu, Free)
  {
  }

  /** Dropping the entry of a caller that is past both selects. */
  lemma ForgetKeeps(s: State, t: CallerId)
    requires CoreInv(s) && t in s.callers && HasOutcome(s.callers[t].pc)
    ensures CoreInv(s.(pending := s.pending - {s.callers[t].id}))
  {
    ForgetRegistered(s, t);
  }

  lemma ForgetRegistered(s: State, t: CallerId)
    requires OwnerInv(s.owner, s.callers) && RegisteredInv(s.callers, s.pending, s.recv)
    requires t in s.callers && HasOutcome(s.callers[t].pc)
    ensures RegisteredInv(s.callers, s.pending - {s.callers[t].id}, s.recv)
  {
  }

  lemma SeeClosedKeeps(s: State, t: CallerId)
    requires CoreInv(s) && CallerEnabled(s, t, SeeClosed)
    ensures CoreInv(CallerStep(s, t, SeeClosed))
  {
    SeeClosedIsPlain(s, t);
    MoveAll(s, t, s.callers[t].(pc := Returned(Unavailable)), Free, s.pendingMu);
  }

  lemma SeeClosedIsPlain(s: State, t: CallerId)
    requires LockInv(s) && OwnerInv(s.owner, s.callers) && PendingInv(s.pending, s.owner, s.callers)
    requires CloseInv(s.closed, s.chanClosed, s.closedMu, s.closers)
    requires CallerEnabled(s, t, SeeClosed)
    ensures PlainMove(s, t, s.callers[t].(pc := Returned(Unavailable)), Free, s.pendingMu)
  {
  }

  lemma EnterKeeps(s: State, t: CallerId, req: Request)
    requires CoreInv(s) && CallerEnabled(s, t, Enter(req))
    ensures CoreInv(CallerStep(s, t, Enter(req)))
  {
    EnterIsPlain(s, t, req);
    MoveAll(s, t, Caller(req, "", NO_MSG, [], Entered), s.closedMu, s.pendingMu);
  }

  lemma EnterIsPlain(s: State, t: CallerId, req: Request)
    requires LockInv(s) && OwnerInv(s.owner, s.callers) && PendingInv(s.pending, s.owner, s.callers)
    requires t !in s.callers
    ensures PlainMove(s, t, Caller(req, "", NO_MSG, [], Entered), s.closedMu, s.pendingMu)
  {
  }

  lemma OfferKeeps(s: State, t: CallerId, v: Option<Response>)
    requires CoreInv(s) && t in s.callers && !BeforeInsert(s.callers[t].pc)
    requires v.None? ==> s.chanClosed
    requires v.Some? ==> Answers(s.sent, s.callers[t].id, v.value)
    ensures CoreInv(s.(callers := Offered(s.callers, t, v)))
    ensures var offered := Offered(s.callers, t, v); t in offered && offered[t].reply != []
  {
    OfferedIs(s, t, v);
    if s.callers[t].reply == [] {
      OfferIsPlain(s, t, v);
      MoveAll(s, t, s.callers[t].(reply := [v]), s.closedMu, s.pendingMu);
    }
  }

  lemma OfferedIs(s: State, t: CallerId, v: Option<Response>)
    requires t in s.callers
    ensures s.(callers := Offered(s.callers, t, v))
         == if s.callers[t].reply == []
            then s.(callers := s.callers[t := s.callers[t].(reply := [v])],
                    closedMu := s.closedMu, pendingMu := s.pendingMu)
            else s
  {
  }

  lemma OfferIsPlain(s: State, t: CallerId, v: Option<Response>)
    requires LockInv(s) && OwnerInv(s.owner, s.callers) && PendingInv(s.pending, s.owner, s.callers)
    requires AnswerInv(s.sent, s.callers) && RefusedInv(s.callers, s.chanClosed, s.closedMu, s.closers)
    requires t in s.callers && !BeforeInsert(s.callers[t].pc) && s.callers[t].reply == []
    requires v.None? ==> s.chanClosed
    requires v.Some? ==> Answers(s.sent, s.callers[t].id, v.value)
    ensures PlainMove(s, t, s.callers[t].(reply := [v]), s.closedMu, s.pendingMu)
  {
  }

  // -- choosing an id

  lemma OpenOwner(s: State, t: CallerId, id: Id, d: Caller)
    requires OwnerInv(s.owner, s.callers)
    requires t in s.callers && s.callers[t].pc.Checking? && id != "" && id !in s.owner
    requires d == s.callers[t].(id := id, pc := Registering)
    ensures OwnerInv(s.owner[id := t], s.callers[t := d])
  {
  }

  lemma OpenTables(s: State, t: CallerId, id: Id, d: Caller)
    requires OwnerInv(s.owner, s.callers)
    requires AskedInv(s.asked, s.owner, s.callers) && ResolvedInv(s.resolved, s.owner, s.callers)
    requires t in s.callers && s.callers[t].pc.Checking? && id != "" && id !in s.owner
    requires d == s.callers[t].(id := id, pc := Registering)
    ensures AskedInv(s.asked, s.owner[id := t], s.callers[t := d])
    ensures ResolvedInv(s.resolved, s.owner[id := t], s.callers[t := d])
  {
  }

  lemma OpenPending(s: State, t: CallerId, id: Id, d: Caller)
    requires OwnerInv(s.owner, s.callers) && PendingInv(s.pending, s.owner, s.callers)
    requires t in s.callers && s.callers[t].pc.Checking? && id != "" && id !in s.owner
    ensures PendingInv(s.pending, s.owner[id := t], s.callers[t := d])
  {
  }

  lemma OpenGuards(s: State, t: CallerId, id: Id, d: Caller)
    requires RegisteredInv(s.callers, s.pending, s.recv) && AnswerInv(s.sent, s.callers)
    requires SweepInv(s.callers, s.pending, s.chanClosed, s.closedMu, s.closers)
    requires RefusedInv(s.callers, s.chanClosed, s.closedMu, s.closers)
    requires LockInv(s) && OwnerInv(s.owner, s.callers)
    requires t in s.callers && s.callers[t].pc.Checking? && id != "" && id !in s.owner
    requires d == s.callers[t].(id := id, pc := Registering)
    ensures RegisteredInv(s.callers[t := d], s.pending, s.recv)
    ensures AnswerInv(s.sent, s.callers[t := d])
    ensures SweepInv(s.callers[t := d], s.pending, s.chanClosed, Free, s.closers)
    ensures RefusedInv(s.callers[t := d], s.chanClosed, Free, s.closers)
  {
  }

  lemma OpenKeeps(s: State, t: CallerId, id: Id, d: Caller)
    requires CoreInv(s) && s.closedMu == ByCaller(t)
    requires t in s.callers && s.callers[t].pc.Checking? && id != "" && id !in s.owner
    requires d == s.callers[t].(id := id, pc := Registering)
    ensures CoreInv(s.(callers := s.callers[t := d], closedMu := Free, owner := s.owner[id := t]))
  {
    OpenOwner(s, t, id, d);
    OpenTables(s, t, id, d);
    OpenPending(s, t, id, d);
    OpenGuards(s, t, id, d);
    ClosedMuMove(s.closedMu, Free, s.callers, s.closers, t, d);
    PendingMuMove(s.pendingMu, s.pendingMu, s.callers, s.closers, s.recv.LookingUp?, t, d);
    CloseMove(s.closed, s.chanClosed, s.closedMu, Free, s.closers);
    var n := s.(callers := s.callers[t := d], closedMu := Free, owner := s.owner[id := t]);
    assert LockInv(n) && LoopInv(n) && OwnerInv(n.owner, n.callers) && AskedInv(n.asked, n.owner, n.callers);
    assert PendingInv(n.pending, n.owner, n.callers) && ResolvedInv(n.resolved, n.owner, n.callers);
  }

  lemma SeeOpenKeeps(s: State, t: CallerId, uuid: Id)
    requires CoreInv(s) && CallerEnabled(s, t, SeeOpen(uuid)) && FreshStep(s, Call(t, SeeOpen(uuid)))
    ensures CoreInv(CallerStep(s, t, SeeOpen(uuid)))
  {
    var id := ChosenId(s.callers[t].req, uuid);
    OpenKeeps(s, t, id, s.callers[t].(id := id, pc := Registering));
  }

  // -- registering and sending

  lemma InsertTables(s: State, t: CallerId, d: Caller)
    requires OwnerInv(s.owner, s.callers) && PendingInv(s.pending, s.owner, s.callers)
    requires t in s.callers && s.callers[t].pc.Inserting?
    requires d == s.callers[t].(msg := MsgOf(s.callers[t].id, s.callers[t].req), pc := Sending)
    ensures OwnerInv(s.owner, s.callers[t := d])
    ensures PendingInv(s.pending[d.id := t], s.owner, s.callers[t := d])
  {
    OwnerMove(s.owner, s.callers, t, d);
  }

  lemma InsertAsked(s: State, t: CallerId, d: Caller)
    requires OwnerInv(s.owner, s.callers)
    requires AskedInv(s.asked, s.owner, s.callers) && ResolvedInv(s.resolved, s.owner, s.callers)
    requires t in s.callers && s.callers[t].pc.Inserting?
    requires d.pc.Sending? && d.id == s.callers[t].id
    ensures AskedInv(s.asked, s.owner, s.callers[t := d])
    ensures ResolvedInv(s.resolved, s.owner, s.callers[t := d])
  {
    AskedMove(s.asked, s.owner, s.callers, t, d);
    ResolvedMove(s.resolved, s.owner, s.callers, t, d);
  }

  lemma InsertRegistered(s: State, t: CallerId, d: Caller)
    requires OwnerInv(s.owner, s.callers)
    requires AskedInv(s.asked, s.owner, s.callers) && CargoInv(s)
    requires RegisteredInv(s.callers, s.pending, s.recv)
    requires t in s.callers && s.callers[t].pc.Inserting?
    requires d.pc.Sending? && d.id == s.callers[t].id
    ensures RegisteredInv(s.callers[t := d], s.pending[d.id := t], s.recv)
  {
    if s.recv.Handing? {
      assert RecvReply(s.recv)[0] == s.recv.reply;
    }
  }

  lemma InsertGuards(s: State, t: CallerId, d: Caller)
    requires OwnerInv(s.owner, s.callers) && AnswerInv(s.sent, s.callers)
    requires SweepInv(s.callers, s.pending, s.chanClosed, s.closedMu, s.closers)
    requires RefusedInv(s.callers, s.chanClosed, s.closedMu, s.closers)
    requires t in s.callers && s.callers[t].pc.Inserting?
    requires d.pc.Sending? && d.reply == s.callers[t].reply && d.id == s.callers[t].id
    ensures AnswerInv(s.sent, s.callers[t := d])
    ensures SweepInv(s.callers[t := d], s.pending[d.id := t], s.chanClosed, s.closedMu, s.closers)
    ensures RefusedInv(s.callers[t := d], s.chanClosed, s.closedMu, s.closers)
  {
    AnswerMove(s.sent, s.callers, t, d);
    RefusedMove(s.callers, s.chanClosed, s.closedMu, s.closedMu, s.closers, t, d);
  }

  lemma InsertLocks(s: State, t: CallerId, d: Caller)
    requires LockInv(s) && t in s.callers && s.callers[t].pc.Inserting? && d.pc.Sending?
    ensures ClosedMuInv(s.closedMu, s.callers[t := d], s.closers)
    ensures PendingMuInv(Free, s.callers[t := d], s.closers, s.recv.LookingUp?)
  {
    ClosedMuMove(s.closedMu, s.closedMu, s.callers, s.closers, t, d);
    PendingMuMove(s.pendingMu, Free, s.callers, s.closers, s.recv.LookingUp?, t, d);
  }

  lemma InsertKeeps(s: State, t: CallerId)
    requires CoreInv(s) && CargoInv(s) && CallerEnabled(s, t, Insert)
    ensures CoreInv(CallerStep(s, t, Insert))
  {
    var d := CallerStep(s, t, Insert).callers[t];
    InsertTables(s, t, d);
    InsertAsked(s, t, d);
    InsertRegistered(s, t, d);
    InsertGuards(s, t, d);
    InsertLocks(s, t, d);
  }

  lemma SendTables(s: State, t: CallerId, d: Caller)
    requires OwnerInv(s.owner, s.callers) && PendingInv(s.pending, s.owner, s.callers)
    requires t in s.callers && s.callers[t].pc.Sending? && d == s.callers[t].(pc := Waiting)
    ensures OwnerInv(s.owner, s.callers[t := d])
    ensures PendingInv(s.pending, s.owner, s.callers[t := d])
  {
    OwnerMove(s.owner, s.callers, t, d);
    PendingMove(s.pending, s.owner, s.callers, t, d);
  }

  lemma SendAsked(s: State, t: CallerId, d: Caller)
    requires OwnerInv(s.owner, s.callers) && AskedInv(s.asked, s.owner, s.callers)
    requires t in s.callers && s.callers[t].pc.Sending? && d == s.callers[t].(pc := Waiting)
    ensures AskedInv(s.asked[d.id := d.msg], s.owner, s.callers[t := d])
  {
    var asked, callers := s.asked[d.id := d.msg], s.callers[t := d];
    forall id | id in asked
      ensures id in s.owner && s.owner[id] in callers
      ensures asked[id] == callers[s.owner[id]].msg && !BeforeSend(callers[s.owner[id]].pc)
    {
      assert id == d.id || (id in s.asked && s.callers[s.owner[id]].id == id);
    }
  }

  lemma SendGuards(s: State, t: CallerId, d: Caller)
    requires OwnerInv(s.owner, s.callers) && AskedInv(s.asked, s.owner, s.callers)
    requires OnceInv(s.resolved, s.asked, s.pending, s.recv) && ResolvedInv(s.resolved, s.owner, s.callers)
    requires RegisteredInv(s.callers, s.pending, s.recv) && AnswerInv(s.sent, s.callers)
    requires t in s.callers && s.callers[t].pc.Sending? && d == s.callers[t].(pc := Waiting)
    ensures RegisteredInv(s.callers[t := d], s.pending, s.recv)
    ensures ResolvedInv(s.resolved, s.owner, s.callers[t := d])
    ensures AnswerInv(s.sent, s.callers[t := d])
  {
    SendUnresolved(s, t);
    RegisteredMove(s.callers, s.pending, s.recv, t, d);
    ResolvedMove(s.resolved, s.owner, s.callers, t, d);
    AnswerMove(s.sent, s.callers, t, d);
  }

  lemma SendLocks(s: State, t: CallerId, d: Caller)
    requires LockInv(s) && SweepInv(s.callers, s.pending, s.chanClosed, s.closedMu, s.closers)
    requires RefusedInv(s.callers, s.chanClosed, s.closedMu, s.closers) && !s.chanClosed
    requires t in s.callers && s.callers[t].pc.Sending? && d == s.callers[t].(pc := Waiting)
    ensures ClosedMuInv(s.closedMu, s.callers[t := d], s.closers)
    ensures PendingMuInv(s.pendingMu, s.callers[t := d], s.closers, s.recv.LookingUp?)
    ensures SweepInv(s.callers[t := d], s.pending, s.chanClosed, s.closedMu, s.closers)
    ensures RefusedInv(s.callers[t := d], s.chanClosed, s.closedMu, s.closers)
  {
    ClosedMuMove(s.closedMu, s.closedMu, s.callers, s.closers, t, d);
    PendingMuMove(s.pendingMu, s.pendingMu, s.callers, s.closers, s.recv.LookingUp?, t, d);
    SweepMove(s.callers, s.pending, s.chanClosed, s.closedMu, s.closedMu, s.closers, t, d);
    RefusedMove(s.callers, s.chanClosed, s.closedMu, s.closedMu, s.closers, t, d);
  }

  lemma SendKeeps(s: State, t: CallerId)
    requires CoreInv(s) && OnceInv(s.resolved, s.asked, s.pending, s.recv) && CallerEnabled(s, t, Send)
    ensures CoreInv(CallerStep(s, t, Send))
  {
    var d := s.callers[t].(pc := Waiting);
    SendTables(s, t, d);
    SendAsked(s, t, d);
    SendGuards(s, t, d);
    SendLocks(s, t, d);
  }

  lemma SendUnresolved(s: State, t: CallerId)
    requires OwnerInv(s.owner, s.callers) && AskedInv(s.asked, s.owner, s.callers)
    requires OnceInv(s.resolved, s.asked, s.pending, s.recv)
    requires t in s.callers && s.callers[t].pc.Sending?
    ensures s.callers[t].id !in s.asked && Unresolved(s.resolved, s.callers[t].id)
  {
  }

  // ---------------------------------------------------------------- Close and the stream

  lemma CloseEnterKeeps(s: State, k: CloserId)
    requires CoreInv(s) && CloserEnabled(s, k, CloseEnter)
    ensures CoreInv(CloserStep(s, k, CloseEnter))
  {
    EnteredCloser(s.closed, s.chanClosed, s.closedMu, s.closers, k);
    EnteredSweep(s, k);
  }

  lemma EnteredCloser(closed: bool, chanClosed: bool, mu: Owner, closers: Closers, k: CloserId)
    requires CloseInv(closed, chanClosed, mu, closers) && (k in closers ==> closers[k].CloseReturned?)
    ensures CloseInv(closed, chanClosed, mu, closers[k := CloseEntered])
  {
  }

  lemma EnteredSweep(s: State, k: CloserId)
    requires LockInv(s) && (k in s.closers ==> s.closers[k].CloseReturned?)
    requires SweepInv(s.callers, s.pending, s.chanClosed, s.closedMu, s.closers)
    requires RefusedInv(s.callers, s.chanClosed, s.closedMu, s.closers)
    ensures SweepInv(s.callers, s.pending, s.chanClosed, s.closedMu, s.closers[k := CloseEntered])
    ensures RefusedInv(s.callers, s.chanClosed, s.closedMu, s.closers[k := CloseEntered])
  {
  }

  /** What a Close can change. */
  ghost predicate ClosePart(s: State) {
    && LockInv(s)
    && SweepInv(s.callers, s.pending, s.chanClosed, s.closedMu, s.closers)
    && CloseInv(s.closed, s.chanClosed, s.closedMu, s.closers)
    && RefusedInv(s.callers, s.chanClosed, s.closedMu, s.closers)
  }

  lemma ClosePartOnly(s: State, n: State)
    requires CoreInv(s) && ClosePart(n)
    requires n == s.(closed := n.closed, chanClosed := n.chanClosed, closedMu := n.closedMu, pendingMu := n.pendingMu,
                     closers := n.closers)
    ensures CoreInv(n)
  {
  }

  lemma CloseLockPart(s: State, k: CloserId)
    requires ClosePart(s) && CloserEnabled(s, k, CloseLock)
    ensures ClosePart(CloserStep(s, k, CloseLock))
  {
  }

  lemma CloseNoopPart(s: State, k: CloserId)
    requires ClosePart(s) && CloserEnabled(s, k, CloseNoop)
    ensures ClosePart(CloserStep(s, k, CloseNoop))
  {
  }

  lemma CloseMarkPart(s: State, k: CloserId)
    requires ClosePart(s) && CloserEnabled(s, k, CloseMark)
    ensures ClosePart(CloserStep(s, k, CloseMark))
  {
  }

  lemma CloseChanPart(s: State, k: CloserId)
    requires ClosePart(s) && CloserEnabled(s, k, CloseChan)
    ensures ClosePart(CloserStep(s, k, CloseChan))
  {
  }

  lemma CloseLockPendingPart(s: State, k: CloserId)
    requires ClosePart(s) && CloserEnabled(s, k, CloseLockPending)
    ensures ClosePart(CloserStep(s, k, CloseLockPending))
  {
  }

  lemma SweepOneKeeps(s: State, k: CloserId, id: Id)
    requires CoreInv(s) && CloserEnabled(s, k, SweepOne(id))
    ensures CoreInv(CloserStep(s, k, SweepOne(id)))
  {
    WokenKeeps(s, k, id);
    VisitedKeeps(Woken(s, id), k, id);
    SweepOneIs(s, k, id);
  }

  lemma SweepOneIs(s: State, k: CloserId, id: Id)
    requires CloserEnabled(s, k, SweepOne(id))
    ensures var n := Woken(s, id);
      CloserStep(s, k, SweepOne(id)) == n.(closers := n.closers[k := Sweeping(n.closers[k].todo - {id})])
  {
  }

  /** The sweep has offered nil to the channel of one id. */
  function Woken(s: State, id: Id): State {
    s.(callers := if id in s.pending then Offered(s.callers, s.pending[id], None) else s.callers)
  }

  lemma WokenKeeps(s: State, k: CloserId, id: Id)
    requires CoreInv(s) && k in s.closers && s.closers[k].Sweeping?
    ensures var n := Woken(s, id);
      && CoreInv(n)
      && (id in s.pending ==> s.pending[id] in n.callers && n.callers[s.pending[id]].reply != [])
  {
    if id in s.pending {
      SweepOffers(s, k, id);
      OfferKeeps(s, s.pending[id], None);
    } else {
      assert Woken(s, id) == s;
    }
  }

  lemma SweepOffers(s: State, k: CloserId, id: Id)
    requires OwnerInv(s.owner, s.callers) && PendingInv(s.pending, s.owner, s.callers)
    requires CloseInv(s.closed, s.chanClosed, s.closedMu, s.closers)
    requires id in s.pending && k in s.closers && s.closers[k].Sweeping?
    ensures s.pending[id] in s.callers && !BeforeInsert(s.callers[s.pending[id]].pc) && s.chanClosed
  {
  }

  /** The sweep may forget an id whose channel is full or whose entry is gone. */
  lemma VisitedKeeps(s: State, k: CloserId, id: Id)
    requires CoreInv(s) && k in s.closers && s.closers[k].Sweeping?
    requires id in s.pending ==> s.pending[id] in s.callers && s.callers[s.pending[id]].reply != []
    ensures CoreInv(s.(closers := s.closers[k := Sweeping(s.closers[k].todo - {id})]))
  {
    VisitedSweep(s, k, id);
  }

  lemma VisitedSweep(s: State, k: CloserId, id: Id)
    requires LockInv(s) && OwnerInv(s.owner, s.callers) && PendingInv(s.pending, s.owner, s.callers)
    requires SweepInv(s.callers, s.pending, s.chanClosed, s.closedMu, s.closers)
    requires k in s.closers && s.closers[k].Sweeping?
    requires id in s.pending ==> s.pending[id] in s.callers && s.callers[s.pending[id]].reply != []
    ensures SweepInv(s.callers, s.pending, s.chanClosed, s.closedMu, s.closers[k := Sweeping(s.closers[k].todo - {id})])
  {
  }

  lemma SweepDonePart(s: State, k: CloserId)
    requires ClosePart(s) && CloserEnabled(s, k, SweepDone)
    ensures ClosePart(CloserStep(s, k, SweepDone))
  {
  }

  lemma CloseUnlockPart(s: State, k: CloserId)
    requires ClosePart(s) && CloserEnabled(s, k, CloseUnlock)
    ensures ClosePart(CloserStep(s, k, CloseUnlock))
  {
  }

  lemma ClosePartKeeps(s: State, k: CloserId, cl: CloserAction)
    requires ClosePart(s) && CloserEnabled(s, k, cl) && !cl.CloseEnter? && !cl.SweepOne?
    ensures ClosePart(CloserStep(s, k, cl))
  {
    match cl
    case CloseLock => CloseLockPart(s, k);
    case CloseNoop => CloseNoopPart(s, k);
    case CloseMark => CloseMarkPart(s, k);
    case CloseChan => CloseChanPart(s, k);
    case CloseLockPending => CloseLockPendingPart(s, k);
    case SweepDone => SweepDonePart(s, k);
    case CloseUnlock => CloseUnlockPart(s, k);
  }

  lemma ClosePartIs(s: State, k: CloserId, cl: CloserAction)
    requires CloserEnabled(s, k, cl) && !cl.CloseEnter? && !cl.SweepOne?
    ensures var n := CloserStep(s, k, cl);
      n == s.(closed := n.closed, chanClosed := n.chanClosed, closedMu := n.closedMu, pendingMu := n.pendingMu,
              closers := n.closers)
  {
    match cl
    case CloseLock =>
    case CloseNoop =>
    case CloseMark =>
    case CloseChan =>
    case CloseLockPending =>
    case SweepDone =>
    case CloseUnlock =>
  }

  lemma StartKeeps(s: State)
    requires CoreInv(s) && StreamEnabled(s, Start)
    ensures CoreInv(StreamStep(s, Start))
  {
  }

  lemma AckFailKeeps(s: State)
    requires CoreInv(s) && StreamEnabled(s, AckFail)
    ensures CoreInv(StreamStep(s, AckFail))
  {
  }

  lemma SenderTakeKeeps(s: State)
    requires CoreInv(s) && StreamEnabled(s, SenderTake)
    ensures CoreInv(StreamStep(s, SenderTake))
  {
  }

  lemma SenderPutKeeps(s: State)
    requires CoreInv(s) && StreamEnabled(s, SenderPut)
    ensures CoreInv(StreamStep(s, SenderPut))
  {
  }

  lemma SenderStopKeeps(s: State)
    requires CoreInv(s) && StreamEnabled(s, SenderStop)
    ensures CoreInv(StreamStep(s, SenderStop))
  {
  }

  lemma SenderFailKeeps(s: State)
    requires CoreInv(s) && StreamEnabled(s, SenderFail)
    ensures CoreInv(StreamStep(s, SenderFail))
  {
  }

  lemma RecvTakeKeeps(s: State)
    requires CoreInv(s) && StreamEnabled(s, RecvTake)
    ensures CoreInv(StreamStep(s, RecvTake))
  {
  }

  lemma RecvLockKeeps(s: State)
    requires CoreInv(s) && StreamEnabled(s, RecvLock)
    ensures CoreInv(StreamStep(s, RecvLock))
  {
  }

  lemma RecvLookupKeeps(s: State)
    requires CoreInv(s) && CargoInv(s) && StreamEnabled(s, RecvLookup)
    ensures CoreInv(StreamStep(s, RecvLookup))
  {
    LookupRegistered(s);
  }

  lemma LookupRegistered(s: State)
    requires OwnerInv(s.owner, s.callers) && PendingInv(s.pending, s.owner, s.callers)
    requires AskedInv(s.asked, s.owner, s.callers) && CargoInv(s)
    requires RegisteredInv(s.callers, s.pending, s.recv) && s.recv.LookingUp?
    ensures var n := StreamStep(s, RecvLookup); RegisteredInv(n.callers, n.pending, n.recv)
  {
    assert RecvReply(s.recv)[0] == s.recv.reply;
    LookedUp(s.callers, s.pending, s.owner, s.recv, s.asked);
  }

  lemma LookedUp(callers: Callers, pending: map<Id, CallerId>, owner: map<Id, CallerId>, recv: RecvPc,
                 asked: map<Id, Msg>)
    requires OwnerInv(owner, callers) && PendingInv(pending, owner, callers) && AskedInv(asked, owner, callers)
    requires RegisteredInv(callers, pending, recv) && recv.LookingUp? && recv.reply.id in asked
    ensures var id := recv.reply.id;
      RegisteredInv(callers, pending - {id}, Handing(recv.reply, Registered(pending, id)))
  {
  }

  lemma RecvHandKeeps(s: State, header: Header)
    requires CoreInv(s) && CargoInv(s) && StreamEnabled(s, RecvHand(header))
    ensures CoreInv(StreamStep(s, RecvHand(header)))
  {
    var filling := Filling(s, header);
    FillingKeeps(s, header);
    ResolveKeeps(filling, HandEntry(s));
    assert StreamStep(s, RecvHand(header)) == filling.(recv := Listening, resolved := s.resolved + [HandEntry(s)]);
  }

  lemma FillingKeeps(s: State, header: Header)
    requires CoreInv(s) && CargoInv(s) && StreamEnabled(s, RecvHand(header))
    ensures CoreInv(Filling(s, header))
    ensures FullFor(Filling(s, header))
  {
    if s.recv.to.Some? {
      HandAnswers(s, header);
      OfferKeeps(s, s.recv.to.value, Some(Rebuilt(s.recv.reply, header)));
      FillingOffers(s, header);
    } else {
      FillingNothing(s, header);
    }
  }

  ghost predicate FullFor(s: State)
    requires s.recv.Handing?
  {
    s.recv.to.Some? ==> s.recv.to.value in s.callers && s.callers[s.recv.to.value].reply != []
  }

  lemma FillingNothing(s: State, header: Header)
    requires s.recv.Handing? && s.recv.to.None?
    ensures Filling(s, header) == s
  {
  }

  lemma FillingOffers(s: State, header: Header)
    requires s.recv.Handing? && s.recv.to.Some?
    ensures Filling(s, header)
         == s.(callers := Offered(s.callers, s.recv.to.value, Some(Rebuilt(s.recv.reply, header))))
  {
  }

  /** The state after the channel found has been offered the answer. */
  function Filling(s: State, header: Header): State
    requires s.recv.Handing?
  {
    s.(callers := Handed(s.callers, s.recv.to, Rebuilt(s.recv.reply, header)))
  }

  function HandEntry(s: State): Resolution
    requires s.recv.Handing?
  {
    Resolution(s.recv.reply.id, Fits(s.callers, s.recv.to))
  }

  lemma HandAnswers(s: State, header: Header)
    requires CargoInv(s) && RegisteredInv(s.callers, s.pending, s.recv)
    requires StreamEnabled(s, RecvHand(header)) && s.recv.to.Some?
    ensures s.recv.to.value in s.callers && !BeforeInsert(s.callers[s.recv.to.value].pc)
    ensures Answers(s.sent, s.callers[s.recv.to.value].id, Rebuilt(s.recv.reply, header))
  {
    assert RecvReply(s.recv)[0] == s.recv.reply;
    assert Decodes(s.recv.reply, Rebuilt(s.recv.reply, header));
  }

  /** The receive loop goes back to listening once the channel it found is full. */
  lemma ResolveKeeps(s: State, entry: Resolution)
    requires CoreInv(s) && s.recv.Handing? && entry.id == s.recv.reply.id
    requires s.recv.to.Some? ==> s.recv.to.value in s.callers && s.callers[s.recv.to.value].reply != []
    ensures CoreInv(s.(recv := Listening, resolved := s.resolved + [entry]))
  {
    ResolveParts(s, entry);
  }

  lemma ResolveParts(s: State, entry: Resolution)
    requires OwnerInv(s.owner, s.callers) && ResolvedInv(s.resolved, s.owner, s.callers)
    requires RegisteredInv(s.callers, s.pending, s.recv)
    requires s.recv.Handing? && entry.id == s.recv.reply.id
    requires s.recv.to.Some? ==> s.recv.to.value in s.callers && s.callers[s.recv.to.value].reply != []
    ensures RegisteredInv(s.callers, s.pending, Listening)
    ensures ResolvedInv(s.resolved + [entry], s.owner, s.callers)
  {
  }

  lemma RecvFailKeeps(s: State)
    requires CoreInv(s) && StreamEnabled(s, RecvFail)
    ensures CoreInv(StreamStep(s, RecvFail))
  {
  }

  lemma ClientTakeKeeps(s: State)
    requires CoreInv(s) && StreamEnabled(s, ClientTake)
    ensures CoreInv(StreamStep(s, ClientTake))
  {
  }

  lemma ClientReplyKeeps(s: State, sv: Service)
    requires CoreInv(s) && StreamEnabled(s, ClientReply(sv))
    ensures CoreInv(StreamStep(s, ClientReply(sv)))
  {
  }

  lemma ClientFailKeeps(s: State)
    requires CoreInv(s) && StreamEnabled(s, ClientFail)
    ensures CoreInv(StreamStep(s, ClientFail))
  {
  }

  lemma ClientRepeatKeeps(s: State, which: nat)
    requires CoreInv(s) && StreamEnabled(s, ClientRepeat(which))
    ensures CoreInv(StreamStep(s, ClientRepeat(which)))
  {
  }

  lemma WireLossKeeps(s: State, reqs: nat, reps: nat)
    requires CoreInv(s) && StreamEnabled(s, WireLoss(reqs, reps))
    ensures CoreInv(StreamStep(s, WireLoss(reqs, reps)))
  {
  }


  // ---------------------------------------------------------------- the flow

  /** The fields that the flow is about. */
  ghost predicate SameFlow(s: State, n: State) {
    && n.asked == s.asked && n.accepted == s.accepted && n.sendBuf == s.sendBuf && n.sender == s.sender
    && n.reqWire == s.reqWire && n.client == s.client && n.replyWire == s.replyWire
    && n.served == s.served && n.sent == s.sent && n.cut == s.cut
    && n.recv == s.recv && n.resolved == s.resolved && n.pending == s.pending
    && n.broken == s.broken && n.repeated == s.repeated
  }

  lemma FlowSame(s: State, n: State)
    requires FlowInv(s) && SameFlow(s, n)
    ensures FlowInv(n)
  {
  }

  lemma FlowIdle(s: State, t: CallerId, ca: CallerAction)
    requires FlowInv(s) && CallerEnabled(s, t, ca) && !ca.Insert? && !ca.Send? && !ca.Remove?
    ensures FlowInv(CallerStep(s, t, ca))
  {
    IdleSameFlow(s, t, ca);
    FlowSame(s, CallerStep(s, t, ca));
  }

  lemma IdleSameFlow(s: State, t: CallerId, ca: CallerAction)
    requires CallerEnabled(s, t, ca) && !ca.Insert? && !ca.Send? && !ca.Remove?
    ensures SameFlow(s, CallerStep(s, t, ca))
  {
    match ca
    case Enter(_) =>
    case LockCheck =>
    case SeeClosed =>
    case SeeOpen(_) =>
    case LockInsert =>
    case SendOnClosed =>
    case CancelSend =>
    case Receive =>
    case GiveUp =>
    case LockRemove =>
  }

  lemma FlowClose(s: State, k: CloserId, cl: CloserAction)
    requires FlowInv(s) && CloserEnabled(s, k, cl)
    ensures FlowInv(CloserStep(s, k, cl))
  {
    CloseSameFlow(s, k, cl);
    FlowSame(s, CloserStep(s, k, cl));
  }

  lemma CloseSameFlow(s: State, k: CloserId, cl: CloserAction)
    requires CloserEnabled(s, k, cl)
    ensures SameFlow(s, CloserStep(s, k, cl))
  {
    match cl
    case CloseEnter =>
    case CloseLock =>
    case CloseNoop =>
    case CloseMark =>
    case CloseChan =>
    case CloseLockPending =>
    case SweepOne(_) =>
    case SweepDone =>
    case CloseUnlock =>
  }

  lemma FlowInsert(s: State, t: CallerId)
    requires OwnerInv(s.owner, s.callers) && AskedInv(s.asked, s.owner, s.callers)
    requires FlowInv(s) && CallerEnabled(s, t, Insert)
    ensures FlowInv(CallerStep(s, t, Insert))
  {
  }

  lemma FlowRemove(s: State, t: CallerId)
    requires FlowInv(s) && CallerEnabled(s, t, Remove)
    ensures FlowInv(CallerStep(s, t, Remove))
  {
  }

  lemma CargoSend(s: State, m: Msg)
    requires CargoInv(s) && m.id !in s.asked
    ensures CargoInv(s.(asked := s.asked[m.id := m], sendBuf := s.sendBuf + [m]))
  {
  }

  lemma OrderSend(s: State, m: Msg)
    requires OrderInv(s)
    ensures OrderInv(s.(sendBuf := s.sendBuf + [m], accepted := s.accepted + [m.id]))
  {
    var n := s.(sendBuf := s.sendBuf + [m], accepted := s.accepted + [m.id]);
    assert MsgIds(s.sendBuf + [m]) == MsgIds(s.sendBuf) + [m.id];
    assert Unserved(n) == Unserved(s) + [m.id];
    RequestsSend(s.accepted, ReplyIds(s.sent), Unserved(s), s.broken, m.id);
  }

  lemma RequestsSend(accepted: seq<Id>, sentIds: seq<Id>, unserved: seq<Id>, broken: bool, id: Id)
    requires RequestsInv(accepted, sentIds, unserved, broken)
    ensures RequestsInv(accepted + [id], sentIds, unserved + [id], broken)
  {
    assert sentIds + (unserved + [id]) == (sentIds + unserved) + [id];
    OrderedSnoc(sentIds + unserved, accepted, id);
  }

  /** Losing requests that are under way. */
  lemma RequestsLose(accepted: seq<Id>, sentIds: seq<Id>, a: seq<Id>, lost: seq<Id>, c: seq<Id>, broken: bool)
    requires RequestsInv(accepted, sentIds, a + lost + c, broken)
    ensures RequestsInv(accepted, sentIds, a + c, true)
  {
    assert sentIds + (a + lost + c) == (sentIds + a) + lost + c;
    assert sentIds + (a + c) == (sentIds + a) + c;
    OrderedDrop(sentIds + a, lost, c, accepted);
  }

  /** Serving the first request. */
  lemma RequestsServe(accepted: seq<Id>, sentIds: seq<Id>, id: Id, rest: seq<Id>, broken: bool)
    requires RequestsInv(accepted, sentIds, [id] + rest, broken)
    ensures RequestsInv(accepted, sentIds + [id], rest, broken)
  {
    assert sentIds + ([id] + rest) == sentIds + [id] + rest;
  }

  /** A request about to be served was not served before. */
  lemma ServedOnce(accepted: seq<Id>, sentIds: seq<Id>, id: Id, rest: seq<Id>, broken: bool)
    requires RequestsInv(accepted, sentIds, [id] + rest, broken) && Distinct(accepted)
    ensures id !in sentIds
  {
    var line := sentIds + ([id] + rest);
    OrderedDistinct(line, accepted);
    assert line[|sentIds|] == id;
    assert forall i :: 0 <= i < |sentIds| ==> line[i] == sentIds[i] && line[i] != line[|sentIds|];
  }

  lemma RepliedServe(replied: seq<Id>, sentIds: seq<Id>, repeated: bool, cut: bool, id: Id)
    requires RepliedInv(replied, sentIds, repeated, cut) && id !in sentIds
    ensures RepliedInv(if cut then replied else replied + [id], sentIds + [id], repeated, cut)
  {
    FirstsMembers(replied);
    FirstsSnoc(replied, id);
  }

  lemma RepliedRepeat(replied: seq<Id>, sentIds: seq<Id>, repeated: bool, cut: bool, id: Id)
    requires RepliedInv(replied, sentIds, repeated, cut) && id in sentIds
    ensures RepliedInv(if cut then replied else replied + [id], sentIds, true, cut)
  {
    FirstsMembers(replied);
    FirstsSnoc(replied, id);
  }

  lemma RepliedCut(replied: seq<Id>, sentIds: seq<Id>, repeated: bool, cut: bool, n: nat)
    requires RepliedInv(replied, sentIds, repeated, cut) && n <= |replied|
    ensures RepliedInv(replied[..n], sentIds, repeated, true)
  {
    FirstsPrefix(replied, n);
  }

  lemma FlowSend(s: State, t: CallerId)
    requires OwnerInv(s.owner, s.callers) && AskedInv(s.asked, s.owner, s.callers)
    requires FlowInv(s) && CallerEnabled(s, t, Send)
    ensures FlowInv(CallerStep(s, t, Send))
  {
    var m := s.callers[t].msg;
    CargoSend(s, m);
    OrderSend(s, m);
    OnceSend(s.resolved, s.asked, m, s.pending, s.recv);
    AcceptedSend(s.asked, s.accepted, m);
  }

  lemma OnceSend(resolved: seq<Resolution>, asked: map<Id, Msg>, m: Msg, pending: map<Id, CallerId>, recv: RecvPc)
    requires OnceInv(resolved, asked, pending, recv)
    ensures OnceInv(resolved, asked[m.id := m], pending, recv)
  {
  }

  lemma AcceptedSend(asked: map<Id, Msg>, accepted: seq<Id>, m: Msg)
    requires AcceptedInv(asked, accepted) && m.id !in asked
    ensures AcceptedInv(asked[m.id := m], accepted + [m.id])
  {
  }

  lemma CargoStream(s: State, st: StreamAction)
    requires CargoInv(s) && StreamEnabled(s, st)
    ensures CargoInv(StreamStep(s, st))
  {
    MsgsStream(s, st);
    RepliesStream(s, st);
    SentStream(s, st);
  }

  /** The steps that move requests on. */
  predicate MovesMsgs(st: StreamAction) {
    st.SenderTake? || st.SenderPut? || st.SenderStop? || st.SenderFail?
    || st.ClientTake? || st.ClientReply? || st.ClientFail? || st.WireLoss?
  }

  lemma MsgsStream(s: State, st: StreamAction)
    requires MsgsInv(s) && StreamEnabled(s, st)
    ensures MsgsInv(StreamStep(s, st))
  {
    if MovesMsgs(st) {
      match st
      case SenderTake =>
      case SenderPut =>
      case SenderStop =>
      case SenderFail =>
      case ClientTake =>
      case ClientReply(_) =>
      case ClientFail =>
      case WireLoss(_, _) =>
    } else {
      MsgsSame(s, st);
    }
  }

  lemma MsgsSame(s: State, st: StreamAction)
    requires StreamEnabled(s, st) && !MovesMsgs(st)
    ensures var n := StreamStep(s, st);
      && n.asked == s.asked && n.sendBuf == s.sendBuf && n.sender == s.sender
      && n.reqWire == s.reqWire && n.client == s.client
  {
    match st
    case Start =>
    case AckFail =>
    case RecvTake =>
    case RecvLock =>
    case RecvLookup =>
    case RecvHand(_) =>
    case RecvFail =>
    case ClientRepeat(_) =>
  }

  /** The steps that leave the replies alone. */
  predicate NoReply(st: StreamAction) {
    st.Start? || st.AckFail? || st.SenderTake? || st.SenderPut? || st.SenderStop? || st.SenderFail?
    || st.RecvFail? || st.ClientTake? || st.ClientFail?
  }

  predicate RecvMoves(st: StreamAction) {
    st.RecvTake? || st.RecvLock? || st.RecvLookup? || st.RecvHand?
  }

  lemma RecvStream(s: State, st: StreamAction)
    requires RepliesInv(s) && StreamEnabled(s, st) && RecvMoves(st)
    ensures RepliesInv(StreamStep(s, st))
  {
    match st
    case RecvTake => assert s.replyWire[0] in s.sent;
    case RecvLock => assert RecvReply(StreamStep(s, st).recv) == RecvReply(s.recv);
    case RecvLookup => assert RecvReply(StreamStep(s, st).recv) == RecvReply(s.recv);
    case RecvHand(_) => assert RecvReply(StreamStep(s, st).recv) == [];
  }

  lemma RepliesStream(s: State, st: StreamAction)
    requires RepliesInv(s) && StreamEnabled(s, st)
    ensures RepliesInv(StreamStep(s, st))
  {
    if NoReply(st) {
      NoReplySame(s, st);
    } else if RecvMoves(st) {
      RecvStream(s, st);
    } else {
      match st
      case ClientReply(_) =>
      case ClientRepeat(_) =>
      case WireLoss(_, _) =>
    }
  }

  lemma SentStream(s: State, st: StreamAction)
    requires SentInv(s.asked, s.served, s.sent) && GoodMsgs(s.asked, ClientMsg(s.client)) && StreamEnabled(s, st)
    ensures var n := StreamStep(s, st); n.asked == s.asked && SentInv(n.asked, n.served, n.sent)
  {
    if st.ClientReply? {
      assert ClientMsg(s.client)[0] == s.client.msg;
    } else {
      SentSame(s, st);
    }
  }

  lemma SentSame(s: State, st: StreamAction)
    requires StreamEnabled(s, st) && !st.ClientReply?
    ensures var n := StreamStep(s, st); n.sent == s.sent && n.served == s.served && n.asked == s.asked
  {
    if NoReply(st) {
      NoReplySame(s, st);
    } else if RecvMoves(st) {
      RecvSame(s, st);
    }
  }

  lemma RecvSame(s: State, st: StreamAction)
    requires StreamEnabled(s, st) && RecvMoves(st)
    ensures var n := StreamStep(s, st); n.sent == s.sent && n.served == s.served && n.asked == s.asked
  {
    match st
    case RecvTake =>
    case RecvLock =>
    case RecvLookup =>
    case RecvHand(_) =>
  }

  lemma NoReplySame(s: State, st: StreamAction)
    requires StreamEnabled(s, st) && NoReply(st)
    ensures var n := StreamStep(s, st);
      && n.sent == s.sent && n.served == s.served && n.asked == s.asked
      && n.replyWire == s.replyWire && RecvReply(n.recv) == RecvReply(s.recv)
  {
    match st
    case Start =>
    case AckFail =>
    case SenderTake =>
    case SenderPut =>
    case SenderStop =>
    case SenderFail =>
    case RecvFail =>
    case ClientTake =>
    case ClientFail =>
  }

  lemma OnceLookup(s: State)
    requires OnceInv(s.resolved, s.asked, s.pending, s.recv) && s.recv.LookingUp?
    ensures var n := StreamStep(s, RecvLookup); OnceInv(n.resolved, n.asked, n.pending, n.recv)
  {
  }

  lemma OnceEntry(resolved: seq<Resolution>, asked: map<Id, Msg>, pending: map<Id, CallerId>, recv: RecvPc,
                  entry: Resolution)
    requires OnceInv(resolved, asked, pending, recv) && recv.Handing?
    requires entry.id == recv.reply.id && entry.id in asked && entry.id !in pending
    requires entry.delivered ==> recv.to.Some?
    ensures OnceInv(resolved + [entry], asked, pending, Listening)
  {
  }

  lemma OnceHand(s: State, header: Header)
    requires CargoInv(s) && RegisteredInv(s.callers, s.pending, s.recv)
    requires OnceInv(s.resolved, s.asked, s.pending, s.recv) && StreamEnabled(s, RecvHand(header))
    ensures var n := StreamStep(s, RecvHand(header)); OnceInv(n.resolved, n.asked, n.pending, n.recv)
  {
    HandInHand(s);
    OnceEntry(s.resolved, s.asked, s.pending, s.recv, HandEntry(s));
  }

  lemma HandInHand(s: State)
    requires CargoInv(s) && s.recv.Handing?
    ensures s.recv.reply.id in s.asked
  {
    assert RecvReply(s.recv)[0] == s.recv.reply;
  }

  lemma OnceStream(s: State, st: StreamAction)
    requires OnceInv(s.resolved, s.asked, s.pending, s.recv) && StreamEnabled(s, st)
    requires !st.RecvLookup? && !st.RecvHand?
    ensures var n := StreamStep(s, st); OnceInv(n.resolved, n.asked, n.pending, n.recv)
  {
    UntouchedOnce(s, st);
  }

  lemma UntouchedOnce(s: State, st: StreamAction)
    requires StreamEnabled(s, st) && !st.RecvLookup? && !st.RecvHand?
    ensures var n := StreamStep(s, st);
      && n.resolved == s.resolved && n.asked == s.asked && n.pending == s.pending
      && (n.recv == s.recv || !n.recv.Handing?)
  {
    match st
    case Start =>
    case AckFail =>
    case SenderTake =>
    case SenderPut =>
    case SenderStop =>
    case SenderFail =>
    case RecvTake =>
    case RecvLock =>
    case RecvFail =>
    case ClientTake =>
    case ClientReply(_) =>
    case ClientFail =>
    case ClientRepeat(_) =>
    case WireLoss(_, _) =>
  }

  /** Taking the head of a queue into an empty hand, and putting what is held at
      the end of the next queue, leave the concatenation alone. */
  lemma TakeHead(before: seq<Id>, queue: seq<Id>)
    requires queue != []
    ensures before + [] + queue == before + [queue[0]] + queue[1..]
  {
  }

  lemma PutLast(before: seq<Id>, queue: seq<Id>, x: Id)
    ensures before + queue + [x] == before + (queue + [x]) + []
  {
  }

  lemma MsgIdsTail(q: seq<Msg>)
    requires q != []
    ensures MsgIds(q) == [q[0].id] + MsgIds(q[1..]) && MsgIds(q)[1..] == MsgIds(q[1..]) && MsgIds([q[0]]) == [q[0].id]
    ensures MsgIds([]) == []
  {
  }

  lemma MsgIdsSnoc(q: seq<Msg>, m: Msg)
    ensures MsgIds(q + [m]) == MsgIds(q) + [m.id] && MsgIds([m]) == [m.id] && MsgIds([]) == []
  {
  }

  lemma ReplyIdsTail(q: seq<Reply>)
    requires q != []
    ensures ReplyIds(q)[1..] == ReplyIds(q[1..]) && ReplyIds([q[0]]) == [q[0].id] && ReplyIds([]) == []
  {
  }

  lemma ReplyIdsSnoc(q: seq<Reply>, r: Reply)
    ensures ReplyIds(q + [r]) == ReplyIds(q) + [r.id] && ReplyIds([r]) == [r.id] && ReplyIds([]) == []
  {
  }

  /** The steps that only move an id from one place to the next, or none. */
  lemma OrderMoved(s: State, n: State)
    requires OrderInv(s) && ReplyLine(n) == ReplyLine(s) && Unserved(n) == Unserved(s)
    requires n.accepted == s.accepted && n.sent == s.sent && n.repeated == s.repeated && n.cut == s.cut
    requires s.broken ==> n.broken
    ensures OrderInv(n)
  {
  }

  lemma OrderSenderTake(s: State)
    requires OrderInv(s) && StreamEnabled(s, SenderTake)
    ensures OrderInv(StreamStep(s, SenderTake))
  {
    MsgIdsTail(s.sendBuf);
    TakeHead(MsgIds(ClientMsg(s.client)) + MsgIds(s.reqWire), MsgIds(s.sendBuf));
    OrderMoved(s, StreamStep(s, SenderTake));
  }

  lemma OrderSenderPut(s: State)
    requires OrderInv(s) && StreamEnabled(s, SenderPut)
    ensures OrderInv(StreamStep(s, SenderPut))
  {
    if s.cut {
      OrderSenderDrop(s, StreamStep(s, SenderPut));
    } else {
      MsgIdsSnoc(s.reqWire, s.sender.msg);
      PutLast(MsgIds(ClientMsg(s.client)), MsgIds(s.reqWire), s.sender.msg.id);
      OrderMoved(s, StreamStep(s, SenderPut));
    }
  }

  /** The message in the sender's hand is lost. */
  lemma OrderSenderDrop(s: State, n: State)
    requires OrderInv(s) && s.sender.SenderHolds? && !n.sender.SenderHolds? && n.broken
    requires n == s.(sender := n.sender, broken := n.broken)
    ensures OrderInv(n)
  {
    var before := MsgIds(ClientMsg(s.client)) + MsgIds(s.reqWire);
    RequestsLose(s.accepted, ReplyIds(s.sent), before, MsgIds(SenderMsg(s.sender)), MsgIds(s.sendBuf), s.broken);
    assert MsgIds(SenderMsg(n.sender)) == [];
    assert Unserved(n) == before + MsgIds(s.sendBuf);
  }

  lemma OrderClientTake(s: State)
    requires OrderInv(s) && StreamEnabled(s, ClientTake)
    ensures OrderInv(StreamStep(s, ClientTake))
  {
    MsgIdsTail(s.reqWire);
    TakeHead([], MsgIds(s.reqWire));
    assert [] + [] + MsgIds(s.reqWire) == MsgIds(ClientMsg(s.client)) + MsgIds(s.reqWire);
    var n := StreamStep(s, ClientTake);
    assert MsgIds(ClientMsg(n.client)) + MsgIds(n.reqWire) == [] + [MsgIds(s.reqWire)[0]] + MsgIds(s.reqWire)[1..];
    OrderMoved(s, n);
  }

  /** What is unserved behind the client. */
  function Behind(s: State): seq<Id> {
    MsgIds(s.reqWire) + MsgIds(SenderMsg(s.sender)) + MsgIds(s.sendBuf)
  }

  lemma UnservedBehind(s: State)
    ensures Unserved(s) == MsgIds(ClientMsg(s.client)) + Behind(s)
  {
  }

  lemma OrderClientReply(s: State, sv: Service)
    requires OrderInv(s) && Distinct(s.accepted) && StreamEnabled(s, ClientReply(sv))
    ensures OrderInv(StreamStep(s, ClientReply(sv)))
  {
    var n, r := StreamStep(s, ClientReply(sv)), ReplyFor(sv);
    UnservedBehind(s);
    UnservedBehind(n);
    assert MsgIds([s.client.msg]) == [r.id] && MsgIds([]) == [];
    assert [] + Behind(s) == Behind(s);
    ReplyIdsSnoc(s.sent, r);
    ServedOnce(s.accepted, ReplyIds(s.sent), r.id, Behind(s), s.broken);
    RequestsServe(s.accepted, ReplyIds(s.sent), r.id, Behind(s), s.broken);
    RepliedServe(ReplyLine(s), ReplyIds(s.sent), s.repeated, s.cut, r.id);
    RepliedPut(s, n, r);
  }

  lemma RepliedPut(s: State, n: State, r: Reply)
    requires n.resolved == s.resolved && n.recv == s.recv && n.replyWire == Put(s.replyWire, s.cut, r)
    ensures ReplyLine(n) == if s.cut then ReplyLine(s) else ReplyLine(s) + [r.id]
  {
    ReplyIdsSnoc(s.replyWire, r);
  }

  lemma OrderClientRepeat(s: State, which: nat)
    requires OrderInv(s) && StreamEnabled(s, ClientRepeat(which))
    ensures OrderInv(StreamStep(s, ClientRepeat(which)))
  {
    var n, r := StreamStep(s, ClientRepeat(which)), s.sent[which];
    assert ReplyIds(s.sent)[which] == r.id;
    RepliedRepeat(ReplyLine(s), ReplyIds(s.sent), s.repeated, s.cut, r.id);
    RepliedPut(s, n, r);
  }

  lemma OrderClientFail(s: State)
    requires OrderInv(s) && StreamEnabled(s, ClientFail)
    ensures OrderInv(StreamStep(s, ClientFail))
  {
    var n := StreamStep(s, ClientFail);
    UnservedBehind(s);
    UnservedBehind(n);
    assert [] + MsgIds(ClientMsg(s.client)) == MsgIds(ClientMsg(s.client));
    RequestsLose(s.accepted, ReplyIds(s.sent), [], MsgIds(ClientMsg(s.client)), Behind(s), s.broken);
  }

  lemma OrderWireLoss(s: State, reqs: nat, reps: nat)
    requires OrderInv(s) && StreamEnabled(s, WireLoss(reqs, reps))
    ensures OrderInv(StreamStep(s, WireLoss(reqs, reps)))
  {
    var n := StreamStep(s, WireLoss(reqs, reps));
    RequestsCut(s, n, reqs);
    var arrived := |s.resolved| + |RecvReply(s.recv)|;
    assert ReplyLine(n) == ReplyLine(s)[..arrived + reps];
    RepliedCut(ReplyLine(s), ReplyIds(s.sent), s.repeated, s.cut, arrived + reps);
  }

  lemma RequestsCut(s: State, n: State, reqs: nat)
    requires RequestsInv(s.accepted, ReplyIds(s.sent), Unserved(s), s.broken) && reqs <= |s.reqWire|
    requires n.client == s.client && n.reqWire == s.reqWire[..reqs] && n.sender == s.sender && n.sendBuf == s.sendBuf
    ensures RequestsInv(s.accepted, ReplyIds(s.sent), Unserved(n), true)
  {
    var kept := MsgIds(ClientMsg(s.client)) + MsgIds(s.reqWire[..reqs]);
    var lost := MsgIds(s.reqWire[reqs..]);
    var rest := MsgIds(SenderMsg(s.sender)) + MsgIds(s.sendBuf);
    UnservedCut(s, n, reqs);
    RequestsLose(s.accepted, ReplyIds(s.sent), kept, lost, rest, s.broken);
  }

  lemma UnservedCut(s: State, n: State, reqs: nat)
    requires reqs <= |s.reqWire|
    requires n.client == s.client && n.reqWire == s.reqWire[..reqs] && n.sender == s.sender && n.sendBuf == s.sendBuf
    ensures var kept := MsgIds(ClientMsg(s.client)) + MsgIds(s.reqWire[..reqs]);
      var rest := MsgIds(SenderMsg(s.sender)) + MsgIds(s.sendBuf);
      Unserved(s) == kept + MsgIds(s.reqWire[reqs..]) + rest && Unserved(n) == kept + rest
  {
    assert MsgIds(s.reqWire) == MsgIds(s.reqWire[..reqs]) + MsgIds(s.reqWire[reqs..]);
  }

  lemma OrderRecvTake(s: State)
    requires OrderInv(s) && StreamEnabled(s, RecvTake)
    ensures OrderInv(StreamStep(s, RecvTake))
  {
    ReplyIdsTail(s.replyWire);
    TakeHead(ResolvedIds(s.resolved), ReplyIds(s.replyWire));
    OrderMoved(s, StreamStep(s, RecvTake));
  }

  lemma OrderRecvHand(s: State, header: Header)
    requires OrderInv(s) && StreamEnabled(s, RecvHand(header))
    ensures OrderInv(StreamStep(s, RecvHand(header)))
  {
    assert ResolvedIds(s.resolved + [HandEntry(s)]) == ResolvedIds(s.resolved) + [s.recv.reply.id];
    assert ReplyIds([s.recv.reply]) == [s.recv.reply.id] && ReplyIds([]) == [];
    assert ResolvedIds(s.resolved) + [s.recv.reply.id] + [] == ResolvedIds(s.resolved) + [s.recv.reply.id];
    OrderMoved(s, StreamStep(s, RecvHand(header)));
  }

  lemma OrderRest(s: State, st: StreamAction)
    requires OrderInv(s) && StreamEnabled(s, st)
    requires st.Start? || st.AckFail? || st.SenderStop? || st.RecvLock? || st.RecvLookup? || st.RecvFail?
    ensures OrderInv(StreamStep(s, st))
  {
    RestStays(s, st);
    OrderMoved(s, StreamStep(s, st));
  }

  lemma RestStays(s: State, st: StreamAction)
    requires StreamEnabled(s, st)
    requires st.Start? || st.AckFail? || st.SenderStop? || st.RecvLock? || st.RecvLookup? || st.RecvFail?
    ensures var n := StreamStep(s, st);
      && ReplyLine(n) == ReplyLine(s) && Unserved(n) == Unserved(s) && n.accepted == s.accepted && n.sent == s.sent
      && n.repeated == s.repeated && n.cut == s.cut && (s.broken ==> n.broken)
  {
    match st
    case Start =>
    case AckFail =>
    case SenderStop =>
    case RecvLock =>
    case RecvLookup =>
    case RecvFail =>
  }

  lemma OrderStream(s: State, st: StreamAction)
    requires OrderInv(s) && Distinct(s.accepted) && StreamEnabled(s, st)
    ensures OrderInv(StreamStep(s, st))
  {
    match st
    case SenderTake => OrderSenderTake(s);
    case SenderPut => OrderSenderPut(s);
    case SenderFail => OrderSenderDrop(s, StreamStep(s, st));
    case ClientTake => OrderClientTake(s);
    case ClientReply(sv) => OrderClientReply(s, sv);
    case ClientRepeat(which) => OrderClientRepeat(s, which);
    case ClientFail => OrderClientFail(s);
    case WireLoss(reqs, reps) => OrderWireLoss(s, reqs, reps);
    case RecvTake => OrderRecvTake(s);
    case RecvHand(header) => OrderRecvHand(s, header);
    case _ => OrderRest(s, st);
  }

  lemma FlowStream(s: State, st: StreamAction)
    requires FlowInv(s) && RegisteredInv(s.callers, s.pending, s.recv) && StreamEnabled(s, st)
    ensures FlowInv(StreamStep(s, st))
  {
    CargoStream(s, st);
    OrderStream(s, st);
    match st
    case RecvLookup => OnceLookup(s);
    case RecvHand(header) => OnceHand(s, header);
    case _ => OnceStream(s, st);
  }

  lemma FlowCall(s: State, t: CallerId, ca: CallerAction)
    requires OwnerInv(s.owner, s.callers) && AskedInv(s.asked, s.owner, s.callers)
    requires FlowInv(s) && CallerEnabled(s, t, ca)
    ensures FlowInv(CallerStep(s, t, ca))
  {
    match ca
    case Insert => FlowInsert(s, t);
    case Send => FlowSend(s, t);
    case Remove => FlowRemove(s, t);
    case _ => FlowIdle(s, t, ca);
  }

  // ---------------------------------------------------------------- every step

  lemma CallKeeps(s: State, t: CallerId, ca: CallerAction)
    requires CoreInv(s) && CargoInv(s) && OnceInv(s.resolved, s.asked, s.pending, s.recv)
    requires CallerEnabled(s, t, ca) && FreshStep(s, Call(t, ca))
    ensures CoreInv(CallerStep(s, t, ca))
  {
    match ca
    case Enter(req) => EnterKeeps(s, t, req);
    case LockCheck => LockCheckKeeps(s, t);
    case SeeClosed => SeeClosedKeeps(s, t);
    case SeeOpen(uuid) => SeeOpenKeeps(s, t, uuid);
    case LockInsert => LockInsertKeeps(s, t);
    case Insert => InsertKeeps(s, t);
    case Send => SendKeeps(s, t);
    case SendOnClosed => SendOnClosedKeeps(s, t);
    case CancelSend => CancelSendKeeps(s, t);
    case Receive => ReceiveKeeps(s, t);
    case GiveUp => GiveUpKeeps(s, t);
    case LockRemove => LockRemoveKeeps(s, t);
    case Remove => RemoveKeeps(s, t);
  }

  lemma CloseKeeps(s: State, k: CloserId, cl: CloserAction)
    requires CoreInv(s) && CloserEnabled(s, k, cl)
    ensures CoreInv(CloserStep(s, k, cl))
  {
    if cl.CloseEnter? {
      CloseEnterKeeps(s, k);
    } else if cl.SweepOne? {
      SweepOneKeeps(s, k, cl.id);
    } else {
      ClosePartKeeps(s, k, cl);
      ClosePartIs(s, k, cl);
      ClosePartOnly(s, CloserStep(s, k, cl));
    }
  }

  lemma StreamKeeps(s: State, st: StreamAction)
    requires CoreInv(s) && CargoInv(s) && StreamEnabled(s, st)
    ensures CoreInv(StreamStep(s, st))
  {
    match st
    case Start => StartKeeps(s);
    case AckFail => AckFailKeeps(s);
    case SenderTake => SenderTakeKeeps(s);
    case SenderPut => SenderPutKeeps(s);
    case SenderStop => SenderStopKeeps(s);
    case SenderFail => SenderFailKeeps(s);
    case RecvTake => RecvTakeKeeps(s);
    case RecvLock => RecvLockKeeps(s);
    case RecvLookup => RecvLookupKeeps(s);
    case RecvHand(header) => RecvHandKeeps(s, header);
    case RecvFail => RecvFailKeeps(s);
    case ClientTake => ClientTakeKeeps(s);
    case ClientReply(sv) => ClientReplyKeeps(s, sv);
    case ClientFail => ClientFailKeeps(s);
    case ClientRepeat(which) => ClientRepeatKeeps(s, which);
    case WireLoss(reqs, reps) => WireLossKeeps(s, reqs, reps);
  }

  lemma StepKeeps(s: State, a: Action)
    requires Inv(s) && Enabled(s, a) && FreshStep(s, a)
    ensures Inv(Step(s, a))
  {
    match a
    case Call(t, ca) => CallKeeps(s, t, ca); FlowCall(s, t, ca);
    case Close(k, cl) => CloseKeeps(s, k, cl); FlowClose(s, k, cl);
    case Stream(st) => StreamKeeps(s, st); FlowStream(s, st);
  }

  /** The invariant holds after every run. */
  lemma {:induction false} RunInv(run: seq<Action>)
    requires Run(run)
    ensures Inv(StateAfter(run))
    decreases |run|
  {
    if run == [] {
      InitInv();
    } else {
      var n := |run| - 1;
      RunInv(run[..n]);
      StepKeeps(StateAfter(run[..n]), run[n]);
    }
  }
}
