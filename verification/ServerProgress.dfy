/** How long a lock is held: a measure of what a thread that holds a lock has left to
    do before it holds none, lowered by each of its steps and raised by no other
    thread's except one that registers a call. */
module ServerProgress {
  import opened Text
  import Headers
  import T = Tunnel
  import I = TunnelInv
  import opened Server
  import opened ServerInv
  import opened ServerTheorems

  // ---------------------------------------------------------------- the measure

  /** The steps left of a call to Close, if every id now registered is swept. */
  function CloseRest(conn: T.State, k: T.CloserId): nat {
    if k !in conn.closers then 0
    else
      match conn.closers[k]
      case CloseEntered => |conn.pending| + 6
      case CloseChecking => |conn.pending| + 5
      case Marked => |conn.pending| + 4
      case ChanClosed => |conn.pending| + 3
      case Sweeping(todo) => |todo| + 2
      case Swept => 1
      case CloseReturned => 0
  }

  predicate InSection(pc: T.CallerPc) {
    pc.Checking? || pc.Inserting? || pc.Removing?
  }

  function CallerRest(conn: T.State, t: T.CallerId): nat {
    if t in conn.callers && InSection(conn.callers[t].pc) then 1 else 0
  }

  function RestOn(conns: Conns, v: ConnId, k: T.CloserId): nat {
    if v in conns then CloseRest(conns[v], k) else 0
  }

  /** A registry operation that has yet to look its hostname up. */
  function LookupRest(tunnels: map<Host, ConnId>, conns: Conns, h: Host): nat {
    if h in tunnels && tunnels[h] in conns then |conns[tunnels[h]].pending| + 8 else 1
  }

  function StreamRest(s: State, c: ConnId): nat {
    if c !in s.streams || c !in s.hosts then 0
    else
      match s.streams[c]
      case Serving => if c in s.conns && s.conns[c].recv.LookingUp? then 1 else 0
      case TearingDown => RestOn(s.conns, c, T.StreamThread(c))
      case Registering(_) => LookupRest(s.tunnels, s.conns, s.hosts[c])
      case Unregistering => LookupRest(s.tunnels, s.conns, s.hosts[c])
      case Replacing(v) => RestOn(s.conns, v, T.StreamThread(c)) + 1
      case Evicting(v) => RestOn(s.conns, v, T.StreamThread(c)) + 1
      case _ => 0
  }

  function AdminRest(s: State, a: AdminId): nat {
    if a !in s.admins then 0
    else
      match s.admins[a]
      case AdminHolding(h) => LookupRest(s.tunnels, s.conns, h)
      case AdminClosing(_, v) => RestOn(s.conns, v, T.AdminThread(a)) + 1
      case _ => 0
  }

  function Rest(s: State, th: Thread): nat {
    match th
    case Handler(c, t) => if c in s.conns then CallerRest(s.conns[c], t) else 0
    case StreamTh(c) => StreamRest(s, c)
    case AdminTh(a) => AdminRest(s, a)
    case ReaderTh(r) => if r in s.reading then 1 else 0
    case SenderTh(_) => 0
    case RemoteTh(_) => 0
  }

  // ---------------------------------------------------------------- who holds a lock

  /** What a stream's thread is doing when it holds a lock. */
  predicate StreamBusy(s: State, c: ConnId) {
    c in s.streams && c in s.conns && c in s.hosts &&
    (|| StreamHoldsMu(s.streams[c])
     || (s.streams[c].Serving? && s.conns[c].recv.LookingUp?)
     || (s.streams[c].TearingDown? && MidClose(s.conns[c], T.StreamThread(c))))
  }

  predicate MidClose(conn: T.State, k: T.CloserId) {
    k in conn.closers && !conn.closers[k].CloseReturned? && !conn.closers[k].CloseEntered?
  }

  lemma HoldingStream(s: State, c: ConnId)
    requires ServerOk(s) && HoldsSome(s, StreamTh(c))
    ensures StreamBusy(s, c)
  {
    if MuThread(s.mu) != Some(StreamTh(c)) {
      var x := HeldIn(s, StreamTh(c));
      HoldingStreamIn(s, c, x);
    }
  }

  lemma HoldingStreamIn(s: State, c: ConnId, x: ConnId)
    requires ServerOk(s) && x in s.conns
    requires HoldsIn(s, StreamTh(c), CLOSED_MU, x) || HoldsIn(s, StreamTh(c), PENDING_MU, x)
    ensures StreamBusy(s, c)
  {
    StreamOwns(s, c, x);
    if s.conns[x].pendingMu.ByRecv? && x == c {
      LookingIsBusy(s, c);
    } else {
      ClosingIsBusy(s, c, x);
    }
  }

  /** A stream's thread owns a lock through its receive loop or a call to Close. */
  lemma StreamOwns(s: State, c: ConnId, x: ConnId)
    requires ConnsInv(s.conns) && x in s.conns
    requires HoldsIn(s, StreamTh(c), CLOSED_MU, x) || HoldsIn(s, StreamTh(c), PENDING_MU, x)
    ensures (s.conns[x].pendingMu.ByRecv? && x == c)
      || s.conns[x].closedMu == T.ByCloser(T.StreamThread(c)) || s.conns[x].pendingMu == T.ByCloser(T.StreamThread(c))
  {
    ConnLocks(s.conns[x]);
  }

  lemma LookingIsBusy(s: State, c: ConnId)
    requires ServerOk(s) && c in s.conns && s.conns[c].pendingMu.ByRecv?
    ensures StreamBusy(s, c)
  {
    LookingUp(s, c);
    ConnLocks(s.conns[c]);
    RecvIsLooking(s.conns[c]);
  }

  lemma ClosingIsBusy(s: State, c: ConnId, x: ConnId)
    requires ServerOk(s) && x in s.conns
    requires s.conns[x].closedMu == T.ByCloser(T.StreamThread(c))
      || s.conns[x].pendingMu == T.ByCloser(T.StreamThread(c))
    ensures StreamBusy(s, c)
  {
    HoldingIn(s, T.StreamThread(c), x);
  }

  lemma RecvIsLooking(conn: T.State)
    requires I.LockInv(conn) && conn.pendingMu.ByRecv?
    ensures conn.recv.LookingUp?
  {
  }

  lemma HoldingAdmin(s: State, a: AdminId)
    requires ServerOk(s) && HoldsSome(s, AdminTh(a))
    ensures a in s.admins && AdminHoldsMu(s.admins[a])
  {
    if MuThread(s.mu) != Some(AdminTh(a)) {
      var x := HeldIn(s, AdminTh(a));
      HoldingAdminIn(s, a, x);
    }
  }

  lemma AdminOwns(x: ConnId, o: T.Owner, a: AdminId)
    requires OwnerThread(x, o) == Some(AdminTh(a))
    ensures o == T.ByCloser(T.AdminThread(a))
  {
  }

  lemma HoldingAdminIn(s: State, a: AdminId, x: ConnId)
    requires ServerOk(s) && x in s.conns
    requires HoldsIn(s, AdminTh(a), CLOSED_MU, x) || HoldsIn(s, AdminTh(a), PENDING_MU, x)
    ensures a in s.admins && AdminHoldsMu(s.admins[a])
  {
    if HoldsIn(s, AdminTh(a), CLOSED_MU, x) {
      AdminOwns(x, s.conns[x].closedMu, a);
    } else {
      AdminOwns(x, s.conns[x].pendingMu, a);
    }
    HoldingIn(s, T.AdminThread(a), x);
    AdminIsClosing(s.streams, s.admins, x, a);
  }

  lemma AdminIsClosing(streams: Streams, admins: Admins, x: ConnId, a: AdminId)
    requires Attributed(streams, admins, x, T.AdminThread(a))
    ensures a in admins && AdminHoldsMu(admins[a])
  {
  }

  lemma HoldingHandler(s: State, c: ConnId, t: T.CallerId)
    requires ConnsInv(s.conns) && HoldsSome(s, Handler(c, t))
    ensures c in s.conns && CallerRest(s.conns[c], t) == 1
  {
    var x := HeldIn(s, Handler(c, t));
    HandlerSection(s, c, t, x);
  }

  lemma HandlerSection(s: State, c: ConnId, t: T.CallerId, x: ConnId)
    requires ConnsInv(s.conns) && x in s.conns
    requires HoldsIn(s, Handler(c, t), CLOSED_MU, x) || HoldsIn(s, Handler(c, t), PENDING_MU, x)
    ensures c in s.conns && CallerRest(s.conns[c], t) == 1
  {
    ConnLocks(s.conns[x]);
  }

  /** The connection whose lock a thread holds that holds no lock of the registry. */
  lemma HeldIn(s: State, th: Thread) returns (x: ConnId)
    requires HoldsSome(s, th) && !Holds(s, th, MU)
    ensures x in s.conns && (HoldsIn(s, th, CLOSED_MU, x) || HoldsIn(s, th, PENDING_MU, x))
  {
    if Holds(s, th, CLOSED_MU) {
      x :| x in s.conns && HoldsIn(s, th, CLOSED_MU, x);
    } else {
      x :| x in s.conns && HoldsIn(s, th, PENDING_MU, x);
    }
  }

  lemma HoldsNothing(s: State, th: Thread)
    requires th.SenderTh? || th.RemoteTh?
    ensures !HoldsSome(s, th)
  {
    if HoldsSome(s, th) {
      var x := HeldIn(s, th);
      assert false;
    }
  }

  lemma ReaderReads(s: State, r: ReaderId)
    requires HoldsSome(s, ReaderTh(r))
    ensures r in s.reading
  {
    if r !in s.reading {
      var x := HeldIn(s, ReaderTh(r));
      assert false;
    }
  }

  lemma HolderHasRest(s: State, th: Thread)
    requires ServerOk(s) && HoldsSome(s, th)
    ensures Rest(s, th) > 0
  {
    match th
    case Handler(c, t) => HoldingHandler(s, c, t);
    case StreamTh(c) => HoldingStream(s, c); BusyHasRest(s, c);
    case AdminTh(a) => HoldingAdmin(s, a); WritingHasRest(s, a);
    case ReaderTh(r) => ReaderReads(s, r);
    case SenderTh(_) => HoldsNothing(s, th);
    case RemoteTh(_) => HoldsNothing(s, th);
  }

  lemma WritingHasRest(s: State, a: AdminId)
    requires a in s.admins && AdminHoldsMu(s.admins[a])
    ensures AdminRest(s, a) > 0
  {
  }

  lemma BusyHasRest(s: State, c: ConnId)
    requires StreamBusy(s, c)
    ensures StreamRest(s, c) > 0
  {
  }

  // ---------------------------------------------------------------- steps of the holder

  lemma CloseStepLowers(conn: T.State, k: T.CloserId, cl: T.CloserAction)
    requires T.CloserEnabled(conn, k, cl) && !cl.CloseEnter?
    ensures CloseRest(T.CloserStep(conn, k, cl), k) < CloseRest(conn, k)
  {
    match cl
    case CloseLock =>
    case CloseNoop =>
    case CloseMark =>
    case CloseChan =>
    case CloseLockPending => assert |conn.pending.Keys| == |conn.pending|;
    case SweepOne(_) =>
    case SweepDone =>
    case CloseUnlock =>
  }

  lemma CallStepLowers(conn: T.State, t: T.CallerId, ca: T.CallerAction)
    requires T.CallerEnabled(conn, t, ca) && CallerRest(conn, t) == 1
    ensures CallerRest(T.CallerStep(conn, t, ca), t) == 0
  {
    match ca
    case Enter(_) =>
    case LockCheck =>
    case SeeClosed =>
    case SeeOpen(_) =>
    case LockInsert =>
    case Insert =>
    case Send =>
    case SendOnClosed =>
    case CancelSend =>
    case Receive =>
    case GiveUp =>
    case LockRemove =>
    case Remove =>
  }

  lemma CloserIsAttributed(s: State, x: ConnId, k: T.CloserId, cl: T.CloserAction)
    requires ClosersInv(s.conns, s.streams, s.admins) && InnerEnabled(s, x, T.Close(k, cl))
    ensures Attributed(s.streams, s.admins, x, k)
  {
    assert k in s.conns[x].closers && !s.conns[x].closers[k].CloseReturned?;
  }

  lemma OwnClose(s: State, x: ConnId, k: T.CloserId, cl: T.CloserAction)
    requires ClosersInv(s.conns, s.streams, s.admins) && DomainInv(s) && InnerEnabled(s, x, T.Close(k, cl))
    ensures Rest(Step(s, Inner(x, T.Close(k, cl))), CloserThread(k)) < Rest(s, CloserThread(k))
  {
    CloserIsAttributed(s, x, k, cl);
    CloseStepLowers(s.conns[x], k, cl);
    CloseRestIsRest(s, x, k, T.CloserStep(s.conns[x], k, cl));
  }

  /** The rest of a Close is part of the rest of the thread that called it. */
  lemma CloseRestIsRest(s: State, x: ConnId, k: T.CloserId, conn: T.State)
    requires DomainInv(s) && x in s.conns && Attributed(s.streams, s.admins, x, k)
    requires CloseRest(conn, k) < CloseRest(s.conns[x], k)
    ensures Rest(With(s, x, conn), CloserThread(k)) < Rest(s, CloserThread(k))
  {
    match k
    case StreamThread(d) =>
    case AdminThread(a) =>
  }

  /** A stream's thread that holds a lock is at no other step of its receive loop. */
  lemma OwnStream(s: State, c: ConnId, st: T.StreamAction)
    requires DomainInv(s) && LifeInv(s.streams, s.conns) && StreamBusy(s, c)
    requires InnerEnabled(s, c, T.Stream(st)) && !SenderStep(st) && !RemoteStep(st)
    ensures st.RecvLookup? && s.streams[c].Serving? && s.conns[c].recv.LookingUp?
  {
    assert Life(s.streams[c], s.conns[c]);
  }

  lemma OwnLookup(s: State, c: ConnId)
    requires InnerEnabled(s, c, T.Stream(T.RecvLookup)) && c in s.hosts && s.streams[c].Serving?
    ensures Rest(Step(s, Inner(c, T.Stream(T.RecvLookup))), StreamTh(c)) < Rest(s, StreamTh(c))
  {
  }

  /** The steps of a registry operation that ends with them. */
  predicate Ends(ra: RegistryAction) {
    ra.Conflict? || ra.Insert? || ra.Replace? || ra.FindNone? || ra.RemoveFound?
  }

  lemma OwnEnd(s: State, c: ConnId, ra: RegistryAction)
    requires LifeInv(s.streams, s.conns) && RegEnabled(s, c, ra) && Ends(ra)
    ensures StreamRest(RegStep(s, c, ra), c) == 0 < StreamRest(s, c)
  {
    assert Life(s.streams[c], s.conns[c]);
    match ra
    case Conflict =>
    case Insert =>
    case Replace =>
    case FindNone =>
    case RemoveFound =>
  }

  lemma OwnBegin(s: State, c: ConnId, ra: RegistryAction)
    requires RegEnabled(s, c, ra) && (ra.CloseOld? || ra.CloseFound?)
    ensures StreamRest(RegStep(s, c, ra), c) < StreamRest(s, c)
  {
    var v := s.tunnels[s.hosts[c]];
    BeginRest(s.conns[v], T.StreamThread(c));
    match ra
    case CloseOld =>
    case CloseFound =>
  }

  lemma BeginRest(conn: T.State, k: T.CloserId)
    requires T.CloserEnabled(conn, k, T.CloseEnter)
    ensures CloseRest(Begin(conn, k), k) == |conn.pending| + 6
  {
  }

  lemma BusyReg(s: State, c: ConnId, ra: RegistryAction)
    requires StreamBusy(s, c) && RegEnabled(s, c, ra)
    ensures Ends(ra) || ra.CloseOld? || ra.CloseFound?
  {
    match ra
    case Arrive(_, _) =>
    case LockRegister =>
    case Conflict =>
    case Insert =>
    case CloseOld =>
    case Replace =>
    case StreamEnds =>
    case CloseDone =>
    case LockUnregister =>
    case FindNone =>
    case CloseFound =>
    case RemoveFound =>
  }

  lemma OwnReg(s: State, c: ConnId, ra: RegistryAction)
    requires LifeInv(s.streams, s.conns) && StreamBusy(s, c) && RegEnabled(s, c, ra)
    ensures StreamRest(RegStep(s, c, ra), c) < StreamRest(s, c)
  {
    BusyReg(s, c, ra);
    if Ends(ra) {
      OwnEnd(s, c, ra);
    } else {
      OwnBegin(s, c, ra);
    }
  }

  lemma OwnAdm(s: State, a: AdminId, aa: AdminAction)
    requires EntryInv(s.tunnels, s.hosts, s.streams, s.admins) && DomainInv(s)
    requires a in s.admins && AdminHoldsMu(s.admins[a]) && AdmEnabled(s, a, aa)
    ensures AdminRest(AdmStep(s, a, aa), a) < AdminRest(s, a)
  {
    match aa
    case AdminEnter(_) =>
    case AdminLock =>
    case AdminNone =>
    case AdminClose =>
    case AdminRemove =>
  }

  lemma OwnStep(s: State, a: Action)
    requires ServerOk(s) && Enabled(s, a) && HoldsSome(s, Actor(a))
    ensures Rest(Step(s, a), Actor(a)) < Rest(s, Actor(a))
  {
    match a
    case Inner(c, Call(t, ca)) => HoldingHandler(s, c, t); CallStepLowers(s.conns[c], t, ca);
    case Inner(c, Close(k, cl)) => OwnClose(s, c, k, cl);
    case Inner(c, Stream(st)) => OwnRecv(s, c, st);
    case Reg(c, ra) => HoldingStream(s, c); OwnReg(s, c, ra);
    case Adm(x, aa) => HoldingAdmin(s, x); OwnAdm(s, x, aa);
    case Read(r, _) => ReaderReads(s, r);
  }

  lemma OwnRecv(s: State, c: ConnId, st: T.StreamAction)
    requires ServerOk(s) && InnerEnabled(s, c, T.Stream(st)) && HoldsSome(s, Actor(Inner(c, T.Stream(st))))
    ensures var a := Inner(c, T.Stream(st)); Rest(Step(s, a), Actor(a)) < Rest(s, Actor(a))
  {
    if SenderStep(st) || RemoteStep(st) {
      HoldsNothing(s, Actor(Inner(c, T.Stream(st))));
    } else {
      HoldingStream(s, c);
      OwnStream(s, c, st);
      OwnLookup(s, c);
    }
  }

  // ---------------------------------------------------------------- steps of the others

  /** The action registers a call: the one thing others can add to a Close. */
  predicate Registers(a: Action) {
    a.Inner? && a.act.Call? && a.act.ca.Insert?
  }

  function Added(a: Action): nat {
    if Registers(a) then 1 else 0
  }

  lemma SizeAfterInsert<K, V>(m: map<K, V>, k: K, v: V)
    ensures |m[k := v]| <= |m| + 1
  {
    if k in m {
      assert m[k := v].Keys == m.Keys;
    } else {
      assert m[k := v].Keys == m.Keys + {k};
    }
    assert |m[k := v].Keys| == |m[k := v]| && |m.Keys| == |m|;
  }

  lemma SizeAfterRemove<K, V>(m: map<K, V>, k: K)
    ensures |m - {k}| <= |m|
  {
    assert (m - {k}).Keys == m.Keys - {k};
    assert |(m - {k}).Keys| == |m - {k}| && |m.Keys| == |m|;
  }

  /** What a step inside a connection leaves of the other threads: the program counters
      of other callers, the other calls to Close, and all but one id of pending. */
  lemma CallLeaves(conn: T.State, t: T.CallerId, ca: T.CallerAction)
    requires T.CallerEnabled(conn, t, ca)
    ensures var n := T.CallerStep(conn, t, ca);
      && (forall u :: u in conn.callers && u != t ==> u in n.callers && n.callers[u].pc == conn.callers[u].pc)
      && n.closers == conn.closers && n.recv == conn.recv
      && |n.pending| <= |conn.pending| + (if ca.Insert? then 1 else 0)
  {
    match ca
    case Enter(_) =>
    case LockCheck =>
    case SeeClosed =>
    case SeeOpen(_) =>
    case LockInsert =>
    case Insert => SizeAfterInsert(conn.pending, conn.callers[t].id, t);
    case Send =>
    case SendOnClosed =>
    case CancelSend =>
    case Receive =>
    case GiveUp =>
    case LockRemove =>
    case Remove => SizeAfterRemove(conn.pending, conn.callers[t].id);
  }

  predicate SameCloser(conn: T.State, n: T.State, k: T.CloserId) {
    (k in n.closers <==> k in conn.closers) && (k in conn.closers ==> n.closers[k] == conn.closers[k])
  }

  lemma CloseLeaves(conn: T.State, k: T.CloserId, cl: T.CloserAction)
    requires T.CloserEnabled(conn, k, cl)
    ensures var n := T.CloserStep(conn, k, cl);
      && (forall u :: u in conn.callers ==> u in n.callers && n.callers[u].pc == conn.callers[u].pc)
      && (forall j :: j != k ==> SameCloser(conn, n, j))
      && n.recv == conn.recv && n.pending == conn.pending
  {
    match cl
    case CloseEnter =>
    case CloseLock =>
    case CloseNoop =>
    case CloseMark =>
    case CloseChan =>
    case CloseLockPending =>
    case SweepOne(_) =>
    case SweepDone =>
    case CloseUnlock =>
  }

  lemma StreamLeaves(conn: T.State, st: T.StreamAction)
    requires T.StreamEnabled(conn, st)
    ensures var n := T.StreamStep(conn, st);
      && (forall u :: u in conn.callers ==> u in n.callers && n.callers[u].pc == conn.callers[u].pc)
      && n.closers == conn.closers && |n.pending| <= |conn.pending|
      && (SenderStep(st) || RemoteStep(st) ==> n.recv == conn.recv)
  {
    if st.RecvHand? {
      HandLeaves(conn, st.header);
    } else if st.RecvLookup? {
      LookupLeaves(conn);
    } else {
      OnlyLoops(conn, st);
    }
  }

  lemma HandLeaves(conn: T.State, header: Headers.Header)
    requires T.StreamEnabled(conn, T.RecvHand(header))
    ensures var n := T.StreamStep(conn, T.RecvHand(header));
      && (forall u :: u in conn.callers ==> u in n.callers && n.callers[u].pc == conn.callers[u].pc)
      && n.closers == conn.closers && n.pending == conn.pending
  {
  }

  lemma LookupLeaves(conn: T.State)
    requires T.StreamEnabled(conn, T.RecvLookup)
    ensures var n := T.StreamStep(conn, T.RecvLookup);
      n.callers == conn.callers && n.closers == conn.closers && |n.pending| <= |conn.pending|
  {
    SizeAfterRemove(conn.pending, conn.recv.reply.id);
  }

  /** The other steps of the stream touch neither callers nor pending. */
  lemma OnlyLoops(conn: T.State, st: T.StreamAction)
    requires T.StreamEnabled(conn, st) && !st.RecvHand? && !st.RecvLookup?
    ensures var n := T.StreamStep(conn, st);
      && n.callers == conn.callers && n.closers == conn.closers && n.pending == conn.pending
      && (SenderStep(st) || RemoteStep(st) ==> n.recv == conn.recv)
  {
    match st
    case Start =>
    case AckFail =>
    case SenderTake =>
    case SenderPut =>
    case SenderStop =>
    case SenderFail =>
    case RecvTake =>
    case RecvLock =>
    case RecvFail =>
    case ClientTake =>
    case ClientReply(_) =>
    case ClientFail =>
    case ClientRepeat(_) =>
    case WireLoss(_, _) =>
  }

  /** What an action of another thread than th does to one connection. */
  ghost predicate Leaves(conn: T.State, n: T.State, c: ConnId, th: Thread, added: nat) {
    && |n.pending| <= |conn.pending| + added
    && (forall u :: u in conn.callers && th == Handler(c, u) ==>
          u in n.callers && n.callers[u].pc == conn.callers[u].pc)
    && (forall k :: CloserThread(k) == th ==> SameCloser(conn, n, k))
    && (th == StreamTh(c) ==> n.recv == conn.recv)
  }

  lemma InnerLeaves(conn: T.State, c: ConnId, act: T.Action, th: Thread)
    requires T.Enabled(conn, act) && Actor(Inner(c, act)) != th
    ensures Leaves(conn, T.Step(conn, act), c, th, Added(Inner(c, act)))
  {
    match act
    case Call(t, ca) => CallLeavesOthers(conn, c, t, ca, th);
    case Close(k, cl) => CloseLeavesOthers(conn, c, k, cl, th);
    case Stream(st) => StreamLeavesOthers(conn, c, st, th);
  }

  lemma CallLeavesOthers(conn: T.State, c: ConnId, t: T.CallerId, ca: T.CallerAction, th: Thread)
    requires T.CallerEnabled(conn, t, ca) && Handler(c, t) != th
    ensures Leaves(conn, T.CallerStep(conn, t, ca), c, th, if ca.Insert? then 1 else 0)
  {
    CallLeaves(conn, t, ca);
  }

  lemma CloseLeavesOthers(conn: T.State, c: ConnId, k: T.CloserId, cl: T.CloserAction, th: Thread)
    requires T.CloserEnabled(conn, k, cl) && CloserThread(k) != th
    ensures Leaves(conn, T.CloserStep(conn, k, cl), c, th, 0)
  {
    CloseLeaves(conn, k, cl);
  }

  lemma StreamLeavesOthers(conn: T.State, c: ConnId, st: T.StreamAction, th: Thread)
    requires T.StreamEnabled(conn, st) && Actor(Inner(c, T.Stream(st))) != th
    ensures Leaves(conn, T.StreamStep(conn, st), c, th, 0)
  {
    StreamLeaves(conn, st);
  }

  lemma BeginLeaves(conn: T.State, c: ConnId, k: T.CloserId, th: Thread)
    requires T.CloserEnabled(conn, k, T.CloseEnter) && CloserThread(k) != th
    ensures Leaves(conn, Begin(conn, k), c, th, 0)
  {
  }

  /** Every connection is left so by every action of another thread. */
  ghost predicate AllLeft(s: State, n: State, th: Thread, added: nat) {
    forall x :: x in s.conns ==> x in n.conns && Leaves(s.conns[x], n.conns[x], x, th, added)
  }

  lemma ConnsLeft(s: State, a: Action, th: Thread)
    requires Enabled(s, a) && Actor(a) != th
    ensures AllLeft(s, Step(s, a), th, Added(a))
  {
    match a
    case Inner(c, act) => InnerAllLeft(s, c, act, th);
    case Reg(c, ra) => RegLeaves(s, c, ra, th);
    case Adm(x, aa) => AdmLeaves(s, x, aa, th);
    case Read(_, _) =>
  }

  lemma InnerAllLeft(s: State, c: ConnId, act: T.Action, th: Thread)
    requires InnerEnabled(s, c, act) && Actor(Inner(c, act)) != th
    ensures AllLeft(s, Step(s, Inner(c, act)), th, Added(Inner(c, act)))
  {
    InnerLeaves(s.conns[c], c, act, th);
    forall x | x in s.conns && x != c ensures Leaves(s.conns[x], s.conns[x], x, th, Added(Inner(c, act))) {
      LeavesSame(s.conns[x], x, th, Added(Inner(c, act)));
    }
  }

  lemma LeavesSame(conn: T.State, x: ConnId, th: Thread, added: nat)
    ensures Leaves(conn, conn, x, th, added)
  {
  }

  lemma RegLeaves(s: State, c: ConnId, ra: RegistryAction, th: Thread)
    requires RegEnabled(s, c, ra) && StreamTh(c) != th
    ensures AllLeft(s, RegStep(s, c, ra), th, 0)
  {
    match ra
    case CloseOld => BeginLeaves(s.conns[s.tunnels[s.hosts[c]]], s.tunnels[s.hosts[c]], T.StreamThread(c), th);
    case StreamEnds => BeginLeaves(s.conns[c], c, T.StreamThread(c), th);
    case CloseFound => BeginLeaves(s.conns[s.tunnels[s.hosts[c]]], s.tunnels[s.hosts[c]], T.StreamThread(c), th);
    case Arrive(_, _) =>
    case LockRegister =>
    case Conflict =>
    case Insert =>
    case Replace =>
    case CloseDone =>
    case LockUnregister =>
    case FindNone =>
    case RemoveFound =>
  }

  lemma AdmLeaves(s: State, a: AdminId, aa: AdminAction, th: Thread)
    requires AdmEnabled(s, a, aa) && AdminTh(a) != th
    ensures AllLeft(s, AdmStep(s, a, aa), th, 0)
  {
    match aa
    case AdminClose =>
      var v := s.tunnels[s.admins[a].host];
      BeginLeaves(s.conns[v], v, T.AdminThread(a), th);
    case AdminEnter(_) =>
    case AdminLock =>
    case AdminNone =>
    case AdminRemove =>
  }

  /** What an action leaves of the registry for a thread: its own place there, and, if
      the thread holds mu, the map. */
  ghost predicate KeepsPlace(s: State, n: State, th: Thread) {
    && (th.StreamTh? && th.c in s.streams && th.c in s.hosts ==> KeepsStream(s, n, th.c))
    && (th.AdminTh? && th.a in s.admins ==> th.a in n.admins && n.admins[th.a] == s.admins[th.a])
    && (th.ReaderTh? ==> (th.r in n.reading <==> th.r in s.reading))
    && (MuThread(s.mu) == Some(th) ==> n.tunnels == s.tunnels)
  }

  predicate KeepsStream(s: State, n: State, c: ConnId) {
    && c in s.streams && c in s.hosts
    && c in n.streams && n.streams[c] == s.streams[c] && c in n.hosts && n.hosts[c] == s.hosts[c]
  }

  lemma RegistryLeft(s: State, a: Action, th: Thread)
    requires MuInv(s.mu, s.streams, s.admins) && Enabled(s, a) && Actor(a) != th
    ensures KeepsPlace(s, Step(s, a), th)
  {
    match a
    case Inner(_, _) =>
    case Reg(c, ra) => RegRegistryLeft(s, c, ra, th);
    case Adm(x, aa) => AdmRegistryLeft(s, x, aa, th);
    case Read(_, _) =>
  }

  lemma RegRegistryLeft(s: State, c: ConnId, ra: RegistryAction, th: Thread)
    requires MuInv(s.mu, s.streams, s.admins) && RegEnabled(s, c, ra) && StreamTh(c) != th
    ensures KeepsPlace(s, RegStep(s, c, ra), th)
  {
    match ra
    case Arrive(_, _) =>
    case LockRegister =>
    case Conflict =>
    case Insert =>
    case CloseOld =>
    case Replace =>
    case StreamEnds =>
    case CloseDone =>
    case LockUnregister =>
    case FindNone =>
    case CloseFound =>
    case RemoveFound =>
  }

  lemma AdmRegistryLeft(s: State, a: AdminId, aa: AdminAction, th: Thread)
    requires MuInv(s.mu, s.streams, s.admins) && AdmEnabled(s, a, aa) && AdminTh(a) != th
    ensures KeepsPlace(s, AdmStep(s, a, aa), th)
  {
    match aa
    case AdminEnter(_) =>
    case AdminLock =>
    case AdminNone =>
    case AdminClose =>
    case AdminRemove =>
  }

  lemma RestOnLeft(s: State, n: State, v: ConnId, k: T.CloserId, added: nat)
    requires AllLeft(s, n, CloserThread(k), added) && v in s.conns
    ensures RestOn(n.conns, v, k) <= RestOn(s.conns, v, k) + added
  {
    assert Leaves(s.conns[v], n.conns[v], v, CloserThread(k), added);
  }

  lemma LookupRestLeft(s: State, n: State, h: Host, th: Thread, added: nat)
    requires AllLeft(s, n, th, added) && n.tunnels == s.tunnels && (h in s.tunnels ==> s.tunnels[h] in s.conns)
    ensures LookupRest(n.tunnels, n.conns, h) <= LookupRest(s.tunnels, s.conns, h) + added
  {
    if h in s.tunnels {
      assert Leaves(s.conns[s.tunnels[h]], n.conns[s.tunnels[h]], s.tunnels[h], th, added);
    }
  }

  lemma StreamLeft(s: State, n: State, c: ConnId, added: nat)
    requires MuInv(s.mu, s.streams, s.admins) && DomainInv(s)
    requires EntryInv(s.tunnels, s.hosts, s.streams, s.admins) && StreamBusy(s, c)
    requires AllLeft(s, n, StreamTh(c), added) && KeepsPlace(s, n, StreamTh(c))
    ensures StreamRest(n, c) <= StreamRest(s, c) + added
  {
    if s.streams[c].Registering? || s.streams[c].Unregistering? {
      EntryHasConn(s, s.hosts[c]);
      LookingLeft(s, n, c, added);
    } else if s.streams[c].Replacing? || s.streams[c].Evicting? {
      VictimHasConn(s, c);
      VictimLeft(s, n, c, added);
    } else {
      OwnConnLeft(s, n, c, added);
    }
  }

  lemma LookingLeft(s: State, n: State, c: ConnId, added: nat)
    requires AllLeft(s, n, StreamTh(c), added) && KeepsStream(s, n, c) && n.tunnels == s.tunnels
    requires s.streams[c].Registering? || s.streams[c].Unregistering?
    requires s.hosts[c] in s.tunnels ==> s.tunnels[s.hosts[c]] in s.conns
    ensures StreamRest(n, c) <= StreamRest(s, c) + added
  {
    LookupRestLeft(s, n, s.hosts[c], StreamTh(c), added);
  }

  lemma VictimLeft(s: State, n: State, c: ConnId, added: nat)
    requires AllLeft(s, n, StreamTh(c), added) && KeepsStream(s, n, c)
    requires s.streams[c].Replacing? || s.streams[c].Evicting?
    requires Victim(s.streams[c]) in s.conns
    ensures StreamRest(n, c) <= StreamRest(s, c) + added
  {
    RestOnLeft(s, n, Victim(s.streams[c]), T.StreamThread(c), added);
  }

  lemma OwnConnLeft(s: State, n: State, c: ConnId, added: nat)
    requires AllLeft(s, n, StreamTh(c), added) && KeepsStream(s, n, c) && c in s.conns
    requires s.streams[c].Serving? || s.streams[c].TearingDown?
    ensures StreamRest(n, c) <= StreamRest(s, c) + added
  {
    assert Leaves(s.conns[c], n.conns[c], c, StreamTh(c), added);
    RestOnLeft(s, n, c, T.StreamThread(c), added);
  }

  function Victim(pc: StreamPc): ConnId
    requires pc.Replacing? || pc.Evicting?
  {
    if pc.Replacing? then pc.prev else pc.victim
  }

  lemma EntryHasConn(s: State, h: Host)
    requires DomainInv(s) && EntryInv(s.tunnels, s.hosts, s.streams, s.admins)
    ensures h in s.tunnels ==> s.tunnels[h] in s.conns
  {
    if h in s.tunnels {
      assert Entry(s.streams, s.hosts, h, s.tunnels[h]);
    }
  }

  lemma VictimHasConn(s: State, c: ConnId)
    requires DomainInv(s) && EntryInv(s.tunnels, s.hosts, s.streams, s.admins)
    requires c in s.streams && c in s.hosts && (s.streams[c].Replacing? || s.streams[c].Evicting?)
    ensures Victim(s.streams[c]) in s.conns
  {
    assert Closing(s.tunnels, s.hosts[c], s.streams[c]);
    EntryHasConn(s, s.hosts[c]);
  }

  lemma AdminLeft(s: State, n: State, a: AdminId, added: nat)
    requires MuInv(s.mu, s.streams, s.admins) && DomainInv(s)
    requires EntryInv(s.tunnels, s.hosts, s.streams, s.admins) && a in s.admins && AdminHoldsMu(s.admins[a])
    requires AllLeft(s, n, AdminTh(a), added) && KeepsPlace(s, n, AdminTh(a))
    ensures AdminRest(n, a) <= AdminRest(s, a) + added
  {
    EntryHasConn(s, s.admins[a].host);
    match s.admins[a]
    case AdminHolding(h) => LookupRestLeft(s, n, h, AdminTh(a), added);
    case AdminClosing(_, v) => RestOnLeft(s, n, v, T.AdminThread(a), added);
  }

  lemma OthersStep(s: State, a: Action, th: Thread)
    requires ServerOk(s) && Enabled(s, a) && HoldsSome(s, th) && Actor(a) != th
    ensures Rest(Step(s, a), th) <= Rest(s, th) + Added(a)
  {
    ConnsLeft(s, a, th);
    RegistryLeft(s, a, th);
    ThreadLeft(s, Step(s, a), th, Added(a));
  }

  lemma ThreadLeft(s: State, n: State, th: Thread, added: nat)
    requires ServerOk(s) && HoldsSome(s, th) && AllLeft(s, n, th, added) && KeepsPlace(s, n, th)
    ensures Rest(n, th) <= Rest(s, th) + added
  {
    if th.Handler? {
      HandlerThLeft(s, n, th.c, th.t, added);
    } else if th.StreamTh? {
      StreamThLeft(s, n, th.c, added);
    } else if th.AdminTh? {
      AdminThLeft(s, n, th.a, added);
    }
  }

  lemma HandlerThLeft(s: State, n: State, c: ConnId, t: T.CallerId, added: nat)
    requires ConnsInv(s.conns) && HoldsSome(s, Handler(c, t)) && AllLeft(s, n, Handler(c, t), added)
    ensures Rest(n, Handler(c, t)) <= Rest(s, Handler(c, t))
  {
    HoldingHandler(s, c, t);
    HandlerLeft(s, n, c, t, added);
  }

  lemma StreamThLeft(s: State, n: State, c: ConnId, added: nat)
    requires ServerOk(s) && HoldsSome(s, StreamTh(c))
    requires AllLeft(s, n, StreamTh(c), added) && KeepsPlace(s, n, StreamTh(c))
    ensures StreamRest(n, c) <= StreamRest(s, c) + added
  {
    HoldingStream(s, c);
    StreamLeft(s, n, c, added);
  }

  lemma AdminThLeft(s: State, n: State, a: AdminId, added: nat)
    requires ServerOk(s) && HoldsSome(s, AdminTh(a))
    requires AllLeft(s, n, AdminTh(a), added) && KeepsPlace(s, n, AdminTh(a))
    ensures AdminRest(n, a) <= AdminRest(s, a) + added
  {
    HoldingAdmin(s, a);
    AdminLeft(s, n, a, added);
  }

  lemma HandlerLeft(s: State, n: State, c: ConnId, t: T.CallerId, added: nat)
    requires AllLeft(s, n, Handler(c, t), added) && c in s.conns && CallerRest(s.conns[c], t) == 1
    ensures Rest(n, Handler(c, t)) <= Rest(s, Handler(c, t))
  {
    assert Leaves(s.conns[c], n.conns[c], c, Handler(c, t), added);
  }

  // ---------------------------------------------------------------- locks are released

  /** The steps of th, and the registrations, after the first n actions of a run. */
  function OwnSteps(run: seq<Action>, n: nat, th: Thread): nat {
    if n >= |run| then 0
    else OwnSteps(run[..|run| - 1], n, th) + (if Actor(run[|run| - 1]) == th then 1 else 0)
  }

  function Registrations(run: seq<Action>, n: nat): nat {
    if n >= |run| then 0 else Registrations(run[..|run| - 1], n) + Added(run[|run| - 1])
  }

  /** The thread holds some lock at every moment from n to the end of the run. */
  ghost predicate HoldsFrom(run: seq<Action>, n: nat, th: Thread) {
    forall m :: n <= m <= |run| ==> HoldsSome(StateAfter(run[..m]), th)
  }

  lemma {:induction false} WorkIsPaid(run: seq<Action>, n: nat, th: Thread)
    requires Run(run) && n <= |run| && HoldsFrom(run, n, th)
    ensures OwnSteps(run, n, th) + Rest(StateAfter(run), th) <= Rest(StateAfter(run[..n]), th) + Registrations(run, n)
    decreases |run|
  {
    if n < |run| {
      var init, a := run[..|run| - 1], run[|run| - 1];
      assert forall m :: n <= m <= |init| ==> init[..m] == run[..m];
      WorkIsPaid(init, n, th);
      RunOk(init);
      assert init[..|init|] == init && HoldsSome(StateAfter(init), th);
      if Actor(a) == th {
        OwnStep(StateAfter(init), a);
      } else {
        OthersStep(StateAfter(init), a, th);
      }
    } else {
      assert run[..n] == run;
    }
  }

  /** No lock is held for good: while a thread holds locks without a break, it takes
      fewer steps than the measure when it began and the calls registered since. With
      NoDeadlock, by which a holder can always step, every held lock is released once
      the holders take that many steps. */
  lemma {:induction false} LocksAreReleased(run: seq<Action>, n: nat, th: Thread)
    requires Run(run) && n <= |run| && HoldsFrom(run, n, th)
    ensures OwnSteps(run, n, th) < Rest(StateAfter(run[..n]), th) + Registrations(run, n)
  {
    WorkIsPaid(run, n, th);
    RunOk(run);
    assert run[..|run|] == run;
    HolderHasRest(StateAfter(run), th);
  }
}
