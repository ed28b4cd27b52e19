/** Invariants of the whole server, and their preservation by every action. */
module ServerInv {
  import T = Tunnel
  import I = TunnelInv
  import TT = TunnelTheorems
  import opened Server

  /** Every connection is in a state its own transition system can reach, so all
      theorems about a connection hold for each connection of the server. */
  ghost predicate Reachable(conn: T.State) {
    exists run :: T.Run(run) && T.StateAfter(run) == conn
  }

  lemma ReachableStep(conn: T.State, act: T.Action)
    requires Reachable(conn) && T.Enabled(conn, act) && T.FreshStep(conn, act)
    ensures Reachable(T.Step(conn, act))
  {
    var run :| T.Run(run) && T.StateAfter(run) == conn;
    TT.Extend(run, act);
  }

  lemma ReachableInv(conn: T.State)
    requires Reachable(conn)
    ensures I.Inv(conn)
  {
    var run :| T.Run(run) && T.StateAfter(run) == conn;
    I.RunInv(run);
  }

  ghost predicate ConnsInv(conns: Conns) {
    forall c :: c in conns ==> Reachable(conns[c])
  }

  // ---------------------------------------------------------------- the registry's lock

  predicate StreamHoldsMu(pc: StreamPc) {
    pc.Registering? || pc.Replacing? || pc.Unregistering? || pc.Evicting?
  }

  predicate AdminHoldsMu(pc: AdminPc) {
    pc.AdminHolding? || pc.AdminClosing?
  }

  ghost predicate MuInv(mu: Mu, streams: Streams, admins: Admins) {
    && (mu.MuStream? ==> mu.c in streams && StreamHoldsMu(streams[mu.c]))
    && (mu.MuAdmin? ==> mu.a in admins && AdminHoldsMu(admins[mu.a]))
    && (forall c :: c in streams && StreamHoldsMu(streams[c]) ==> mu == MuStream(c))
    && (forall a :: a in admins && AdminHoldsMu(admins[a]) ==> mu == MuAdmin(a))
  }

  /** Nobody reads while somebody writes. */
  predicate ReadInv(s: State) {
    s.reading != map[] ==> s.mu.MuFree?
  }

  // ---------------------------------------------------------------- the map

  /** Registered and not yet past its own Unregister. */
  predicate Live(pc: StreamPc) {
    pc.Serving? || pc.TearingDown? || pc.TornDown? || pc.Unregistering? || pc.Evicting?
  }

  ghost predicate DomainInv(s: State) {
    s.conns.Keys == s.streams.Keys && s.hosts.Keys == s.streams.Keys
  }

  /** Every entry is of a live stream with that hostname, and a Close running under
      mu is of the entry it will remove. */
  ghost predicate EntryInv(tunnels: map<Host, ConnId>, hosts: Hosts, streams: Streams, admins: Admins) {
    && (forall h :: h in tunnels ==> Entry(streams, hosts, h, tunnels[h]))
    && (forall c :: c in streams && c in hosts ==> Closing(tunnels, hosts[c], streams[c]))
    && (forall a :: a in admins && admins[a].AdminClosing? ==>
          admins[a].host in tunnels && tunnels[admins[a].host] == admins[a].victim)
  }

  /** A live stream has its entry unless somebody ousted it. */
  ghost predicate OustedInv(tunnels: map<Host, ConnId>, hosts: Hosts, streams: Streams, ousted: set<ConnId>) {
    && (forall c :: c in streams && c in hosts && Live(streams[c]) ==>
          (c !in ousted <==> hosts[c] in tunnels && tunnels[hosts[c]] == c))
    && (forall c :: c in ousted ==> c in streams && !Unregistered(streams[c]))
  }

  ghost predicate Entry(streams: Streams, hosts: Hosts, h: Host, c: ConnId) {
    c in streams && c in hosts && hosts[c] == h && Live(streams[c])
  }

  predicate Closing(tunnels: map<Host, ConnId>, h: Host, pc: StreamPc) {
    && (pc.Replacing? ==> h in tunnels && tunnels[h] == pc.prev)
    && (pc.Evicting? ==> h in tunnels && tunnels[h] == pc.victim)
  }

  // ---------------------------------------------------------------- who is closing what

  /** The registry operation that a running Close on connection c belongs to. */
  predicate Attributed(streams: Streams, admins: Admins, c: ConnId, k: T.CloserId) {
    match k
    case StreamThread(d) =>
      d in streams && ((d == c && streams[d].TearingDown?) || streams[d] == Evicting(c) || streams[d] == Replacing(c))
    case AdminThread(a) =>
      a in admins && admins[a].AdminClosing? && admins[a].victim == c
  }

  ghost predicate ClosersInv(conns: Conns, streams: Streams, admins: Admins) {
    && AllAttributed(conns, streams, admins)
    && AllCloserOf(conns, streams)
    && AllAdminClosers(conns, admins)
  }

  ghost predicate AllCloserOf(conns: Conns, streams: Streams) {
    forall c :: c in streams ==> StreamCloser(conns, c, streams[c])
  }

  ghost predicate AllAdminClosers(conns: Conns, admins: Admins) {
    forall a :: a in admins && admins[a].AdminClosing? ==> HasCloser(conns, admins[a].victim, T.AdminThread(a))
  }

  predicate HasCloser(conns: Conns, c: ConnId, k: T.CloserId) {
    c in conns && k in conns[c].closers
  }

  predicate StreamCloser(conns: Conns, c: ConnId, pc: StreamPc) {
    && (pc.TearingDown? ==> HasCloser(conns, c, T.StreamThread(c)))
    && (pc.Evicting? ==> HasCloser(conns, pc.victim, T.StreamThread(c)))
    && (pc.Replacing? ==> HasCloser(conns, pc.prev, T.StreamThread(c)))
  }

  /** A connection not yet registered is untouched; a stream past serving has left
      its receive loop. */
  ghost predicate LifeInv(streams: Streams, conns: Conns) {
    forall c :: c in streams && c in conns ==> Life(streams[c], conns[c])
  }

  predicate Life(pc: StreamPc, conn: T.State) {
    && (Unregistered(pc) ==> conn.closers == map[] && !conn.closed && !conn.started && conn.recv.Listening?)
    && (!Unregistered(pc) && !pc.Serving? ==> conn.recv.RecvEnded?)
  }

  predicate TeardownBegun(pc: StreamPc) {
    pc.TearingDown? || pc.TornDown? || pc.Unregistering? || pc.Evicting?
  }

  /** The holder of mu is inside a Close of this connection. */
  predicate MuClosing(mu: Mu, streams: Streams, admins: Admins, c: ConnId) {
    match mu
    case MuFree => false
    case MuStream(d) => d in streams && (streams[d] == Evicting(c) || streams[d] == Replacing(c))
    case MuAdmin(a) => a in admins && admins[a].AdminClosing? && admins[a].victim == c
  }

  ghost predicate UsableInv(s: State) {
    forall h :: h in s.tunnels ==> Usable(s, s.tunnels[h])
  }

  predicate Usable(s: State, c: ConnId) {
    c in s.conns && c in s.streams && s.conns[c].closed ==>
      TeardownBegun(s.streams[c]) || MuClosing(s.mu, s.streams, s.admins, c)
  }

  ghost predicate ServerOk(s: State) {
    && ConnsInv(s.conns) && MuInv(s.mu, s.streams, s.admins) && ReadInv(s) && DomainInv(s)
    && EntryInv(s.tunnels, s.hosts, s.streams, s.admins)
    && OustedInv(s.tunnels, s.hosts, s.streams, s.ousted)
    && ClosersInv(s.conns, s.streams, s.admins) && LifeInv(s.streams, s.conns) && UsableInv(s)
  }

  lemma InitOk()
    ensures ServerOk(Init())
  {
  }

  // ---------------------------------------------------------------- steps inside a connection

  /** What a step inside a connection can do to what the server relies on. */
  ghost predicate InnerEffect(conn: T.State, n: T.State) {
    && n.closers.Keys == conn.closers.Keys
    && (forall k :: k in conn.closers && conn.closers[k].CloseReturned? ==> n.closers[k].CloseReturned?)
    && (n.closed != conn.closed ==> exists k :: k in conn.closers && !conn.closers[k].CloseReturned?)
    && (conn.recv.RecvEnded? ==> n.recv.RecvEnded?)
  }

  lemma InnerEffects(conn: T.State, act: T.Action)
    requires T.Enabled(conn, act) && !(act.Close? && act.cl.CloseEnter?)
    ensures InnerEffect(conn, T.Step(conn, act))
  {
    match act
    case Call(t, ca) => InnerCall(conn, t, ca);
    case Close(k, cl) => InnerClose(conn, k, cl);
    case Stream(st) => InnerStream(conn, st);
  }

  lemma InnerCall(conn: T.State, t: T.CallerId, ca: T.CallerAction)
    requires T.CallerEnabled(conn, t, ca)
    ensures InnerEffect(conn, T.CallerStep(conn, t, ca))
    ensures T.CallerStep(conn, t, ca).started == conn.started && T.CallerStep(conn, t, ca).recv == conn.recv
  {
    match ca
    case Enter(_) =>
    case LockCheck =>
    case SeeClosed =>
    case SeeOpen(_) =>
    case LockInsert =>
    case Insert =>
    case Send =>
    case SendOnClosed =>
    case CancelSend =>
    case Receive =>
    case GiveUp =>
    case LockRemove =>
    case Remove =>
  }

  lemma InnerClose(conn: T.State, k: T.CloserId, cl: T.CloserAction)
    requires T.CloserEnabled(conn, k, cl) && !cl.CloseEnter?
    ensures InnerEffect(conn, T.CloserStep(conn, k, cl))
    ensures !conn.closers[k].CloseReturned?
    ensures T.CloserStep(conn, k, cl).started == conn.started && T.CloserStep(conn, k, cl).recv == conn.recv
  {
    match cl
    case CloseLock =>
    case CloseNoop =>
    case CloseMark =>
    case CloseChan =>
    case CloseLockPending =>
    case SweepOne(_) =>
    case SweepDone =>
    case CloseUnlock =>
  }

  lemma InnerStream(conn: T.State, st: T.StreamAction)
    requires T.StreamEnabled(conn, st)
    ensures InnerEffect(conn, T.StreamStep(conn, st))
    ensures T.StreamStep(conn, st).closers == conn.closers && T.StreamStep(conn, st).closed == conn.closed
    ensures T.StreamStep(conn, st).started == (conn.started || st.Start?)
    ensures conn.recv.Listening? && !conn.started && !st.AckFail? ==> T.StreamStep(conn, st).recv.Listening?
  {
    match st
    case Start =>
    case AckFail =>
    case SenderTake =>
    case SenderPut =>
    case SenderStop =>
    case SenderFail =>
    case RecvTake =>
    case RecvLock =>
    case RecvLookup =>
    case RecvHand(_) =>
    case RecvFail =>
    case ClientTake =>
    case ClientReply(_) =>
    case ClientFail =>
    case ClientRepeat(_) =>
    case WireLoss(_, _) =>
  }

  lemma InnerLife(s: State, c: ConnId, act: T.Action)
    requires LifeInv(s.streams, s.conns) && InnerEnabled(s, c, act)
    ensures Life(s.streams[c], T.Step(s.conns[c], act))
  {
    var conn := s.conns[c];
    InnerEffects(conn, act);
    match act
    case Call(t, ca) => InnerCall(conn, t, ca);
    case Close(k, cl) => InnerClose(conn, k, cl);
    case Stream(st) => InnerStream(conn, st);
  }

  lemma InnerClosers(s: State, c: ConnId, conn: T.State)
    requires ClosersInv(s.conns, s.streams, s.admins) && c in s.conns && InnerEffect(s.conns[c], conn)
    ensures ClosersInv(s.conns[c := conn], s.streams, s.admins)
  {
  }

  lemma InnerUsable(s: State, c: ConnId, conn: T.State)
    requires MuInv(s.mu, s.streams, s.admins) && ClosersInv(s.conns, s.streams, s.admins) && UsableInv(s)
    requires c in s.conns && InnerEffect(s.conns[c], conn)
    ensures UsableInv(s.(conns := s.conns[c := conn]))
  {
    if conn.closed != s.conns[c].closed {
      var k :| k in s.conns[c].closers && !s.conns[c].closers[k].CloseReturned?;
      assert Attributed(s.streams, s.admins, c, k);
    }
  }

  lemma InnerKeeps(s: State, c: ConnId, act: T.Action)
    requires ServerOk(s) && InnerEnabled(s, c, act) && T.FreshStep(s.conns[c], act)
    ensures ServerOk(Step(s, Inner(c, act)))
  {
    var conn := T.Step(s.conns[c], act);
    ReachableStep(s.conns[c], act);
    InnerEffects(s.conns[c], act);
    InnerLife(s, c, act);
    InnerClosers(s, c, conn);
    InnerUsable(s, c, conn);
    ChangeConn(s, c, conn);
  }

  lemma ChangeConn(s: State, c: ConnId, conn: T.State)
    requires ConnsInv(s.conns) && LifeInv(s.streams, s.conns) && DomainInv(s)
    requires c in s.conns && c in s.streams && Reachable(conn) && Life(s.streams[c], conn)
    ensures ConnsInv(s.conns[c := conn]) && LifeInv(s.streams, s.conns[c := conn])
    ensures DomainInv(s.(conns := s.conns[c := conn]))
  {
    LifeConn(s.streams, s.conns, c, conn);
    OneReachable(s.conns, c, conn);
  }

  lemma OneReachable(conns: Conns, c: ConnId, conn: T.State)
    requires ConnsInv(conns) && Reachable(conn)
    ensures ConnsInv(conns[c := conn])
  {
  }

  // ---------------------------------------------------------------- registry steps

  lemma BeginReachable(conn: T.State, k: T.CloserId)
    requires Reachable(conn) && T.CloserEnabled(conn, k, T.CloseEnter)
    ensures Reachable(Begin(conn, k))
  {
    ReachableStep(conn, T.Close(k, T.CloseEnter));
  }

  lemma ArriveReachable()
    ensures Reachable(T.Init())
  {
    assert T.Run([]) && T.StateAfter([]) == T.Init();
  }

  lemma RegConns(s: State, c: ConnId, ra: RegistryAction)
    requires ConnsInv(s.conns) && RegEnabled(s, c, ra)
    ensures ConnsInv(RegStep(s, c, ra).conns)
  {
    ArriveReachable();
    match ra
    case CloseOld => BeginReachable(s.conns[s.tunnels[s.hosts[c]]], T.StreamThread(c));
    case StreamEnds => BeginReachable(s.conns[c], T.StreamThread(c));
    case CloseFound => BeginReachable(s.conns[s.tunnels[s.hosts[c]]], T.StreamThread(c));
    case _ =>
  }

  lemma AdmConns(s: State, a: AdminId, aa: AdminAction)
    requires ConnsInv(s.conns) && AdmEnabled(s, a, aa)
    ensures ConnsInv(AdmStep(s, a, aa).conns)
  {
    match aa
    case AdminClose => BeginReachable(s.conns[s.tunnels[s.admins[a].host]], T.AdminThread(a));
    case _ =>
  }

  lemma RegMu(s: State, c: ConnId, ra: RegistryAction)
    requires MuInv(s.mu, s.streams, s.admins) && RegEnabled(s, c, ra)
    ensures var n := RegStep(s, c, ra); MuInv(n.mu, n.streams, n.admins)
  {
    match ra
    case Arrive(_, _) =>
    case LockRegister =>
    case Conflict =>
    case Insert =>
    case CloseOld =>
    case Replace =>
    case StreamEnds =>
    case CloseDone =>
    case LockUnregister =>
    case FindNone =>
    case CloseFound =>
    case RemoveFound =>
  }

  lemma RegRead(s: State, c: ConnId, ra: RegistryAction)
    requires ReadInv(s) && RegEnabled(s, c, ra)
    ensures ReadInv(RegStep(s, c, ra))
  {
    match ra
    case Arrive(_, _) =>
    case LockRegister =>
    case Conflict =>
    case Insert =>
    case CloseOld =>
    case Replace =>
    case StreamEnds =>
    case CloseDone =>
    case LockUnregister =>
    case FindNone =>
    case CloseFound =>
    case RemoveFound =>
  }

  lemma AdmRead(s: State, a: AdminId, aa: AdminAction)
    requires ReadInv(s) && AdmEnabled(s, a, aa)
    ensures ReadInv(AdmStep(s, a, aa))
  {
    match aa
    case AdminEnter(_) =>
    case AdminLock =>
    case AdminNone =>
    case AdminClose =>
    case AdminRemove =>
  }

  lemma AdmMu(s: State, a: AdminId, aa: AdminAction)
    requires MuInv(s.mu, s.streams, s.admins) && AdmEnabled(s, a, aa)
    ensures var n := AdmStep(s, a, aa); MuInv(n.mu, n.streams, n.admins)
  {
    match aa
    case AdminEnter(_) =>
    case AdminLock =>
    case AdminNone =>
    case AdminClose =>
    case AdminRemove =>
  }

  /** Registry actions that change neither the map nor a connection. */
  predicate Quiet(ra: RegistryAction) {
    ra.Arrive? || ra.LockRegister? || ra.Conflict? || ra.CloseDone? || ra.LockUnregister? || ra.FindNone?
  }

  lemma RegDomain(s: State, c: ConnId, ra: RegistryAction)
    requires DomainInv(s) && RegEnabled(s, c, ra)
    ensures DomainInv(RegStep(s, c, ra))
  {
    match ra
    case Arrive(_, _) =>
    case LockRegister =>
    case Conflict =>
    case Insert =>
    case CloseOld =>
    case Replace =>
    case StreamEnds =>
    case CloseDone =>
    case LockUnregister =>
    case FindNone =>
    case CloseFound =>
    case RemoveFound =>
  }

  lemma EntryMove(tunnels: map<Host, ConnId>, hosts: Hosts, streams: Streams,
                  admins: Admins, c: ConnId, pc: StreamPc)
    requires EntryInv(tunnels, hosts, streams, admins) && c in streams && c in hosts
    requires Live(streams[c]) ==> Live(pc) || hosts[c] !in tunnels
    requires Closing(tunnels, hosts[c], pc)
    ensures EntryInv(tunnels, hosts, streams[c := pc], admins)
  {
  }

  lemma EntryMoves(s: State, c: ConnId, ra: RegistryAction)
    requires RegEnabled(s, c, ra) && OnlyMoves(ra) && !ra.Arrive?
    ensures var n := RegStep(s, c, ra);
      && c in n.streams && (Live(s.streams[c]) ==> Live(n.streams[c]) || s.hosts[c] !in s.tunnels)
      && Closing(s.tunnels, s.hosts[c], n.streams[c])
  {
    match ra
    case LockRegister =>
    case Conflict =>
    case CloseDone =>
    case LockUnregister =>
    case FindNone =>
    case CloseOld =>
    case StreamEnds =>
    case CloseFound =>
  }

  lemma EntryArrive(s: State, c: ConnId, ra: RegistryAction)
    requires EntryInv(s.tunnels, s.hosts, s.streams, s.admins) && RegEnabled(s, c, ra) && ra.Arrive?
    ensures var n := RegStep(s, c, ra); EntryInv(n.tunnels, n.hosts, n.streams, n.admins)
  {
  }

  lemma EntryInsert(s: State, c: ConnId)
    requires MuInv(s.mu, s.streams, s.admins) && DomainInv(s)
    requires EntryInv(s.tunnels, s.hosts, s.streams, s.admins) && RegEnabled(s, c, Insert)
    ensures var n := RegStep(s, c, Insert); EntryInv(n.tunnels, n.hosts, n.streams, n.admins)
  {
  }

  lemma EntryReplace(s: State, c: ConnId)
    requires MuInv(s.mu, s.streams, s.admins) && DomainInv(s)
    requires EntryInv(s.tunnels, s.hosts, s.streams, s.admins) && RegEnabled(s, c, Replace)
    ensures var n := RegStep(s, c, Replace); EntryInv(n.tunnels, n.hosts, n.streams, n.admins)
  {
  }

  lemma EntryRemove(s: State, c: ConnId)
    requires MuInv(s.mu, s.streams, s.admins) && DomainInv(s)
    requires EntryInv(s.tunnels, s.hosts, s.streams, s.admins) && RegEnabled(s, c, RemoveFound)
    ensures var n := RegStep(s, c, RemoveFound); EntryInv(n.tunnels, n.hosts, n.streams, n.admins)
  {
  }

  lemma RegEntry(s: State, c: ConnId, ra: RegistryAction)
    requires MuInv(s.mu, s.streams, s.admins) && DomainInv(s)
    requires EntryInv(s.tunnels, s.hosts, s.streams, s.admins) && RegEnabled(s, c, ra)
    ensures var n := RegStep(s, c, ra); EntryInv(n.tunnels, n.hosts, n.streams, n.admins)
  {
    if ra.Arrive? {
      EntryArrive(s, c, ra);
    } else if OnlyMoves(ra) {
      MovesIs(s, c, ra);
      EntryMoves(s, c, ra);
      EntryMove(s.tunnels, s.hosts, s.streams, s.admins, c, RegStep(s, c, ra).streams[c]);
    } else {
      match ra
      case Insert => EntryInsert(s, c);
      case Replace => EntryReplace(s, c);
      case RemoveFound => EntryRemove(s, c);
    }
  }

  lemma OustedMove(tunnels: map<Host, ConnId>, hosts: Hosts, streams: Streams, ousted: set<ConnId>, c: ConnId,
                   pc: StreamPc)
    requires OustedInv(tunnels, hosts, streams, ousted) && c in streams
    requires Live(pc) ==> Live(streams[c])
    requires Unregistered(pc) ==> Unregistered(streams[c])
    ensures OustedInv(tunnels, hosts, streams[c := pc], ousted)
  {
  }

  /** The registry actions that only move the stream's own program counter, or also
      begin a Close. */
  predicate OnlyMoves(ra: RegistryAction) {
    Quiet(ra) || ra.CloseOld? || ra.StreamEnds? || ra.CloseFound?
  }

  lemma MovesIs(s: State, c: ConnId, ra: RegistryAction)
    requires RegEnabled(s, c, ra) && OnlyMoves(ra) && !ra.Arrive?
    ensures var n := RegStep(s, c, ra);
      && c in n.streams && n.tunnels == s.tunnels && n.hosts == s.hosts && n.ousted == s.ousted && n.admins == s.admins
      && n.streams == s.streams[c := n.streams[c]]
      && (Live(n.streams[c]) ==> Live(s.streams[c])) && (Unregistered(n.streams[c]) <==> Unregistered(s.streams[c]))
  {
    match ra
    case LockRegister =>
    case Conflict =>
    case CloseDone =>
    case LockUnregister =>
    case FindNone =>
    case CloseOld =>
    case StreamEnds =>
    case CloseFound =>
  }

  lemma RegOustedChange(s: State, c: ConnId, ra: RegistryAction)
    requires EntryInv(s.tunnels, s.hosts, s.streams, s.admins) && DomainInv(s)
    requires OustedInv(s.tunnels, s.hosts, s.streams, s.ousted) && RegEnabled(s, c, ra)
    requires ra.Arrive? || ra.Insert?
    ensures var n := RegStep(s, c, ra); OustedInv(n.tunnels, n.hosts, n.streams, n.ousted)
  {
    match ra
    case Arrive(_, _) =>
    case Insert =>
  }

  lemma RegOustedReplace(s: State, c: ConnId)
    requires EntryInv(s.tunnels, s.hosts, s.streams, s.admins) && DomainInv(s)
    requires OustedInv(s.tunnels, s.hosts, s.streams, s.ousted) && RegEnabled(s, c, Replace)
    ensures var n := RegStep(s, c, Replace); OustedInv(n.tunnels, n.hosts, n.streams, n.ousted)
  {
  }

  lemma RegOustedRemove(s: State, c: ConnId)
    requires EntryInv(s.tunnels, s.hosts, s.streams, s.admins) && DomainInv(s)
    requires OustedInv(s.tunnels, s.hosts, s.streams, s.ousted) && RegEnabled(s, c, RemoveFound)
    ensures var n := RegStep(s, c, RemoveFound); OustedInv(n.tunnels, n.hosts, n.streams, n.ousted)
  {
  }

  lemma RegOusted(s: State, c: ConnId, ra: RegistryAction)
    requires EntryInv(s.tunnels, s.hosts, s.streams, s.admins) && DomainInv(s)
    requires OustedInv(s.tunnels, s.hosts, s.streams, s.ousted) && RegEnabled(s, c, ra)
    ensures var n := RegStep(s, c, ra); OustedInv(n.tunnels, n.hosts, n.streams, n.ousted)
  {
    if ra.Arrive? || ra.Insert? {
      RegOustedChange(s, c, ra);
    } else if OnlyMoves(ra) {
      MovesIs(s, c, ra);
      OustedMove(s.tunnels, s.hosts, s.streams, s.ousted, c, RegStep(s, c, ra).streams[c]);
    } else if ra.Replace? {
      RegOustedReplace(s, c);
    } else {
      RegOustedRemove(s, c);
    }
  }

  lemma AdmMap(s: State, a: AdminId, aa: AdminAction)
    requires MuInv(s.mu, s.streams, s.admins) && DomainInv(s)
    requires EntryInv(s.tunnels, s.hosts, s.streams, s.admins)
    requires OustedInv(s.tunnels, s.hosts, s.streams, s.ousted) && AdmEnabled(s, a, aa)
    ensures var n := AdmStep(s, a, aa);
      && DomainInv(n) && EntryInv(n.tunnels, n.hosts, n.streams, n.admins)
      && OustedInv(n.tunnels, n.hosts, n.streams, n.ousted)
  {
    match aa
    case AdminEnter(_) =>
    case AdminLock =>
    case AdminNone =>
    case AdminClose =>
    case AdminRemove =>
  }

  predicate Closes(c: ConnId, pc: StreamPc, x: ConnId) {
    (pc.TearingDown? && x == c) || pc == Evicting(x) || pc == Replacing(x)
  }

  predicate ClosesNothing(pc: StreamPc) {
    !pc.TearingDown? && !pc.Evicting? && !pc.Replacing?
  }

  lemma ClosersNew(conns: Conns, streams: Streams, admins: Admins, c: ConnId, pc: StreamPc)
    requires ClosersInv(conns, streams, admins) && c !in streams && c !in conns && ClosesNothing(pc)
    ensures ClosersInv(conns[c := T.Init()], streams[c := pc], admins)
  {
  }

  lemma ClosersIdle(conns: Conns, streams: Streams, admins: Admins, c: ConnId, pc: StreamPc)
    requires ClosersInv(conns, streams, admins) && c in streams && ClosesNothing(streams[c]) && ClosesNothing(pc)
    ensures ClosersInv(conns, streams[c := pc], admins)
  {
  }

  lemma ClosersBegin(conns: Conns, streams: Streams, admins: Admins,
                     c: ConnId, pc: StreamPc, x: ConnId, conn: T.State)
    requires ClosersInv(conns, streams, admins) && c in streams && x in conns
    requires ClosesNothing(streams[c]) && Closes(c, pc, x)
    requires conn.closers == conns[x].closers[T.StreamThread(c) := T.CloseEntered]
    ensures ClosersInv(conns[x := conn], streams[c := pc], admins)
  {
    ClosersBeginAttributed(conns, streams, admins, c, pc, x, conn);
    ClosersBeginHas(conns, streams, admins, c, pc, x, conn);
  }

  ghost predicate AllAttributed(conns: Conns, streams: Streams, admins: Admins) {
    forall c, k :: c in conns && k in conns[c].closers && !conns[c].closers[k].CloseReturned? ==>
      Attributed(streams, admins, c, k)
  }

  lemma ClosersBeginAttributed(conns: Conns, streams: Streams, admins: Admins,
                               c: ConnId, pc: StreamPc, x: ConnId, conn: T.State)
    requires AllAttributed(conns, streams, admins) && c in streams && x in conns
    requires ClosesNothing(streams[c]) && Closes(c, pc, x)
    requires conn.closers == conns[x].closers[T.StreamThread(c) := T.CloseEntered]
    ensures AllAttributed(conns[x := conn], streams[c := pc], admins)
  {
  }

  lemma ClosersBeginHas(conns: Conns, streams: Streams, admins: Admins,
                        c: ConnId, pc: StreamPc, x: ConnId, conn: T.State)
    requires AllCloserOf(conns, streams)
    requires AllAdminClosers(conns, admins)
    requires x in conns && Closes(c, pc, x)
    requires conn.closers == conns[x].closers[T.StreamThread(c) := T.CloseEntered]
    ensures AllCloserOf(conns[x := conn], streams[c := pc])
    ensures AllAdminClosers(conns[x := conn], admins)
  {
  }

  lemma ClosersEnd(conns: Conns, streams: Streams, admins: Admins, c: ConnId, pc: StreamPc, x: ConnId)
    requires ClosersInv(conns, streams, admins) && c in streams && x in conns
    requires Closes(c, streams[c], x) && ClosesNothing(pc)
    requires T.StreamThread(c) in conns[x].closers && conns[x].closers[T.StreamThread(c)].CloseReturned?
    ensures ClosersInv(conns, streams[c := pc], admins)
  {
  }

  lemma RegClosers(s: State, c: ConnId, ra: RegistryAction)
    requires ClosersInv(s.conns, s.streams, s.admins) && RegEnabled(s, c, ra)
    ensures var n := RegStep(s, c, ra); ClosersInv(n.conns, n.streams, n.admins)
  {
    var n := RegStep(s, c, ra);
    match ra
    case Arrive(_, overwrite) => ClosersNew(s.conns, s.streams, s.admins, c, Arriving(overwrite));
    case CloseOld =>
      var x := s.tunnels[s.hosts[c]];
      ClosersBegin(s.conns, s.streams, s.admins, c, n.streams[c], x, n.conns[x]);
    case Replace => ClosersEnd(s.conns, s.streams, s.admins, c, Serving, s.streams[c].prev);
    case StreamEnds => ClosersBegin(s.conns, s.streams, s.admins, c, TearingDown, c, n.conns[c]);
    case CloseDone => ClosersEnd(s.conns, s.streams, s.admins, c, TornDown, c);
    case CloseFound =>
      var x := s.tunnels[s.hosts[c]];
      ClosersBegin(s.conns, s.streams, s.admins, c, n.streams[c], x, n.conns[x]);
    case RemoveFound => ClosersEnd(s.conns, s.streams, s.admins, c, Finished, s.streams[c].victim);
    case LockRegister => ClosersIdle(s.conns, s.streams, s.admins, c, n.streams[c]);
    case Conflict => ClosersIdle(s.conns, s.streams, s.admins, c, n.streams[c]);
    case Insert => ClosersIdle(s.conns, s.streams, s.admins, c, n.streams[c]);
    case LockUnregister => ClosersIdle(s.conns, s.streams, s.admins, c, n.streams[c]);
    case FindNone => ClosersIdle(s.conns, s.streams, s.admins, c, n.streams[c]);
  }

  lemma ClosersAdmin(conns: Conns, streams: Streams, admins: Admins, a: AdminId, pc: AdminPc)
    requires ClosersInv(conns, streams, admins) && !pc.AdminClosing?
    requires a in admins && admins[a].AdminClosing? ==>
      admins[a].victim in conns && T.AdminThread(a) in conns[admins[a].victim].closers
      && conns[admins[a].victim].closers[T.AdminThread(a)].CloseReturned?
    ensures ClosersInv(conns, streams, admins[a := pc])
  {
  }

  lemma ClosersAdminBegin(conns: Conns, streams: Streams, admins: Admins, a: AdminId, pc: AdminPc, conn: T.State)
    requires ClosersInv(conns, streams, admins) && pc.AdminClosing? && pc.victim in conns
    requires a in admins && !admins[a].AdminClosing?
    requires conn.closers == conns[pc.victim].closers[T.AdminThread(a) := T.CloseEntered]
    ensures ClosersInv(conns[pc.victim := conn], streams, admins[a := pc])
  {
  }

  lemma AdmClosers(s: State, a: AdminId, aa: AdminAction)
    requires ClosersInv(s.conns, s.streams, s.admins) && AdmEnabled(s, a, aa)
    ensures var n := AdmStep(s, a, aa); ClosersInv(n.conns, n.streams, n.admins)
  {
    var n := AdmStep(s, a, aa);
    match aa
    case AdminClose =>
      ClosersAdminBegin(s.conns, s.streams, s.admins, a, n.admins[a], n.conns[s.tunnels[s.admins[a].host]]);
    case AdminEnter(_) => ClosersAdmin(s.conns, s.streams, s.admins, a, n.admins[a]);
    case AdminLock => ClosersAdmin(s.conns, s.streams, s.admins, a, n.admins[a]);
    case AdminNone => ClosersAdmin(s.conns, s.streams, s.admins, a, n.admins[a]);
    case AdminRemove => ClosersAdmin(s.conns, s.streams, s.admins, a, n.admins[a]);
  }

  lemma LifeMove(streams: Streams, conns: Conns, c: ConnId, pc: StreamPc)
    requires LifeInv(streams, conns) && (c in conns ==> Life(pc, conns[c]))
    ensures LifeInv(streams[c := pc], conns)
  {
  }

  lemma LifeConn(streams: Streams, conns: Conns, x: ConnId, conn: T.State)
    requires LifeInv(streams, conns) && (x in streams ==> Life(streams[x], conn))
    ensures LifeInv(streams, conns[x := conn])
  {
  }

  /** The connection a registry action begins to close. */
  function Target(s: State, c: ConnId, ra: RegistryAction): ConnId
    requires RegEnabled(s, c, ra)
  {
    if ra.CloseOld? || ra.CloseFound? then s.tunnels[s.hosts[c]] else c
  }

  lemma BegunLife(s: State, c: ConnId, ra: RegistryAction)
    requires EntryInv(s.tunnels, s.hosts, s.streams, s.admins) && LifeInv(s.streams, s.conns) && RegEnabled(s, c, ra)
    requires ra.CloseOld? || ra.StreamEnds? || ra.CloseFound?
    ensures var n := RegStep(s, c, ra); var x := Target(s, c, ra);
      && c in n.streams && x in n.streams && x in n.conns && x in s.conns
      && Life(n.streams[x], n.conns[x]) && Life(n.streams[c], s.conns[c])
  {
    BeginIs(s, c, ra);
    var x := Target(s, c, ra);
    if x != c {
      BeginLife(s.streams[x], s.conns[x], T.StreamThread(c));
    } else {
      BeginLife(TearingDown, s.conns[x], T.StreamThread(c));
    }
  }

  lemma RegLifeBegin(s: State, c: ConnId, ra: RegistryAction)
    requires DomainInv(s) && EntryInv(s.tunnels, s.hosts, s.streams, s.admins) && LifeInv(s.streams, s.conns)
    requires RegEnabled(s, c, ra)
    requires ra.CloseOld? || ra.StreamEnds? || ra.CloseFound?
    ensures var n := RegStep(s, c, ra); LifeInv(n.streams, n.conns)
  {
    var n := RegStep(s, c, ra);
    var x := Target(s, c, ra);
    BeginIs(s, c, ra);
    BegunLife(s, c, ra);
    LifeMove(s.streams, s.conns, c, n.streams[c]);
    LifeConn(n.streams, s.conns, x, n.conns[x]);
  }

  lemma BeginLife(pc: StreamPc, conn: T.State, k: T.CloserId)
    requires T.CloserEnabled(conn, k, T.CloseEnter) && !Unregistered(pc) && Life(pc, conn)
    ensures Life(pc, Begin(conn, k))
  {
  }

  lemma BeginIs(s: State, c: ConnId, ra: RegistryAction)
    requires EntryInv(s.tunnels, s.hosts, s.streams, s.admins) && RegEnabled(s, c, ra)
    requires ra.CloseOld? || ra.StreamEnds? || ra.CloseFound?
    ensures var n := RegStep(s, c, ra); var x := Target(s, c, ra);
      && x in s.conns && x in s.streams && (x == c || Live(s.streams[x]))
      && n.streams == s.streams[c := n.streams[c]] && n.conns == s.conns[x := Begin(s.conns[x], T.StreamThread(c))]
      && (match ra
          case CloseOld => n.streams[c].Replacing? && s.streams[c].Registering?
          case StreamEnds => n.streams[c].TearingDown? && s.conns[c].recv.RecvEnded?
          case CloseFound => n.streams[c].Evicting? && s.streams[c].Unregistering?)
  {
    match ra
    case CloseOld =>
    case StreamEnds =>
    case CloseFound =>
  }

  lemma RegLifeStay(s: State, c: ConnId, ra: RegistryAction)
    requires LifeInv(s.streams, s.conns) && RegEnabled(s, c, ra)
    requires !ra.CloseOld? && !ra.StreamEnds? && !ra.CloseFound? && !ra.Arrive?
    ensures var n := RegStep(s, c, ra); LifeInv(n.streams, n.conns)
  {
    var n := RegStep(s, c, ra);
    match ra
    case LockRegister => LifeMove(s.streams, s.conns, c, n.streams[c]);
    case Conflict => LifeMove(s.streams, s.conns, c, n.streams[c]);
    case CloseDone => LifeMove(s.streams, s.conns, c, n.streams[c]);
    case LockUnregister => LifeMove(s.streams, s.conns, c, n.streams[c]);
    case FindNone => LifeMove(s.streams, s.conns, c, n.streams[c]);
    case Insert => LifeMove(s.streams, s.conns, c, n.streams[c]);
    case Replace => LifeMove(s.streams, s.conns, c, n.streams[c]);
    case RemoveFound => LifeMove(s.streams, s.conns, c, n.streams[c]);
  }

  lemma RegLife(s: State, c: ConnId, ra: RegistryAction)
    requires DomainInv(s) && EntryInv(s.tunnels, s.hosts, s.streams, s.admins) && LifeInv(s.streams, s.conns)
    requires RegEnabled(s, c, ra)
    ensures var n := RegStep(s, c, ra); LifeInv(n.streams, n.conns)
  {
    if ra.Arrive? {
      LifeConn(s.streams, s.conns, c, T.Init());
      LifeMove(s.streams, s.conns[c := T.Init()], c, Arriving(ra.overwrite));
    } else if ra.CloseOld? || ra.StreamEnds? || ra.CloseFound? {
      RegLifeBegin(s, c, ra);
    } else {
      RegLifeStay(s, c, ra);
    }
  }

  lemma AdmLife(s: State, a: AdminId, aa: AdminAction)
    requires DomainInv(s) && EntryInv(s.tunnels, s.hosts, s.streams, s.admins) && LifeInv(s.streams, s.conns)
    requires AdmEnabled(s, a, aa)
    ensures var n := AdmStep(s, a, aa); LifeInv(n.streams, n.conns)
  {
    match aa
    case AdminEnter(_) =>
    case AdminLock =>
    case AdminNone =>
    case AdminClose =>
      var v := s.tunnels[s.admins[a].host];
      assert Entry(s.streams, s.hosts, s.admins[a].host, v);
      BeginLife(s.streams[v], s.conns[v], T.AdminThread(a));
      LifeConn(s.streams, s.conns, v, Begin(s.conns[v], T.AdminThread(a)));
    case AdminRemove =>
  }

  lemma RegUsableQuiet(s: State, c: ConnId, ra: RegistryAction)
    requires MuInv(s.mu, s.streams, s.admins) && EntryInv(s.tunnels, s.hosts, s.streams, s.admins)
    requires UsableInv(s) && RegEnabled(s, c, ra) && Quiet(ra)
    ensures UsableInv(RegStep(s, c, ra))
  {
    if !ra.Arrive? {
      QuietIs(s, c, ra);
    }
  }

  lemma QuietIs(s: State, c: ConnId, ra: RegistryAction)
    requires MuInv(s.mu, s.streams, s.admins) && RegEnabled(s, c, ra) && Quiet(ra) && !ra.Arrive?
    ensures var n := RegStep(s, c, ra);
      && n == s.(streams := n.streams, mu := n.mu) && c in n.streams && n.streams == s.streams[c := n.streams[c]]
      && (TeardownBegun(s.streams[c]) ==> TeardownBegun(n.streams[c]) || n.streams[c].Finished?)
      && (n.streams[c].Finished? ==> s.hosts[c] !in s.tunnels)
      && (forall x :: MuClosing(s.mu, s.streams, s.admins, x) ==> MuClosing(n.mu, n.streams, n.admins, x))
  {
    match ra
    case LockRegister =>
    case Conflict =>
    case CloseDone =>
    case LockUnregister =>
    case FindNone =>
  }

  lemma RegUsableInsert(s: State, c: ConnId)
    requires MuInv(s.mu, s.streams, s.admins) && DomainInv(s) && EntryInv(s.tunnels, s.hosts, s.streams, s.admins)
    requires LifeInv(s.streams, s.conns) && UsableInv(s) && RegEnabled(s, c, Insert)
    ensures UsableInv(RegStep(s, c, Insert))
  {
  }

  lemma RegUsableCloseOld(s: State, c: ConnId)
    requires MuInv(s.mu, s.streams, s.admins) && DomainInv(s) && EntryInv(s.tunnels, s.hosts, s.streams, s.admins)
    requires LifeInv(s.streams, s.conns) && UsableInv(s) && RegEnabled(s, c, CloseOld)
    ensures UsableInv(RegStep(s, c, CloseOld))
  {
  }

  lemma RegUsableReplace(s: State, c: ConnId)
    requires MuInv(s.mu, s.streams, s.admins) && DomainInv(s) && EntryInv(s.tunnels, s.hosts, s.streams, s.admins)
    requires LifeInv(s.streams, s.conns) && UsableInv(s) && RegEnabled(s, c, Replace)
    ensures UsableInv(RegStep(s, c, Replace))
  {
  }

  lemma RegUsableStreamEnds(s: State, c: ConnId)
    requires MuInv(s.mu, s.streams, s.admins) && DomainInv(s) && EntryInv(s.tunnels, s.hosts, s.streams, s.admins)
    requires LifeInv(s.streams, s.conns) && UsableInv(s) && RegEnabled(s, c, StreamEnds)
    ensures UsableInv(RegStep(s, c, StreamEnds))
  {
  }

  lemma RegUsableCloseFound(s: State, c: ConnId)
    requires MuInv(s.mu, s.streams, s.admins) && DomainInv(s) && EntryInv(s.tunnels, s.hosts, s.streams, s.admins)
    requires LifeInv(s.streams, s.conns) && UsableInv(s) && RegEnabled(s, c, CloseFound)
    ensures UsableInv(RegStep(s, c, CloseFound))
  {
  }

  lemma RegUsableRemove(s: State, c: ConnId)
    requires MuInv(s.mu, s.streams, s.admins) && EntryInv(s.tunnels, s.hosts, s.streams, s.admins)
    requires UsableInv(s) && RegEnabled(s, c, RemoveFound)
    ensures UsableInv(RegStep(s, c, RemoveFound))
  {
  }

  lemma RegUsable(s: State, c: ConnId, ra: RegistryAction)
    requires MuInv(s.mu, s.streams, s.admins) && DomainInv(s) && EntryInv(s.tunnels, s.hosts, s.streams, s.admins)
    requires LifeInv(s.streams, s.conns) && UsableInv(s) && RegEnabled(s, c, ra)
    ensures UsableInv(RegStep(s, c, ra))
  {
    if Quiet(ra) {
      RegUsableQuiet(s, c, ra);
    } else {
      match ra
      case Insert => RegUsableInsert(s, c);
      case CloseOld => RegUsableCloseOld(s, c);
      case Replace => RegUsableReplace(s, c);
      case StreamEnds => RegUsableStreamEnds(s, c);
      case CloseFound => RegUsableCloseFound(s, c);
      case RemoveFound => RegUsableRemove(s, c);
    }
  }

  lemma AdmUsable(s: State, a: AdminId, aa: AdminAction)
    requires MuInv(s.mu, s.streams, s.admins) && DomainInv(s) && EntryInv(s.tunnels, s.hosts, s.streams, s.admins)
    requires LifeInv(s.streams, s.conns) && UsableInv(s) && AdmEnabled(s, a, aa)
    ensures var n := AdmStep(s, a, aa); UsableInv(n)
  {
    match aa
    case AdminEnter(_) =>
    case AdminLock =>
    case AdminNone =>
    case AdminClose =>
    case AdminRemove =>
  }

  lemma RegKeeps(s: State, c: ConnId, ra: RegistryAction)
    requires ServerOk(s) && RegEnabled(s, c, ra)
    ensures ServerOk(RegStep(s, c, ra))
  {
    RegConns(s, c, ra);
    RegMu(s, c, ra);
    RegRead(s, c, ra);
    RegDomain(s, c, ra);
    RegEntry(s, c, ra);
    RegOusted(s, c, ra);
    RegClosers(s, c, ra);
    RegLife(s, c, ra);
    RegUsable(s, c, ra);
  }

  lemma AdmKeeps(s: State, a: AdminId, aa: AdminAction)
    requires ServerOk(s) && AdmEnabled(s, a, aa)
    ensures ServerOk(AdmStep(s, a, aa))
  {
    AdmConns(s, a, aa);
    AdmMu(s, a, aa);
    AdmRead(s, a, aa);
    AdmMap(s, a, aa);
    AdmClosers(s, a, aa);
    AdmLife(s, a, aa);
    AdmUsable(s, a, aa);
  }

  lemma StepKeeps(s: State, a: Action)
    requires ServerOk(s) && Enabled(s, a) && FreshStep(s, a)
    ensures ServerOk(Step(s, a))
  {
    match a
    case Inner(c, act) => InnerKeeps(s, c, act);
    case Reg(c, ra) => RegKeeps(s, c, ra);
    case Adm(x, aa) => AdmKeeps(s, x, aa);
    case Read(r, rd) => ReadKeeps(s, r, rd);
  }

  lemma ReadKeeps(s: State, r: ReaderId, rd: ReadAction)
    requires ServerOk(s) && ReadEnabled(s, r, rd)
    ensures ServerOk(ReadStep(s, r, rd))
  {
    match rd
    case ReadLock(_) =>
    case ReadUnlock =>
  }

  /** The invariant holds after every run of the server. */
  lemma {:induction false} RunOk(run: seq<Action>)
    requires Run(run)
    ensures ServerOk(StateAfter(run))
    decreases |run|
  {
    if run == [] {
      InitOk();
    } else {
      var n := |run| - 1;
      RunOk(run[..n]);
      StepKeeps(StateAfter(run[..n]), run[n]);
    }
  }
}
