/** What every run of the server guarantees: each connection behaves as a tunnel
    run, who owns a hostname, that a registered connection is usable, lock order
    and freedom from deadlock. */
module ServerTheorems {
  import opened Text
  import T = Tunnel
  import I = TunnelInv
  import TT = TunnelTheorems
  import opened Server
  import opened ServerInv

  /** Every connection's history inside the server is a run of the connection
      system, so every theorem about those runs holds for it. */
  lemma {:induction false} ConnectionsAreTunnelRuns(run: seq<Action>, c: ConnId)
    requires Run(run) && c in StateAfter(run).conns
    ensures exists inner :: T.Run(inner) && T.StateAfter(inner) == StateAfter(run).conns[c]
  {
    RunOk(run);
  }

  // ---------------------------------------------------------------- ownership

  /** The action takes the registry entry of connection c away: the end of a
      Disconnect, of an Unregister or of a replacing Register. */
  predicate Ousts(s: State, a: Action, c: ConnId) {
    match a
    case Adm(x, AdminRemove) => x in s.admins && s.admins[x].AdminClosing? && s.admins[x].victim == c
    case Reg(x, Replace) => x in s.streams && s.streams[x] == Replacing(c)
    case Reg(x, RemoveFound) => x in s.streams && s.streams[x] == Evicting(c)
    case _ => false
  }

  ghost predicate WasOusted(run: seq<Action>, c: ConnId) {
    exists j :: 0 <= j < |run| && OustedAt(run, j, c)
  }

  ghost predicate OustedAt(run: seq<Action>, j: nat, c: ConnId)
    requires j < |run|
  {
    Ousts(StateAfter(run[..j]), run[j], c)
  }

  lemma {:induction false} WasOustedSnoc(run: seq<Action>, c: ConnId)
    requires run != []
    ensures WasOusted(run, c) <==> WasOusted(run[..|run| - 1], c) || OustedAt(run, |run| - 1, c)
  {
    var init := run[..|run| - 1];
    forall j | 0 <= j < |init| ensures OustedAt(init, j, c) <==> OustedAt(run, j, c) {
      assert init[..j] == run[..j];
    }
  }

  lemma OustedGrows(s: State, a: Action, c: ConnId)
    requires Enabled(s, a)
    ensures c in Step(s, a).ousted <==> c in s.ousted || Ousts(s, a, c)
  {
    match a
    case Inner(_, _) =>
    case Reg(x, ra) => RegOusts(s, x, ra, c);
    case Adm(x, aa) => AdmOusts(s, x, aa, c);
    case Read(_, _) =>
  }

  lemma AdmOusts(s: State, x: AdminId, aa: AdminAction, c: ConnId)
    requires AdmEnabled(s, x, aa)
    ensures c in AdmStep(s, x, aa).ousted <==> c in s.ousted || Ousts(s, Adm(x, aa), c)
  {
    match aa
    case AdminEnter(_) =>
    case AdminLock =>
    case AdminNone =>
    case AdminClose =>
    case AdminRemove =>
  }

  lemma RegOusts(s: State, x: ConnId, ra: RegistryAction, c: ConnId)
    requires RegEnabled(s, x, ra)
    ensures c in RegStep(s, x, ra).ousted <==> c in s.ousted || Ousts(s, Reg(x, ra), c)
  {
    match ra
    case Arrive(_, _) =>
    case LockRegister =>
    case Conflict =>
    case Insert =>
    case CloseOld =>
    case Replace =>
    case StreamEnds =>
    case CloseDone =>
    case LockUnregister =>
    case FindNone =>
    case CloseFound =>
    case RemoveFound =>
  }

  lemma {:induction false} OustedHistory(run: seq<Action>, c: ConnId)
    requires Run(run)
    ensures c in StateAfter(run).ousted <==> WasOusted(run, c)
    decreases |run|
  {
    if run != [] {
      var n := |run| - 1;
      OustedHistory(run[..n], c);
      OustedGrows(StateAfter(run[..n]), run[n], c);
      WasOustedSnoc(run, c);
    }
  }

  /** An entry of the registry goes, or goes to another connection, exactly by one of
      those actions. */
  lemma {:induction false} EntryLeavesWhen(run: seq<Action>, a: Action, h: Host)
    requires Run(run) && Enabled(StateAfter(run), a) && h in StateAfter(run).tunnels
    ensures var s := StateAfter(run);
      var n := Step(s, a).tunnels;
      (h !in n || n[h] != s.tunnels[h]) <==> Ousts(s, a, s.tunnels[h])
  {
    RunOk(run);
    EntryStep(StateAfter(run), a, h);
  }

  lemma EntryStep(s: State, a: Action, h: Host)
    requires EntryInv(s.tunnels, s.hosts, s.streams, s.admins) && DomainInv(s)
    requires Enabled(s, a) && h in s.tunnels
    ensures var n := Step(s, a).tunnels;
      (h !in n || n[h] != s.tunnels[h]) <==> Ousts(s, a, s.tunnels[h])
  {
    assert Entry(s.streams, s.hosts, h, s.tunnels[h]);
    match a
    case Inner(_, _) =>
    case Reg(x, ra) => RegEntryStep(s, x, ra, h);
    case Adm(x, aa) => AdmEntryStep(s, x, aa, h);
    case Read(_, _) =>
  }

  lemma RegEntryStep(s: State, x: ConnId, ra: RegistryAction, h: Host)
    requires EntryInv(s.tunnels, s.hosts, s.streams, s.admins) && RegEnabled(s, x, ra) && h in s.tunnels
    requires Entry(s.streams, s.hosts, h, s.tunnels[h])
    ensures var n := RegStep(s, x, ra).tunnels;
      (h !in n || n[h] != s.tunnels[h]) <==> Ousts(s, Reg(x, ra), s.tunnels[h])
  {
    match ra
    case Arrive(_, _) =>
    case LockRegister =>
    case Conflict =>
    case Insert =>
    case CloseOld =>
    case Replace => assert Closing(s.tunnels, s.hosts[x], s.streams[x]);
    case StreamEnds =>
    case CloseDone =>
    case LockUnregister =>
    case FindNone =>
    case CloseFound =>
    case RemoveFound => assert Closing(s.tunnels, s.hosts[x], s.streams[x]);
  }

  lemma AdmEntryStep(s: State, x: AdminId, aa: AdminAction, h: Host)
    requires EntryInv(s.tunnels, s.hosts, s.streams, s.admins) && AdmEnabled(s, x, aa) && h in s.tunnels
    requires Entry(s.streams, s.hosts, h, s.tunnels[h])
    ensures var n := AdmStep(s, x, aa).tunnels;
      (h !in n || n[h] != s.tunnels[h]) <==> Ousts(s, Adm(x, aa), s.tunnels[h])
  {
    match aa
    case AdminEnter(_) =>
    case AdminLock =>
    case AdminNone =>
    case AdminClose =>
    case AdminRemove => assert Entry(s.streams, s.hosts, s.admins[x].host, s.tunnels[s.admins[x].host]);
  }

  /** A connection has its registry entry exactly when its stream is live and no
      earlier Disconnect, Register or teardown has taken it away, in every run. */
  lemma {:induction false} OwnershipUnlessOusted(run: seq<Action>, c: ConnId)
    requires Run(run) && c in StateAfter(run).streams && c in StateAfter(run).hosts
    ensures var s := StateAfter(run);
      (s.hosts[c] in s.tunnels && s.tunnels[s.hosts[c]] == c) <==> (Live(s.streams[c]) && !WasOusted(run, c))
  {
    RunOk(run);
    OustedHistory(run, c);
  }

  predicate Polite(a: Action) {
    && !(a.Reg? && a.ra.Arrive? && a.ra.overwrite)
    && !(a.Adm? && a.aa.AdminEnter?)
  }

  /** A run without Disconnect and without the overwriting Register. */
  ghost predicate PoliteRun(run: seq<Action>) {
    forall i :: 0 <= i < |run| ==> Polite(run[i])
  }

  ghost predicate PoliteState(s: State) {
    && s.admins == map[]
    && (forall c :: c in s.streams ==> !s.streams[c].Replacing? && !Overwrites(s.streams[c]))
    && (forall c :: c in s.streams && s.streams[c].Evicting? ==> s.streams[c].victim == c)
    && (forall c :: c in s.ousted ==> c in s.streams && s.streams[c].Finished?)
  }

  predicate Overwrites(pc: StreamPc) {
    (pc.Arriving? || pc.Registering?) && pc.overwrite
  }

  lemma PoliteStep(s: State, a: Action)
    requires ServerOk(s) && PoliteState(s) && Enabled(s, a) && Polite(a)
    ensures PoliteState(Step(s, a))
  {
    match a
    case Inner(_, _) =>
    case Reg(c, ra) => PoliteReg(s, c, ra);
    case Adm(_, _) =>
    case Read(_, _) =>
  }

  lemma PoliteReg(s: State, c: ConnId, ra: RegistryAction)
    requires DomainInv(s) && OustedInv(s.tunnels, s.hosts, s.streams, s.ousted)
    requires PoliteState(s) && RegEnabled(s, c, ra) && Polite(Reg(c, ra))
    ensures PoliteState(RegStep(s, c, ra))
  {
    match ra
    case Arrive(_, _) =>
    case LockRegister =>
    case Conflict =>
    case Insert =>
    case CloseOld =>
    case Replace =>
    case StreamEnds =>
    case CloseDone =>
    case LockUnregister =>
    case FindNone =>
    case CloseFound =>
    case RemoveFound =>
  }

  lemma {:induction false} PoliteRunState(run: seq<Action>)
    requires Run(run) && PoliteRun(run)
    ensures PoliteState(StateAfter(run))
    decreases |run|
  {
    if run != [] {
      var n := |run| - 1;
      PoliteRunState(run[..n]);
      RunOk(run[..n]);
      assert Polite(run[n]);
      PoliteStep(StateAfter(run[..n]), run[n]);
    }
  }

  /** Without Disconnect and overwriting Register, tunnels[h] is c exactly while c's
      stream is between its successful RegisterIfAbsent and its Unregister; so a
      hostname has at most one such stream, and a teardown removes only its own
      connection. */
  lemma {:induction false} Ownership(run: seq<Action>, h: Host, c: ConnId)
    requires Run(run) && PoliteRun(run)
    ensures var s := StateAfter(run);
      && ((h in s.tunnels && s.tunnels[h] == c) <==> Entry(s.streams, s.hosts, h, c))
      && (c in s.streams && s.streams[c].Evicting? ==> s.streams[c].victim == c)
  {
    RunOk(run);
    PoliteRunState(run);
    PoliteOwnership(StateAfter(run), h, c);
  }

  lemma PoliteOwnership(s: State, h: Host, c: ConnId)
    requires EntryInv(s.tunnels, s.hosts, s.streams, s.admins)
    requires OustedInv(s.tunnels, s.hosts, s.streams, s.ousted) && PoliteState(s)
    ensures (h in s.tunnels && s.tunnels[h] == c) <==> Entry(s.streams, s.hosts, h, c)
  {
  }

  lemma {:induction false} OneStreamPerHost(run: seq<Action>, c: ConnId, d: ConnId)
    requires Run(run) && PoliteRun(run)
    requires var s := StateAfter(run);
      && c in s.streams && d in s.streams && c in s.hosts && d in s.hosts && s.hosts[c] == s.hosts[d]
      && Live(s.streams[c]) && Live(s.streams[d])
    ensures c == d
  {
    Ownership(run, StateAfter(run).hosts[c], c);
    Ownership(run, StateAfter(run).hosts[c], d);
  }

  /** In any run, a stream about to look up its hostname in Unregister evicts
      another stream's connection exactly when its own entry was taken away earlier
      in the run and the hostname has a new one. */
  lemma {:induction false} TeardownEvictsOther(run: seq<Action>, c: ConnId)
    requires Run(run) && c in StateAfter(run).streams && StateAfter(run).streams[c].Unregistering?
    ensures var s := StateAfter(run);
      && c in s.hosts
      && ((Enabled(s, Reg(c, CloseFound)) && s.tunnels[s.hosts[c]] != c)
           <==> (WasOusted(run, c) && s.hosts[c] in s.tunnels))
  {
    RunOk(run);
    OustedHistory(run, c);
    CanCloseFound(StateAfter(run), c);
    OwnerOrOusted(StateAfter(run), c);
  }

  lemma CanCloseFound(s: State, c: ConnId)
    requires DomainInv(s) && EntryInv(s.tunnels, s.hosts, s.streams, s.admins)
    requires ClosersInv(s.conns, s.streams, s.admins)
    requires c in s.streams && s.streams[c].Unregistering?
    ensures Enabled(s, Reg(c, CloseFound)) <==> s.hosts[c] in s.tunnels
  {
    if s.hosts[c] in s.tunnels {
      var v := s.tunnels[s.hosts[c]];
      assert Entry(s.streams, s.hosts, s.hosts[c], v);
      IdleThread(s, v, T.StreamThread(c));
    }
  }

  /** A thread inside no Close on a connection can begin one. */
  lemma IdleThread(s: State, v: ConnId, k: T.CloserId)
    requires ClosersInv(s.conns, s.streams, s.admins) && v in s.conns
    requires !Attributed(s.streams, s.admins, v, k)
    ensures CanBegin(s, v, k)
  {
  }

  lemma OwnerOrOusted(s: State, c: ConnId)
    requires DomainInv(s) && OustedInv(s.tunnels, s.hosts, s.streams, s.ousted)
    requires c in s.streams && Live(s.streams[c])
    ensures c !in s.ousted <==> s.hosts[c] in s.tunnels && s.tunnels[s.hosts[c]] == c
  {
  }

  ghost predicate Leads(run: seq<Action>, s: State) {
    Run(run) && StateAfter(run) == s
  }

  lemma {:induction false} Grow(run: seq<Action>, s: State, a: Action) returns (next: seq<Action>)
    requires Leads(run, s) && Enabled(s, a) && FreshStep(s, a)
    ensures Leads(next, Step(s, a))
  {
    next := run + [a];
    assert next[..|run|] == run;
  }

  /** The server with one connection replaced. */
  function With(s: State, c: ConnId, conn: T.State): State {
    s.(conns := s.conns[c := conn])
  }

  /** A step inside a connection whose state is known. */
  lemma {:induction false} GrowInner(run: seq<Action>, s: State, c: ConnId, conn: T.State,
                                     act: T.Action) returns (next: seq<Action>)
    requires Leads(run, With(s, c, conn)) && c in s.streams && T.Enabled(conn, act) && T.FreshStep(conn, act)
    requires (act.Close? && !act.cl.CloseEnter?) || (act.Stream? && s.streams[c].Serving?)
    ensures Leads(next, With(s, c, T.Step(conn, act)))
  {
    next := Grow(run, With(s, c, conn), Inner(c, act));
    assert s.conns[c := conn][c := T.Step(conn, act)] == s.conns[c := T.Step(conn, act)];
  }

  /** A connection in which k is the one call to Close in progress. */
  function InClose(base: T.State, k: T.CloserId, pc: T.ClosePc, marked: bool, shut: bool, mu: T.Owner,
                   pmu: T.Owner): T.State {
    base.(closed := base.closed || marked, chanClosed := base.chanClosed || shut, closedMu := mu, pendingMu := pmu,
          closers := base.closers[k := pc])
  }

  lemma CloserMoves(closers: map<T.CloserId, T.ClosePc>, k: T.CloserId, pc: T.ClosePc, next: T.ClosePc)
    ensures closers[k := pc][k := next] == closers[k := next]
  {
  }

  lemma CloseSteps(base: T.State, k: T.CloserId)
    requires base.closedMu.Free? && base.pendingMu.Free? && !base.closed && !base.chanClosed && base.pending == map[]
    ensures var me := T.ByCloser(k);
      && T.CloserStep(InClose(base, k, T.CloseEntered, false, false, T.Free, T.Free), k, T.CloseLock)
         == InClose(base, k, T.CloseChecking, false, false, me, T.Free)
      && T.CloserStep(InClose(base, k, T.CloseChecking, false, false, me, T.Free), k, T.CloseMark)
         == InClose(base, k, T.Marked, true, false, me, T.Free)
      && T.CloserStep(InClose(base, k, T.Marked, true, false, me, T.Free), k, T.CloseChan)
         == InClose(base, k, T.ChanClosed, true, true, me, T.Free)
  {
    CloserMoves(base.closers, k, T.CloseEntered, T.CloseChecking);
    CloserMoves(base.closers, k, T.CloseChecking, T.Marked);
    CloserMoves(base.closers, k, T.Marked, T.ChanClosed);
  }

  lemma SweepSteps(base: T.State, k: T.CloserId)
    requires base.closedMu.Free? && base.pendingMu.Free? && !base.closed && !base.chanClosed && base.pending == map[]
    ensures var me := T.ByCloser(k);
      && T.CloserStep(InClose(base, k, T.ChanClosed, true, true, me, T.Free), k, T.CloseLockPending)
         == InClose(base, k, T.Sweeping({}), true, true, me, me)
      && T.CloserStep(InClose(base, k, T.Sweeping({}), true, true, me, me), k, T.SweepDone)
         == InClose(base, k, T.Swept, true, true, me, T.Free)
      && T.CloserStep(InClose(base, k, T.Swept, true, true, me, T.Free), k, T.CloseUnlock)
         == InClose(base, k, T.CloseReturned, true, true, T.Free, T.Free)
  {
    assert base.pending.Keys == {};
    CloserMoves(base.closers, k, T.ChanClosed, T.Sweeping({}));
    CloserMoves(base.closers, k, T.Sweeping({}), T.Swept);
    CloserMoves(base.closers, k, T.Swept, T.CloseReturned);
  }

  function Begun(k: T.CloserId): T.State {
    InClose(T.Init(), k, T.CloseEntered, false, false, T.Free, T.Free)
  }

  /** A first Close, from its beginning to closing sendCh. */
  lemma {:induction false} HalfClose(run: seq<Action>, s: State, c: ConnId, k: T.CloserId) returns (next: seq<Action>)
    requires Leads(run, With(s, c, Begun(k)))
    requires c in s.streams
    ensures Leads(next, With(s, c, InClose(T.Init(), k, T.ChanClosed, true, true, T.ByCloser(k), T.Free)))
  {
    var me := T.ByCloser(k);
    CloseSteps(T.Init(), k);
    next := GrowInner(run, s, c, Begun(k), T.Close(k, T.CloseLock));
    var checking := InClose(T.Init(), k, T.CloseChecking, false, false, me, T.Free);
    next := GrowInner(next, s, c, checking, T.Close(k, T.CloseMark));
    next := GrowInner(next, s, c, InClose(T.Init(), k, T.Marked, true, false, me, T.Free), T.Close(k, T.CloseChan));
  }

  /** A first Close from its beginning to its return, when nobody waits. */
  lemma {:induction false} WholeClose(run: seq<Action>, s: State, c: ConnId, k: T.CloserId) returns (next: seq<Action>)
    requires Leads(run, With(s, c, Begun(k)))
    requires c in s.streams
    ensures Leads(next, With(s, c, InClose(T.Init(), k, T.CloseReturned, true, true, T.Free, T.Free)))
  {
    var me := T.ByCloser(k);
    next := HalfClose(run, s, c, k);
    SweepSteps(T.Init(), k);
    var closed := InClose(T.Init(), k, T.ChanClosed, true, true, me, T.Free);
    next := GrowInner(next, s, c, closed, T.Close(k, T.CloseLockPending));
    next := GrowInner(next, s, c, InClose(T.Init(), k, T.Sweeping({}), true, true, me, me), T.Close(k, T.SweepDone));
    next := GrowInner(next, s, c, InClose(T.Init(), k, T.Swept, true, true, me, T.Free), T.Close(k, T.CloseUnlock));
  }

  const HOST := "app.example.com"
  const ADMIN := T.AdminThread(0)

  function Closed(): T.State {
    InClose(T.Init(), ADMIN, T.CloseReturned, true, true, T.Free, T.Free)
  }

  /** Stream 0 is registered. */
  function Connected(): State {
    Server.State(MuFree, map[], map[HOST := 0], map[0 := T.Init()], map[0 := HOST], map[0 := Serving], map[], {})
  }

  lemma Connecting() returns (run: seq<Action>)
    ensures Leads(run, Connected())
  {
    var s1 := Init().(conns := map[0 := T.Init()], hosts := map[0 := HOST], streams := map[0 := Arriving(false)]);
    run := Grow([], Init(), Reg(0, Arrive(HOST, false)));
    assert Step(Init(), Reg(0, Arrive(HOST, false))) == s1;
    var s2 := s1.(mu := MuStream(0), streams := map[0 := Registering(false)]);
    run := Grow(run, s1, Reg(0, LockRegister));
    assert Step(s1, Reg(0, LockRegister)) == s2;
    run := Grow(run, s2, Reg(0, Insert));
    assert Step(s2, Reg(0, Insert)) == Connected();
  }

  /** An admin asks to disconnect it. */
  lemma Disconnecting() returns (run: seq<Action>)
    ensures Leads(run, With(Connected().(mu := MuAdmin(0), admins := map[0 := AdminClosing(HOST, 0)]), 0, Begun(ADMIN)))
  {
    var s := Connected();
    run := Connecting();
    var s1 := s.(admins := map[0 := AdminEntered(HOST)]);
    run := Grow(run, s, Adm(0, AdminEnter(HOST)));
    assert Step(s, Adm(0, AdminEnter(HOST))) == s1;
    var s2 := s.(mu := MuAdmin(0), admins := map[0 := AdminHolding(HOST)]);
    run := Grow(run, s1, Adm(0, AdminLock));
    assert Step(s1, Adm(0, AdminLock)) == s2;
    run := Grow(run, s2, Adm(0, AdminClose));
    assert Begin(T.Init(), ADMIN) == Begun(ADMIN);
    assert Step(s2, Adm(0, AdminClose))
        == With(s.(mu := MuAdmin(0), admins := map[0 := AdminClosing(HOST, 0)]), 0, Begun(ADMIN));
  }

  function Disconnected(): State {
    Server.State(MuFree, map[], map[], map[0 := Closed()], map[0 := HOST], map[0 := Serving],
                 map[0 := AdminReturned(true)], {0})
  }

  lemma Disconnects() returns (run: seq<Action>)
    ensures Leads(run, Disconnected())
  {
    var s := Connected().(mu := MuAdmin(0), admins := map[0 := AdminClosing(HOST, 0)]);
    run := Disconnecting();
    run := WholeClose(run, s, 0, ADMIN);
    run := Grow(run, With(s, 0, Closed()), Adm(0, AdminRemove));
    assert Step(With(s, 0, Closed()), Adm(0, AdminRemove)) == Disconnected();
  }

  /** Stream 1 takes the hostname. */
  function Reconnected(): State {
    Server.State(MuFree, map[], map[HOST := 1], map[0 := Closed(), 1 := T.Init()], map[0 := HOST, 1 := HOST],
                 map[0 := Serving, 1 := Serving], map[0 := AdminReturned(true)], {0})
  }

  lemma Returns() returns (run: seq<Action>)
    ensures Leads(run, Returning())
  {
    var s := Disconnected();
    run := Disconnects();
    run := Grow(run, s, Reg(1, Arrive(HOST, false)));
    assert Step(s, Reg(1, Arrive(HOST, false))) == Returning();
  }

  function Returning(): State {
    Disconnected().(conns := map[0 := Closed(), 1 := T.Init()], hosts := map[0 := HOST, 1 := HOST],
                    streams := map[0 := Serving, 1 := Arriving(false)])
  }

  lemma Reconnects() returns (run: seq<Action>)
    ensures Leads(run, Reconnected())
  {
    var s := Returning();
    run := Returns();
    var locked := s.(mu := MuStream(1), streams := map[0 := Serving, 1 := Registering(false)]);
    run := Grow(run, s, Reg(1, LockRegister));
    assert Step(s, Reg(1, LockRegister)) == locked;
    run := Grow(run, locked, Reg(1, Insert));
    assert Step(locked, Reg(1, Insert)) == Reconnected();
  }

  /** The receive loop of stream 0 has ended. */
  function Ended(): T.State {
    Closed().(started := true, recv := T.RecvEnded, broken := true)
  }

  lemma Ends() returns (run: seq<Action>)
    ensures Leads(run, With(Reconnected(), 0, Ended()))
  {
    var s := Reconnected();
    run := Reconnects();
    assert With(s, 0, Closed()) == s;
    run := GrowInner(run, s, 0, Closed(), T.Stream(T.Start));
    var started := Closed().(started := true);
    assert T.Step(Closed(), T.Stream(T.Start)) == started;
    run := GrowInner(run, s, 0, started, T.Stream(T.RecvFail));
    assert T.Step(started, T.Stream(T.RecvFail)) == Ended();
  }

  const STREAM := T.StreamThread(0)

  function Torn(pc: T.ClosePc): T.State {
    Ended().(closers := Ended().closers[STREAM := pc])
  }

  function Tearing(pc: StreamPc): State {
    Reconnected().(streams := map[0 := pc, 1 := Serving])
  }

  lemma BeginsTeardown() returns (run: seq<Action>)
    ensures Leads(run, With(Tearing(TearingDown), 0, Torn(T.CloseEntered)))
  {
    var s := With(Reconnected(), 0, Ended());
    run := Ends();
    EndsTurnIntoTeardown();
    run := Grow(run, s, Reg(0, StreamEnds));
  }

  lemma EndsTurnIntoTeardown()
    ensures var s := With(Reconnected(), 0, Ended());
      && RegEnabled(s, 0, StreamEnds)
      && RegStep(s, 0, StreamEnds) == With(Tearing(TearingDown), 0, Torn(T.CloseEntered))
  {
    assert Begin(Ended(), STREAM) == Torn(T.CloseEntered);
  }

  /** The deferred Close of stream 0 finds its connection closed. */
  lemma TearsDown() returns (run: seq<Action>)
    ensures Leads(run, With(Tearing(TornDown), 0, Torn(T.CloseReturned)))
  {
    run := BeginsTeardown();
    run := FindsClosed(run, Tearing(TearingDown));
    var s := With(Tearing(TearingDown), 0, Torn(T.CloseReturned));
    run := Grow(run, s, Reg(0, CloseDone));
    assert Step(s, Reg(0, CloseDone)) == With(Tearing(TornDown), 0, Torn(T.CloseReturned));
  }

  lemma {:induction false} FindsClosed(run: seq<Action>, s: State) returns (next: seq<Action>)
    requires Leads(run, With(s, 0, Torn(T.CloseEntered))) && 0 in s.streams
    ensures Leads(next, With(s, 0, Torn(T.CloseReturned)))
  {
    var locked := Torn(T.CloseChecking).(closedMu := T.ByCloser(STREAM));
    TornMoves();
    next := GrowInner(run, s, 0, Torn(T.CloseEntered), T.Close(STREAM, T.CloseLock));
    next := GrowInner(next, s, 0, locked, T.Close(STREAM, T.CloseNoop));
  }

  lemma TornMoves()
    ensures T.CloserEnabled(Torn(T.CloseEntered), STREAM, T.CloseLock)
    ensures var locked := Torn(T.CloseChecking).(closedMu := T.ByCloser(STREAM));
      && T.CloserStep(Torn(T.CloseEntered), STREAM, T.CloseLock) == locked
      && T.CloserEnabled(locked, STREAM, T.CloseNoop)
      && T.CloserStep(locked, STREAM, T.CloseNoop) == Torn(T.CloseReturned)
  {
  }

  /** With Disconnect ownership fails: stream 0 is disconnected, stream 1 takes the
      hostname, and the teardown of stream 0 then evicts stream 1, which is still
      serving. */
  lemma DisconnectBreaksOwnership()
    ensures exists run :: Run(run) && EvictsServing(StateAfter(run), 0, 1)
  {
    var s := With(Tearing(TornDown), 0, Torn(T.CloseReturned));
    var run := TearsDown();
    run := Grow(run, s, Reg(0, LockUnregister));
    var locked := s.(mu := MuStream(0), streams := map[0 := Unregistering, 1 := Serving]);
    assert Step(s, Reg(0, LockUnregister)) == locked;
    run := Grow(run, locked, Reg(0, CloseFound));
    assert EvictsServing(StateAfter(run), 0, 1);
  }

  predicate EvictsServing(s: State, c: ConnId, d: ConnId) {
    && c != d && c in s.streams && s.streams[c] == Evicting(d)
    && d in s.streams && s.streams[d].Serving? && d in s.conns && !s.conns[d].recv.RecvEnded?
  }

  // ---------------------------------------------------------------- registered means usable

  /** What a call to Get that holds its read lock returns: none, or a connection of a
      live stream with that hostname, open unless that stream has begun its deferred
      Close and not yet run its Unregister. */
  lemma {:induction false} GetReturnsUsable(run: seq<Action>, r: ReaderId)
    requires Run(run) && r in StateAfter(run).reading
    ensures var s := StateAfter(run);
      var h := s.reading[r];
      h in s.tunnels ==>
        var c := s.tunnels[h];
        && c in s.conns && Entry(s.streams, s.hosts, h, c)
        && (s.conns[c].closed ==> s.streams[c].TearingDown? || s.streams[c].TornDown?)
  {
    RunOk(run);
    if StateAfter(run).reading[r] in StateAfter(run).tunnels {
      UsableWhenFree(StateAfter(run), StateAfter(run).reading[r]);
    }
  }

  /** Whenever nobody holds mu, a closed connection in the registry belongs to a
      stream that has begun its deferred Close and not yet run its Unregister.
      Disconnect and Register included. */
  lemma {:induction false} RegisteredMeansUsable(run: seq<Action>, h: Host)
    requires Run(run) && h in StateAfter(run).tunnels
    ensures var s := StateAfter(run);
      && s.tunnels[h] in s.conns && s.tunnels[h] in s.streams
      && (s.mu.MuFree? && s.conns[s.tunnels[h]].closed ==>
            s.streams[s.tunnels[h]].TearingDown? || s.streams[s.tunnels[h]].TornDown?)
  {
    RunOk(run);
    UsableWhenFree(StateAfter(run), h);
  }

  lemma UsableWhenFree(s: State, h: Host)
    requires MuInv(s.mu, s.streams, s.admins) && UsableInv(s) && DomainInv(s)
    requires EntryInv(s.tunnels, s.hosts, s.streams, s.admins) && h in s.tunnels
    ensures s.tunnels[h] in s.conns && s.tunnels[h] in s.streams
    ensures s.mu.MuFree? && s.conns[s.tunnels[h]].closed ==>
      s.streams[s.tunnels[h]].TearingDown? || s.streams[s.tunnels[h]].TornDown?
  {
    assert Usable(s, s.tunnels[h]);
    assert Entry(s.streams, s.hosts, h, s.tunnels[h]);
  }

  // ---------------------------------------------------------------- lock order

  datatype Thread =
    | Handler(c: ConnId, t: T.CallerId)
    | StreamTh(c: ConnId)
    | AdminTh(a: AdminId)
    | ReaderTh(r: ReaderId)
    | SenderTh(c: ConnId)
    | RemoteTh(c: ConnId)

  function CloserThread(k: T.CloserId): Thread {
    match k
    case StreamThread(d) => StreamTh(d)
    case AdminThread(a) => AdminTh(a)
  }

  const MU := 0
  const CLOSED_MU := 1
  const PENDING_MU := 2

  function MuThread(mu: Mu): Option<Thread> {
    match mu
    case MuFree => None
    case MuStream(c) => Some(StreamTh(c))
    case MuAdmin(a) => Some(AdminTh(a))
  }

  /** The thread that owns a lock of connection c; its receive loop runs on the
      stream's own thread. */
  function OwnerThread(c: ConnId, o: T.Owner): Option<Thread> {
    match o
    case Free => None
    case ByCaller(t) => Some(Handler(c, t))
    case ByCloser(k) => Some(CloserThread(k))
    case ByRecv => Some(StreamTh(c))
  }

  ghost predicate Holds(s: State, th: Thread, rank: int) {
    || (rank == MU && (MuThread(s.mu) == Some(th) || (th.ReaderTh? && th.r in s.reading)))
    || (exists c :: c in s.conns && HoldsIn(s, th, rank, c))
  }

  predicate HoldsIn(s: State, th: Thread, rank: int, c: ConnId)
    requires c in s.conns
  {
    || (rank == CLOSED_MU && OwnerThread(c, s.conns[c].closedMu) == Some(th))
    || (rank == PENDING_MU && OwnerThread(c, s.conns[c].pendingMu) == Some(th))
  }

  /** The lock an action takes, and for which thread. */
  function Acquires(a: Action): Option<(Thread, int)> {
    match a
    case Inner(c, Call(t, LockCheck)) => Some((Handler(c, t), CLOSED_MU))
    case Inner(c, Call(t, LockInsert)) => Some((Handler(c, t), PENDING_MU))
    case Inner(c, Call(t, LockRemove)) => Some((Handler(c, t), PENDING_MU))
    case Inner(c, Close(k, CloseLock)) => Some((CloserThread(k), CLOSED_MU))
    case Inner(c, Close(k, CloseLockPending)) => Some((CloserThread(k), PENDING_MU))
    case Inner(c, Stream(RecvLock)) => Some((StreamTh(c), PENDING_MU))
    case Reg(c, LockRegister) => Some((StreamTh(c), MU))
    case Reg(c, LockUnregister) => Some((StreamTh(c), MU))
    case Adm(x, AdminLock) => Some((AdminTh(x), MU))
    case Read(r, ReadLock(_)) => Some((ReaderTh(r), MU))
    case _ => None
  }

  /** A thread inside a Close is inside it on one connection only, and is not in its
      receive loop; a thread in its receive loop is inside no Close. */
  lemma HoldingIn(s: State, k: T.CloserId, c: ConnId)
    requires ServerOk(s) && c in s.conns
    requires s.conns[c].closedMu == T.ByCloser(k) || s.conns[c].pendingMu == T.ByCloser(k)
    ensures k in s.conns[c].closers && !s.conns[c].closers[k].CloseReturned? && !s.conns[c].closers[k].CloseEntered?
    ensures Attributed(s.streams, s.admins, c, k)
    ensures s.conns[c].closers[k].ChanClosed? ==> s.conns[c].pendingMu != T.ByCloser(k)
  {
    ReachableInv(s.conns[c]);
    HoldingCloser(s.conns[c], k);
    assert Attributed(s.streams, s.admins, c, k);
  }

  lemma HoldingCloser(conn: T.State, k: T.CloserId)
    requires I.LockInv(conn)
    requires conn.closedMu == T.ByCloser(k) || conn.pendingMu == T.ByCloser(k)
    ensures k in conn.closers && !conn.closers[k].CloseReturned? && !conn.closers[k].CloseEntered?
    ensures conn.closers[k].ChanClosed? ==> conn.pendingMu != T.ByCloser(k)
  {
  }

  lemma InRecvLoop(s: State, c: ConnId)
    requires DomainInv(s) && LifeInv(s.streams, s.conns) && c in s.conns
    requires !s.conns[c].recv.Listening? && !s.conns[c].recv.RecvEnded?
    ensures c in s.streams && s.streams[c].Serving?
  {
  }

  lemma LookingUp(s: State, c: ConnId)
    requires ServerOk(s) && c in s.conns && s.conns[c].pendingMu.ByRecv?
    ensures c in s.streams && s.streams[c].Serving?
  {
    ReachableInv(s.conns[c]);
    assert s.conns[c].recv.LookingUp?;
    InRecvLoop(s, c);
  }

  lemma CallersHoldNothing(conn: T.State, t: T.CallerId)
    requires I.LockInv(conn) && t in conn.callers
    ensures !conn.callers[t].pc.Checking? ==> conn.closedMu != T.ByCaller(t)
    ensures !I.HoldsPendingMu(conn.callers[t].pc) ==> conn.pendingMu != T.ByCaller(t)
  {
  }

  /** The action takes no lock for this thread, or one of higher rank. */
  predicate Above(a: Action, th: Thread, held: int) {
    Acquires(a).Some? && Acquires(a).value.0 == th ==> held < Acquires(a).value.1
  }

  lemma OneCloseAtATime(s: State, k: T.CloserId, c: ConnId, x: ConnId)
    requires Attributed(s.streams, s.admins, c, k) && Attributed(s.streams, s.admins, x, k)
    ensures c == x
  {
  }

  lemma OrderRecv(s: State, a: Action, c: ConnId)
    requires DomainInv(s) && ClosersInv(s.conns, s.streams, s.admins) && Enabled(s, a)
    requires c in s.conns && c in s.streams && s.streams[c].Serving? && s.conns[c].recv.LookingUp?
    ensures Above(a, StreamTh(c), PENDING_MU)
  {
    match a
    case Inner(x, Close(k, cl)) =>
      if cl.CloseLock? || cl.CloseLockPending? {
        ServingClosesNothing(s, c, x, k);
      }
    case _ =>
  }

  lemma ServingClosesNothing(s: State, c: ConnId, x: ConnId, k: T.CloserId)
    requires ClosersInv(s.conns, s.streams, s.admins) && c in s.streams && s.streams[c].Serving?
    requires x in s.conns && k in s.conns[x].closers && !s.conns[x].closers[k].CloseReturned?
    ensures CloserThread(k) != StreamTh(c)
  {
    assert Attributed(s.streams, s.admins, x, k);
  }

  lemma OrderCaller(s: State, a: Action, t: T.CallerId, held: int, c: ConnId)
    requires Enabled(s, a) && c in s.conns && I.LockInv(s.conns[c])
    requires (held == CLOSED_MU && s.conns[c].closedMu == T.ByCaller(t))
      || (held == PENDING_MU && s.conns[c].pendingMu == T.ByCaller(t))
    ensures Above(a, Handler(c, t), held)
  {
    match a
    case Inner(x, Call(u, ca)) =>
      if x == c && u == t && t in s.conns[c].callers {
        CallersHoldNothing(s.conns[c], t);
      }
    case _ =>
  }

  lemma OrderCloser(s: State, a: Action, k: T.CloserId, held: int, c: ConnId)
    requires DomainInv(s) && LifeInv(s.streams, s.conns) && ClosersInv(s.conns, s.streams, s.admins) && Enabled(s, a)
    requires c in s.conns && Attributed(s.streams, s.admins, c, k)
    requires k in s.conns[c].closers && !s.conns[c].closers[k].CloseEntered?
    requires held == CLOSED_MU || (held == PENDING_MU && !s.conns[c].closers[k].ChanClosed?)
    ensures Above(a, CloserThread(k), held)
  {
    match a
    case Inner(x, Close(l, cl)) =>
      if l == k && (cl.CloseLock? || cl.CloseLockPending?) {
        assert Attributed(s.streams, s.admins, x, k);
        OneCloseAtATime(s, k, c, x);
      }
    case Inner(x, Stream(RecvLock)) =>
      InRecvLoop(s, x);
    case _ =>
  }

  /** A lock of connection c held by a thread has a lower rank than one an action
      takes for that thread. */
  lemma OrderIn(s: State, a: Action, th: Thread, held: int, c: ConnId)
    requires ServerOk(s) && Enabled(s, a)
    requires c in s.conns && HoldsIn(s, th, held, c)
    ensures Above(a, th, held)
  {
    if held == CLOSED_MU {
      OrderOwner(s, a, c, s.conns[c].closedMu, held);
    } else {
      OrderOwner(s, a, c, s.conns[c].pendingMu, held);
    }
  }

  lemma OrderOwner(s: State, a: Action, c: ConnId, o: T.Owner, held: int)
    requires ServerOk(s) && Enabled(s, a) && c in s.conns && OwnerThread(c, o).Some?
    requires (held == CLOSED_MU && o == s.conns[c].closedMu) || (held == PENDING_MU && o == s.conns[c].pendingMu)
    ensures Above(a, OwnerThread(c, o).value, held)
  {
    match o
    case ByRecv => OrderInRecv(s, a, c, held);
    case ByCaller(t) => OrderInCaller(s, a, t, held, c);
    case ByCloser(k) => OrderInCloser(s, a, k, held, c);
  }

  lemma OrderInCaller(s: State, a: Action, t: T.CallerId, held: int, c: ConnId)
    requires ServerOk(s) && Enabled(s, a) && c in s.conns
    requires (held == CLOSED_MU && s.conns[c].closedMu == T.ByCaller(t))
      || (held == PENDING_MU && s.conns[c].pendingMu == T.ByCaller(t))
    ensures Above(a, Handler(c, t), held)
  {
    ConnLocks(s.conns[c]);
    OrderCaller(s, a, t, held, c);
  }

  lemma OrderInRecv(s: State, a: Action, c: ConnId, held: int)
    requires ServerOk(s) && Enabled(s, a) && c in s.conns
    requires (held == CLOSED_MU && s.conns[c].closedMu.ByRecv?) || (held == PENDING_MU && s.conns[c].pendingMu.ByRecv?)
    ensures Above(a, StreamTh(c), held)
  {
    ConnLocks(s.conns[c]);
    LookingUp(s, c);
    OrderRecv(s, a, c);
  }

  lemma OrderInCloser(s: State, a: Action, k: T.CloserId, held: int, c: ConnId)
    requires ServerOk(s) && Enabled(s, a) && c in s.conns
    requires (held == CLOSED_MU && s.conns[c].closedMu == T.ByCloser(k))
      || (held == PENDING_MU && s.conns[c].pendingMu == T.ByCloser(k))
    ensures Above(a, CloserThread(k), held)
  {
    HoldingIn(s, k, c);
    OrderCloser(s, a, k, held, c);
  }

  lemma ConnLocks(conn: T.State)
    requires Reachable(conn)
    ensures I.LockInv(conn) && !conn.closedMu.ByRecv?
  {
    ReachableInv(conn);
  }

  lemma OrderMu(s: State, a: Action, th: Thread)
    requires MuInv(s.mu, s.streams, s.admins) && Enabled(s, a)
    requires MuThread(s.mu) == Some(th) || (th.ReaderTh? && th.r in s.reading)
    ensures Above(a, th, MU)
  {
    match a
    case Reg(_, _) =>
    case Adm(_, _) =>
    case Inner(_, _) =>
    case Read(_, _) =>
  }

  /** Every thread, readers of the registry included, takes Registry.mu, closedMu and pendingMu in strictly increasing
      order: whatever lock an action takes, all locks its thread already holds, on
      any connection, have a lower rank. */
  lemma {:induction false} LockOrder(run: seq<Action>, a: Action, held: int)
    requires Run(run) && Enabled(StateAfter(run), a) && Acquires(a).Some?
    requires Holds(StateAfter(run), Acquires(a).value.0, held)
    ensures held < Acquires(a).value.1
  {
    RunOk(run);
    OrderHeld(StateAfter(run), a, Acquires(a).value.0, held);
  }

  lemma OrderHeld(s: State, a: Action, th: Thread, held: int)
    requires ServerOk(s) && Enabled(s, a) && Holds(s, th, held)
    ensures Above(a, th, held)
  {
    if held == MU {
      OrderMu(s, a, th);
    } else {
      forall c | c in s.conns && HoldsIn(s, th, held, c) ensures Above(a, th, held) {
        OrderIn(s, a, th, held, c);
      }
    }
  }

  // ---------------------------------------------------------------- freedom from deadlock

  ghost predicate ConnLocked(s: State, c: ConnId) {
    c in s.conns && (!s.conns[c].closedMu.Free? || !s.conns[c].pendingMu.Free?)
  }

  ghost predicate SomeLockHeld(s: State) {
    !s.mu.MuFree? || s.reading != map[] || exists c :: ConnLocked(s, c)
  }

  /** The steps of the sender goroutine, which takes no lock. */
  predicate SenderStep(st: T.StreamAction) {
    st.SenderTake? || st.SenderPut? || st.SenderStop? || st.SenderFail?
  }

  /** The steps of the client and of the network. */
  predicate RemoteStep(st: T.StreamAction) {
    st.ClientTake? || st.ClientReply? || st.ClientFail? || st.ClientRepeat? || st.WireLoss?
  }

  /** The thread that performs an action: a stream's own thread runs its receive loop,
      its registration and its teardown. */
  function Actor(a: Action): Thread {
    match a
    case Inner(c, Call(t, _)) => Handler(c, t)
    case Inner(c, Close(k, _)) => CloserThread(k)
    case Inner(c, Stream(st)) =>
      if SenderStep(st) then SenderTh(c) else if RemoteStep(st) then RemoteTh(c) else StreamTh(c)
    case Reg(c, _) => StreamTh(c)
    case Adm(x, _) => AdminTh(x)
    case Read(r, _) => ReaderTh(r)
  }

  ghost predicate HoldsSome(s: State, th: Thread) {
    Holds(s, th, MU) || Holds(s, th, CLOSED_MU) || Holds(s, th, PENDING_MU)
  }

  lemma ConnHolderSteps(s: State, c: ConnId)
    requires ServerOk(s) && ConnLocked(s, c)
    ensures var a := Inner(c, TT.HolderAction(s.conns[c])); Enabled(s, a) && HoldsSome(s, Actor(a))
  {
    var conn := s.conns[c];
    ReachableInv(conn);
    TT.LockHolderCanStep(conn);
    HolderHolds(conn, c);
    var th := Actor(Inner(c, TT.HolderAction(conn)));
    assert HoldsIn(s, th, CLOSED_MU, c) || HoldsIn(s, th, PENDING_MU, c);
  }

  lemma HolderHolds(conn: T.State, c: ConnId)
    requires I.LockInv(conn) && (!conn.closedMu.Free? || !conn.pendingMu.Free?)
    ensures var act := TT.HolderAction(conn);
      && !(act.Close? && act.cl.CloseEnter?) && !(act.Stream? && (act.st.Start? || act.st.AckFail?))
      && !(act.Call? && act.ca.Enter?)
      && (Some(Actor(Inner(c, act))) == OwnerThread(c, conn.closedMu)
          || Some(Actor(Inner(c, act))) == OwnerThread(c, conn.pendingMu))
  {
  }

  /** The next step of the holder of mu when no connection lock is held. */
  function MuAction(s: State): Action {
    match s.mu
    case MuStream(c) =>
      if c !in s.streams || c !in s.hosts then Reg(c, FindNone) else
      (match s.streams[c]
       case Registering(overwrite) =>
         Reg(c, if s.hosts[c] !in s.tunnels then Insert else if overwrite then CloseOld else Conflict)
       case Replacing(prev) => CloseOr(s, prev, T.StreamThread(c), Reg(c, Replace))
       case Evicting(v) => CloseOr(s, v, T.StreamThread(c), Reg(c, RemoveFound))
       case _ => Reg(c, if s.hosts[c] in s.tunnels then CloseFound else FindNone))
    case MuAdmin(a) =>
      if a !in s.admins then Adm(a, AdminNone) else
      (match s.admins[a]
       case AdminClosing(_, v) => CloseOr(s, v, T.AdminThread(a), Adm(a, AdminRemove))
       case AdminHolding(h) => Adm(a, if h in s.tunnels then AdminClose else AdminNone)
       case _ => Adm(a, AdminNone))
    case MuFree => Adm(0, AdminNone)
  }

  /** Go on with the Close on connection v, or if it has returned do `next`. */
  function CloseOr(s: State, v: ConnId, k: T.CloserId, next: Action): Action {
    if Server.Returned(s, v, k) then next else Inner(v, T.Close(k, T.CloseLock))
  }

  lemma UnlockedConnCloser(conn: T.State, k: T.CloserId)
    requires Reachable(conn) && k in conn.closers && conn.closedMu.Free?
    ensures conn.closers[k].CloseReturned? || T.CloserEnabled(conn, k, T.CloseLock)
  {
    ConnLocks(conn);
    assert !I.HoldsClosedMu(conn.closers[k]);
  }

  /** A thread whose Close on v is under way while no lock of v is held can go on. */
  lemma UnlockedCloser(s: State, v: ConnId, k: T.CloserId, next: Action)
    requires ConnsInv(s.conns) && DomainInv(s) && HasCloser(s.conns, v, k) && !ConnLocked(s, v)
    requires Server.Returned(s, v, k) ==> Enabled(s, next)
    requires Actor(next) == CloserThread(k)
    ensures Enabled(s, CloseOr(s, v, k, next)) && Actor(CloseOr(s, v, k, next)) == CloserThread(k)
  {
    UnlockedConnCloser(s.conns[v], k);
  }

  lemma FoundSteps(s: State, c: ConnId)
    requires DomainInv(s) && EntryInv(s.tunnels, s.hosts, s.streams, s.admins)
    requires ClosersInv(s.conns, s.streams, s.admins) && s.mu == MuStream(c)
    requires c in s.streams && (s.streams[c].Registering? || s.streams[c].Unregistering?)
    ensures Enabled(s, MuAction(s)) && Actor(MuAction(s)) == StreamTh(c)
  {
    var h := s.hosts[c];
    if h in s.tunnels {
      assert Entry(s.streams, s.hosts, h, s.tunnels[h]);
      IdleThread(s, s.tunnels[h], T.StreamThread(c));
    }
  }

  lemma MuStreamSteps(s: State, c: ConnId)
    requires ServerOk(s) && s.mu == MuStream(c) && forall x :: !ConnLocked(s, x)
    ensures Enabled(s, MuAction(s)) && Actor(MuAction(s)) == StreamTh(c)
  {
    match s.streams[c]
    case Replacing(prev) => ClosingSteps(s, c, prev);
    case Evicting(v) => ClosingSteps(s, c, v);
    case Registering(_) => FoundSteps(s, c);
    case Unregistering => FoundSteps(s, c);
  }

  lemma ClosingSteps(s: State, c: ConnId, v: ConnId)
    requires ConnsInv(s.conns) && DomainInv(s) && ClosersInv(s.conns, s.streams, s.admins)
    requires s.mu == MuStream(c) && !ConnLocked(s, v)
    requires c in s.streams && (s.streams[c] == Replacing(v) || s.streams[c] == Evicting(v))
    ensures Enabled(s, MuAction(s)) && Actor(MuAction(s)) == StreamTh(c)
  {
    var next := Reg(c, if s.streams[c].Replacing? then Replace else RemoveFound);
    ClosingHas(s, c, v);
    ClosingNext(s, c, v, next);
    UnlockedCloser(s, v, T.StreamThread(c), next);
  }

  lemma ClosingHas(s: State, c: ConnId, v: ConnId)
    requires ClosersInv(s.conns, s.streams, s.admins)
    requires c in s.streams && (s.streams[c] == Replacing(v) || s.streams[c] == Evicting(v))
    ensures HasCloser(s.conns, v, T.StreamThread(c))
  {
    assert StreamCloser(s.conns, c, s.streams[c]);
  }

  lemma ClosingNext(s: State, c: ConnId, v: ConnId, next: Action)
    requires DomainInv(s) && s.mu == MuStream(c) && c in s.streams
    requires (s.streams[c] == Replacing(v) && next == Reg(c, Replace))
      || (s.streams[c] == Evicting(v) && next == Reg(c, RemoveFound))
    ensures MuAction(s) == CloseOr(s, v, T.StreamThread(c), next)
    ensures Server.Returned(s, v, T.StreamThread(c)) ==> Enabled(s, next)
  {
  }

  lemma MuAdminSteps(s: State, a: AdminId)
    requires ServerOk(s) && s.mu == MuAdmin(a) && forall x :: !ConnLocked(s, x)
    ensures Enabled(s, MuAction(s)) && Actor(MuAction(s)) == AdminTh(a)
  {
    if s.admins[a].AdminHolding? {
      AdminFoundSteps(s, a);
    } else {
      AdminClosingSteps(s, a);
    }
  }

  lemma AdminClosingSteps(s: State, a: AdminId)
    requires ConnsInv(s.conns) && DomainInv(s) && ClosersInv(s.conns, s.streams, s.admins) && s.mu == MuAdmin(a)
    requires a in s.admins && s.admins[a].AdminClosing? && !ConnLocked(s, s.admins[a].victim)
    requires s.admins[a].host in s.tunnels && s.tunnels[s.admins[a].host] == s.admins[a].victim
    ensures Enabled(s, MuAction(s)) && Actor(MuAction(s)) == AdminTh(a)
  {
    var v, k := s.admins[a].victim, T.AdminThread(a);
    assert HasCloser(s.conns, v, k);
    UnlockedCloser(s, v, k, Adm(a, AdminRemove));
  }

  lemma AdminFoundSteps(s: State, a: AdminId)
    requires DomainInv(s) && EntryInv(s.tunnels, s.hosts, s.streams, s.admins)
    requires ClosersInv(s.conns, s.streams, s.admins) && s.mu == MuAdmin(a)
    requires a in s.admins && s.admins[a].AdminHolding?
    ensures Enabled(s, MuAction(s)) && Actor(MuAction(s)) == AdminTh(a)
  {
    var h := s.admins[a].host;
    if h in s.tunnels {
      assert Entry(s.streams, s.hosts, h, s.tunnels[h]);
      IdleThread(s, s.tunnels[h], T.AdminThread(a));
    }
  }

  /** In every reachable state with a held lock, some thread that holds a lock can
      take a step. */
  lemma {:induction false} NoDeadlock(run: seq<Action>)
    requires Run(run) && SomeLockHeld(StateAfter(run))
    ensures exists a :: Enabled(StateAfter(run), a) && HoldsSome(StateAfter(run), Actor(a))
  {
    var s := StateAfter(run);
    RunOk(run);
    if c :| ConnLocked(s, c) {
      ConnHolderSteps(s, c);
    } else if r :| r in s.reading {
      assert Enabled(s, Read(r, ReadUnlock)) && Holds(s, ReaderTh(r), MU);
    } else {
      match s.mu
      case MuStream(c) => MuStreamSteps(s, c);
      case MuAdmin(a) => MuAdminSteps(s, a);
      assert Holds(s, Actor(MuAction(s)), MU);
    }
  }
}
