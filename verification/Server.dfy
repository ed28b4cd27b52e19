/** The whole server as a labelled transition system: the registry of hostnames
    and its read-write lock, any number of connections (each the system of module
    Tunnel), the stream threads that register and tear them down, admin threads that
    disconnect them, and readers that look a hostname up (registry.go,
    grpc_tunnel.go). */
module Server {
  import T = Tunnel

  type Host = string
  type ConnId = nat
  type AdminId = nat
  type ReaderId = nat

  /** The write lock of the registry. */
  datatype Mu = MuFree | MuStream(c: ConnId) | MuAdmin(a: AdminId)

  /** A stream's thread, from arrival to the end of its deferred teardown. With
      `overwrite` it registers through Register, else through RegisterIfAbsent. */
  datatype StreamPc =
    | Arriving(overwrite: bool)      // about to lock mu
    | Registering(overwrite: bool)   // holds mu
    | Replacing(prev: ConnId)        // holds mu, inside prev.Close()
    | Serving                        // registered; the receive loop runs on this thread
    | TearingDown                    // inside the deferred conn.Close()
    | TornDown                       // about to lock mu in Unregister
    | Unregistering                  // holds mu
    | Evicting(victim: ConnId)       // holds mu, inside Close() of the entry found
    | Finished
    | Rejected

  datatype AdminPc =
    | AdminEntered(host: Host)
    | AdminHolding(host: Host)                    // holds mu
    | AdminClosing(host: Host, victim: ConnId)    // holds mu, inside victim.Close()
    | AdminReturned(found: bool)

  type Conns = map<ConnId, T.State>
  type Hosts = map<ConnId, Host>
  type Streams = map<ConnId, StreamPc>
  type Admins = map<AdminId, AdminPc>

  /** `reading` are the calls to Get inside their read lock, with the hostname they
      look up; List is such a call for every hostname. A handler is a reader in Get
      and a caller in EnqueueRequest, one after the other. `ousted` is history: the
      connections whose registry entry was removed or replaced. */
  datatype State = State(
    mu: Mu,
    reading: map<ReaderId, Host>,
    tunnels: map<Host, ConnId>,
    conns: Conns,
    hosts: Hosts,
    streams: Streams,
    admins: Admins,
    ousted: set<ConnId>)

  function Init(): State {
    State(MuFree, map[], map[], map[], map[], map[], map[], {})
  }

  datatype RegistryAction =
    | Arrive(host: Host, overwrite: bool)
    | LockRegister
    | Conflict                       // RegisterIfAbsent finds an entry
    | Insert
    | CloseOld                       // Register finds an entry
    | Replace
    | StreamEnds
    | CloseDone
    | LockUnregister
    | FindNone
    | CloseFound
    | RemoveFound

  datatype AdminAction =
    | AdminEnter(host: Host)
    | AdminLock
    | AdminNone
    | AdminClose
    | AdminRemove

  datatype ReadAction =
    | ReadLock(host: Host)
    | ReadUnlock

  datatype Action =
    | Inner(c: ConnId, act: T.Action)
    | Reg(c: ConnId, ra: RegistryAction)
    | Adm(a: AdminId, aa: AdminAction)
    | Read(r: ReaderId, rd: ReadAction)

  /** Whether the write lock can be taken. */
  predicate CanWrite(s: State) {
    s.mu.MuFree? && s.reading == map[]
  }

  predicate ReadEnabled(s: State, r: ReaderId, rd: ReadAction) {
    match rd
    case ReadLock(_) => r !in s.reading && s.mu.MuFree?
    case ReadUnlock => r in s.reading
  }

  function ReadStep(s: State, r: ReaderId, rd: ReadAction): State
    requires ReadEnabled(s, r, rd)
  {
    match rd
    case ReadLock(host) => s.(reading := s.reading[r := host])
    case ReadUnlock => s.(reading := s.reading - {r})
  }

  function Begin(conn: T.State, k: T.CloserId): T.State
    requires T.CloserEnabled(conn, k, T.CloseEnter)
  {
    T.CloserStep(conn, k, T.CloseEnter)
  }

  predicate CanBegin(s: State, c: ConnId, k: T.CloserId) {
    c in s.conns && T.CloserEnabled(s.conns[c], k, T.CloseEnter)
  }

  predicate Returned(s: State, c: ConnId, k: T.CloserId) {
    c in s.conns && k in s.conns[c].closers && s.conns[c].closers[k].CloseReturned?
  }

  predicate RegEnabled(s: State, c: ConnId, a: RegistryAction) {
    if a.Arrive? then c !in s.streams && c !in s.conns && c !in s.hosts
    else
      c in s.streams && c in s.hosts && c in s.conns &&
      var pc := s.streams[c];
      var h := s.hosts[c];
      match a
      case Arrive(_, _) => false
      case LockRegister => pc.Arriving? && CanWrite(s)
      case Conflict => pc.Registering? && !pc.overwrite && h in s.tunnels
      case Insert => pc.Registering? && h !in s.tunnels
      case CloseOld =>
        pc.Registering? && pc.overwrite && h in s.tunnels && CanBegin(s, s.tunnels[h], T.StreamThread(c))
      case Replace => pc.Replacing? && Returned(s, pc.prev, T.StreamThread(c))
      case StreamEnds => pc.Serving? && s.conns[c].recv.RecvEnded? && CanBegin(s, c, T.StreamThread(c))
      case CloseDone => pc.TearingDown? && Returned(s, c, T.StreamThread(c))
      case LockUnregister => pc.TornDown? && CanWrite(s)
      case FindNone => pc.Unregistering? && h !in s.tunnels
      case CloseFound => pc.Unregistering? && h in s.tunnels && CanBegin(s, s.tunnels[h], T.StreamThread(c))
      case RemoveFound => pc.Evicting? && Returned(s, pc.victim, T.StreamThread(c))
  }

  function RegStep(s: State, c: ConnId, a: RegistryAction): State
    requires RegEnabled(s, c, a)
  {
    if a.Arrive? then
      s.(conns := s.conns[c := T.Init()], hosts := s.hosts[c := a.host],
         streams := s.streams[c := Arriving(a.overwrite)])
    else
      var pc := s.streams[c];
      var h := s.hosts[c];
      var k := T.StreamThread(c);
      match a
      case LockRegister => s.(streams := s.streams[c := Registering(pc.overwrite)], mu := MuStream(c))
      case Conflict => s.(streams := s.streams[c := Rejected], mu := MuFree)
      case Insert => s.(streams := s.streams[c := Serving], mu := MuFree, tunnels := s.tunnels[h := c])
      case CloseOld =>
        var prev := s.tunnels[h];
        s.(streams := s.streams[c := Replacing(prev)], conns := s.conns[prev := Begin(s.conns[prev], k)])
      case Replace =>
        s.(streams := s.streams[c := Serving], mu := MuFree, tunnels := s.tunnels[h := c],
           ousted := s.ousted + {pc.prev})
      case StreamEnds => s.(streams := s.streams[c := TearingDown], conns := s.conns[c := Begin(s.conns[c], k)])
      case CloseDone => s.(streams := s.streams[c := TornDown])
      case LockUnregister => s.(streams := s.streams[c := Unregistering], mu := MuStream(c))
      case FindNone => s.(streams := s.streams[c := Finished], mu := MuFree)
      case CloseFound =>
        var v := s.tunnels[h];
        s.(streams := s.streams[c := Evicting(v)], conns := s.conns[v := Begin(s.conns[v], k)])
      case RemoveFound =>
        s.(streams := s.streams[c := Finished], mu := MuFree, tunnels := s.tunnels - {h},
           ousted := s.ousted + {pc.victim})
  }

  predicate AdmEnabled(s: State, a: AdminId, aa: AdminAction) {
    if aa.AdminEnter? then a !in s.admins
    else
      a in s.admins &&
      var pc := s.admins[a];
      match aa
      case AdminEnter(_) => false
      case AdminLock => pc.AdminEntered? && CanWrite(s)
      case AdminNone => pc.AdminHolding? && pc.host !in s.tunnels
      case AdminClose =>
        pc.AdminHolding? && pc.host in s.tunnels && CanBegin(s, s.tunnels[pc.host], T.AdminThread(a))
      case AdminRemove => pc.AdminClosing? && Returned(s, pc.victim, T.AdminThread(a))
  }

  function AdmStep(s: State, a: AdminId, aa: AdminAction): State
    requires AdmEnabled(s, a, aa)
  {
    if aa.AdminEnter? then s.(admins := s.admins[a := AdminEntered(aa.host)])
    else
      var pc := s.admins[a];
      match aa
      case AdminLock => s.(admins := s.admins[a := AdminHolding(pc.host)], mu := MuAdmin(a))
      case AdminNone => s.(admins := s.admins[a := AdminReturned(false)], mu := MuFree)
      case AdminClose =>
        var v := s.tunnels[pc.host];
        s.(admins := s.admins[a := AdminClosing(pc.host, v)],
           conns := s.conns[v := Begin(s.conns[v], T.AdminThread(a))])
      case AdminRemove =>
        s.(admins := s.admins[a := AdminReturned(true)], mu := MuFree, tunnels := s.tunnels - {pc.host},
           ousted := s.ousted + {pc.victim})
  }

  /** Steps inside a connection. Calls to Close only begin through the registry and
      the teardown; the receive loop only starts once the stream is registered;
      handlers only reach connections that have been registered. */
  predicate InnerEnabled(s: State, c: ConnId, act: T.Action) {
    && c in s.conns && c in s.streams && T.Enabled(s.conns[c], act)
    && !(act.Close? && act.cl.CloseEnter?)
    && (act.Stream? && (act.st.Start? || act.st.AckFail?) ==> s.streams[c].Serving?)
    && (act.Call? && act.ca.Enter? ==> !Unregistered(s.streams[c]))
  }

  predicate Unregistered(pc: StreamPc) {
    pc.Arriving? || pc.Registering? || pc.Replacing? || pc.Rejected?
  }

  predicate Enabled(s: State, a: Action) {
    match a
    case Inner(c, act) => InnerEnabled(s, c, act)
    case Reg(c, ra) => RegEnabled(s, c, ra)
    case Adm(x, aa) => AdmEnabled(s, x, aa)
    case Read(r, rd) => ReadEnabled(s, r, rd)
  }

  function Step(s: State, a: Action): State
    requires Enabled(s, a)
  {
    match a
    case Inner(c, act) => s.(conns := s.conns[c := T.Step(s.conns[c], act)])
    case Reg(c, ra) => RegStep(s, c, ra)
    case Adm(x, aa) => AdmStep(s, x, aa)
    case Read(r, rd) => ReadStep(s, r, rd)
  }

  predicate FreshStep(s: State, a: Action)
    requires Enabled(s, a)
  {
    a.Inner? ==> T.FreshStep(s.conns[a.c], a.act)
  }

  /** A step that is not enabled does not happen. */
  function Perform(s: State, a: Action): State {
    if Enabled(s, a) then Step(s, a) else s
  }

  function StateAfter(run: seq<Action>): State {
    if run == [] then Init() else Perform(StateAfter(run[..|run| - 1]), run[|run| - 1])
  }

  /** A possible run: every step is enabled when it is taken, and every chosen id is
      fresh. */
  ghost predicate Run(run: seq<Action>) {
    run == [] ||
    var before, a := StateAfter(run[..|run| - 1]), run[|run| - 1];
    Run(run[..|run| - 1]) && Enabled(before, a) && FreshStep(before, a)
  }
}
