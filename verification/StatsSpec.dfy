/** The statistics of stats.go as a function of their history: a run of events,
    the state the incremental code keeps, and what that state means in terms of
    the records of each host. Times are milliseconds on one clock, 0 being the
    zero time; durations are not negative. */
module StatsSpec {
  import opened Text

  type Time = int
  const ZERO_TIME: Time := 0
  const RETAIN_AFTER_INACTIVE: int := 600000
  const RECENT_ERROR_WINDOW: int := 300000

  /** One row of TunnelStats. */
  datatype Stat = Stat(
    hostname: string, requests: int, errors: int, bytesIn: int, bytesOut: int,
    lastStatus: int, lastSeen: Time, latencyCount: int, latencySum: int, latencyMax: int, latencyAvg: int,
    lastRemoteAddr: string, active: bool)

  datatype Hit = Hit(
    host: string, addr: string, bytesIn: nat, bytesOut: nat, status: int, ms: nat, isError: bool, now: Time)

  datatype Event =
    | Record(hit: Hit)
    | Snapshot(active: map<string, string>, now: Time)
    | RecentErrors(window: int, now: Time)

  datatype State = State(entries: map<string, Stat>, errors: seq<Time>)

  function Init(): State {
    State(map[], [])
  }

  // ---------------------------------------------------------------- the incremental code

  function Fresh(host: string): Stat {
    Stat(host, 0, 0, 0, 0, 0, ZERO_TIME, 0, 0, 0, 0, "", false)
  }

  function Mean(sum: int, count: int): int
    requires count > 0
  {
    sum / count
  }

  function Bumped(st: Stat, hit: Hit): Stat
    requires st.latencyCount >= 0
  {
    st.(requests := st.requests + 1,
        errors := st.errors + (if hit.isError then 1 else 0),
        bytesIn := st.bytesIn + hit.bytesIn,
        bytesOut := st.bytesOut + hit.bytesOut,
        lastStatus := hit.status,
        lastSeen := hit.now,
        latencyCount := st.latencyCount + 1,
        latencySum := st.latencySum + hit.ms,
        latencyMax := if hit.ms > st.latencyMax then hit.ms else st.latencyMax,
        latencyAvg := Mean(st.latencySum + hit.ms, st.latencyCount + 1),
        lastRemoteAddr := if hit.addr != "" then hit.addr else st.lastRemoteAddr)
  }

  function Marked(st: Stat, active: map<string, string>): Stat {
    if st.hostname in active
    then st.(active := true,
             lastRemoteAddr := if active[st.hostname] != "" then active[st.hostname] else st.lastRemoteAddr)
    else st.(active := false)
  }

  predicate Expired(st: Stat, active: map<string, string>, now: Time) {
    st.hostname !in active && st.lastSeen != ZERO_TIME && now - st.lastSeen > RETAIN_AFTER_INACTIVE
  }

  function Counted(entries: map<string, Stat>, hit: Hit): map<string, Stat>
    requires forall h :: h in entries ==> entries[h].latencyCount >= 0
  {
    entries[hit.host := Bumped(if hit.host in entries then entries[hit.host] else Fresh(hit.host), hit)]
  }

  function AfterRecord(s: State, hit: Hit): State
    requires forall h :: h in s.entries ==> s.entries[h].latencyCount >= 0
  {
    if hit.host == "" then s
    else
      State(Counted(s.entries, hit), if hit.isError then s.errors + [hit.now] else s.errors)
  }

  function AfterSnapshot(entries: map<string, Stat>, active: map<string, string>, now: Time): map<string, Stat> {
    map h | h in entries && !Expired(entries[h], active, now) :: Marked(entries[h], active)
  }

  function Later(times: seq<Time>, cut: Time): (r: seq<Time>)
    ensures |r| <= |times|
  {
    if times == [] then []
    else
      var rest := Later(times[..|times| - 1], cut);
      if times[|times| - 1] > cut then rest + [times[|times| - 1]] else rest
  }

  /** Each time is kept or dropped by itself: kept when it is later. */
  lemma {:induction false} LaterIs(a: seq<Time>, b: seq<Time>, t: Time, cut: Time)
    ensures Later([t], cut) == if cut < t then [t] else []
    ensures Later(a + b, cut) == Later(a, cut) + Later(b, cut)
    decreases |b|
  {
    assert [t][..0] == [];
    if b == [] {
      assert a + b == a;
    } else {
      LaterIs(a, b[..|b| - 1], t, cut);
      assert (a + b)[..|a + b| - 1] == a + b[..|b| - 1];
    }
  }

  function Window(window: int): (w: int)
    ensures w > 0
  {
    if window <= 0 then RECENT_ERROR_WINDOW else window
  }

  function Cut(window: int, now: Time): Time {
    now - Window(window)
  }

  function Apply(s: State, e: Event): (n: State)
    requires forall h :: h in s.entries ==> s.entries[h].latencyCount >= 0
    ensures forall h :: h in n.entries ==> n.entries[h].latencyCount >= 0
  {
    match e
    case Record(hit) => AfterRecord(s, hit)
    case Snapshot(active, now) => s.(entries := AfterSnapshot(s.entries, active, now))
    case RecentErrors(window, now) => s.(errors := Later(s.errors, Cut(window, now)))
  }

  function Exec(run: seq<Event>): (s: State)
    ensures forall h :: h in s.entries ==> s.entries[h].latencyCount >= 0
  {
    if run == [] then Init() else Apply(Exec(run[..|run| - 1]), run[|run| - 1])
  }

  // ---------------------------------------------------------------- the history

  /** The records of a host since its entry was created: a snapshot that finds the
      host inactive and unseen for longer than the retention time starts over. */
  function Since(run: seq<Event>, host: string): (hits: seq<Hit>)
    ensures forall i :: 0 <= i < |hits| ==> hits[i].host == host
  {
    if run == [] || host == "" then []
    else
      var before := Since(run[..|run| - 1], host);
      match run[|run| - 1]
      case Record(hit) => if hit.host == host then before + [hit] else before
      case Snapshot(active, now) =>
        if before != [] && host !in active && before[|before| - 1].now != ZERO_TIME
           && now - before[|before| - 1].now > RETAIN_AFTER_INACTIVE
        then [] else before
      case RecentErrors(_, _) => before
  }

  /** A record counts for its own host; a snapshot starts over the hosts that are neither
      active nor were seen in the last ten minutes; nothing else changes. */
  lemma SinceIs(run: seq<Event>, e: Event, host: string)
    requires host != ""
    ensures var before, after := Since(run, host), Since(run + [e], host);
      && (e.Record? && e.hit.host == host ==> after == before + [e.hit])
      && (e.Snapshot? && before != [] ==>
            var seen := before[|before| - 1].now;
            after == if host in e.active || seen == 0 || e.now - seen <= 600000 then before else [])
      && (e.RecentErrors? || (e.Record? && e.hit.host != host) ==> after == before)
  {
    assert (run + [e])[..|run|] == run;
  }

  /** The last non-empty address a record or a snapshot gave for the host since its
      entry was created. */
  function LastAddr(run: seq<Event>, host: string): string {
    if run == [] then ""
    else
      var init := run[..|run| - 1];
      var before := LastAddr(init, host);
      if Since(run, host) == [] then ""
      else
        match run[|run| - 1]
        case Record(hit) => if hit.host == host && hit.addr != "" then hit.addr else before
        case Snapshot(active, _) => if host in active && active[host] != "" then active[host] else before
        case RecentErrors(_, _) => before
  }

  function CountErrors(hits: seq<Hit>): nat {
    if hits == [] then 0
    else CountErrors(hits[..|hits| - 1]) + (if hits[|hits| - 1].isError then 1 else 0)
  }

  function SumIn(hits: seq<Hit>): nat {
    if hits == [] then 0 else SumIn(hits[..|hits| - 1]) + hits[|hits| - 1].bytesIn
  }

  function SumOut(hits: seq<Hit>): nat {
    if hits == [] then 0 else SumOut(hits[..|hits| - 1]) + hits[|hits| - 1].bytesOut
  }

  function SumMs(hits: seq<Hit>): nat {
    if hits == [] then 0 else SumMs(hits[..|hits| - 1]) + hits[|hits| - 1].ms
  }

  /** What one record adds to each fold; folds of two runs of records add up. */
  lemma FoldsOfOne(hit: Hit)
    ensures CountErrors([hit]) == if hit.isError then 1 else 0
    ensures SumIn([hit]) == hit.bytesIn && SumOut([hit]) == hit.bytesOut && SumMs([hit]) == hit.ms
  {
    assert [hit][..0] == [];
  }

  lemma {:induction false} FoldsAdd(a: seq<Hit>, b: seq<Hit>)
    ensures CountErrors(a + b) == CountErrors(a) + CountErrors(b)
    ensures SumIn(a + b) == SumIn(a) + SumIn(b) && SumOut(a + b) == SumOut(a) + SumOut(b)
    ensures SumMs(a + b) == SumMs(a) + SumMs(b)
    decreases |b|
  {
    if b == [] {
      assert a + b == a;
    } else {
      FoldsAdd(a, b[..|b| - 1]);
      assert (a + b)[..|a + b| - 1] == a + b[..|b| - 1];
    }
  }

  /** The aggregates are those of these records, the maximum is attained (or 0),
      and the average is the floor of the mean. */
  ghost predicate Aggregates(st: Stat, host: string, hits: seq<Hit>) {
    && st.hostname == host
    && st.requests == |hits| == st.latencyCount && |hits| > 0
    && st.errors == CountErrors(hits)
    && st.bytesIn == SumIn(hits) && st.bytesOut == SumOut(hits)
    && st.lastStatus == hits[|hits| - 1].status && st.lastSeen == hits[|hits| - 1].now
    && st.latencySum == SumMs(hits)
    && (forall i :: 0 <= i < |hits| ==> hits[i].ms <= st.latencyMax)
    && (st.latencyMax == 0 || exists i :: 0 <= i < |hits| && hits[i].ms == st.latencyMax)
    && st.latencyAvg == SumMs(hits) / |hits|
  }

  lemma BumpAggregates(st: Stat, hits: seq<Hit>, hit: Hit)
    requires if hits == [] then st == Fresh(hit.host) else Aggregates(st, hit.host, hits)
    ensures Aggregates(Bumped(st, hit), hit.host, hits + [hit])
  {
    var more := hits + [hit];
    assert more[..|more| - 1] == hits;
    forall i | 0 <= i < |more| ensures more[i].ms <= Bumped(st, hit).latencyMax {
      assert i < |hits| ==> more[i] == hits[i];
    }
    var m := Bumped(st, hit).latencyMax;
    if m != 0 {
      if hit.ms == m {
        assert more[|hits|].ms == m;
      } else {
        var i :| 0 <= i < |hits| && hits[i].ms == m;
        assert more[i].ms == m;
      }
    }
  }

  /** Over any run, exactly the hosts with records since their entry was created
      have an entry, and its aggregates are folds over those records. */
  lemma {:induction false} EntriesAreFolds(run: seq<Event>, host: string)
    ensures var s := Exec(run); var hits := Since(run, host);
      && (host in s.entries <==> hits != [])
      && (host in s.entries ==> Aggregates(s.entries[host], host, hits))
    decreases |run|
  {
    if run != [] {
      var init := run[..|run| - 1];
      EntriesAreFolds(init, host);
      match run[|run| - 1]
      case Record(hit) =>
        if hit.host == host && host != "" {
          var s := Exec(init);
          BumpAggregates(if host in s.entries then s.entries[host] else Fresh(host), Since(init, host), hit);
        }
      case Snapshot(active, now) =>
      case RecentErrors(_, _) =>
    }
  }

  lemma {:induction false} EntryIsLive(run: seq<Event>, host: string)
    ensures host in Exec(run).entries <==> Since(run, host) != []
    ensures host in Exec(run).entries ==>
              && Exec(run).entries[host].hostname == host
              && Exec(run).entries[host].lastSeen == Since(run, host)[|Since(run, host)| - 1].now
  {
    EntriesAreFolds(run, host);
  }

  /** The address of an entry is the last one a record or a snapshot gave. */
  lemma {:induction false} AddressIsLast(run: seq<Event>, host: string)
    ensures if host in Exec(run).entries then Exec(run).entries[host].lastRemoteAddr == LastAddr(run, host)
            else LastAddr(run, host) == ""
    decreases |run|
  {
    EntryIsLive(run, host);
    if run != [] {
      var init := run[..|run| - 1];
      EntryIsLive(init, host);
      AddressIsLast(init, host);
      var e := run[|run| - 1];
      match e
      case Record(hit) =>
      case Snapshot(active, now) =>
      case RecentErrors(_, _) =>
    }
  }

  /** The event names a non-empty address for the host. */
  predicate Gives(e: Event, host: string, addr: string) {
    && addr != ""
    && match e
       case Record(hit) => hit.host == host && hit.addr == addr
       case Snapshot(active, _) => host in active && active[host] == addr
       case RecentErrors(_, _) => false
  }

  /** Since the i-th event the host has had an entry, and no address. */
  ghost predicate NoneGivenAfter(run: seq<Event>, i: nat, host: string)
    requires i < |run|
  {
    && (forall m :: i < m <= |run| ==> Since(run[..m], host) != [])
    && (forall j, addr :: i < j < |run| ==> !Gives(run[j], host, addr))
  }

  /** The last event to name an address, if the entry is as old, decides it. */
  lemma {:induction false} LastAddrIs(run: seq<Event>, i: nat, host: string, addr: string)
    requires i < |run| && Gives(run[i], host, addr) && NoneGivenAfter(run, i, host)
    ensures LastAddr(run, host) == addr
    decreases |run|
  {
    var n := |run| - 1;
    assert run[..|run|] == run;
    if i < n {
      assert forall m :: i < m <= n ==> run[..n][..m] == run[..m];
      assert forall j :: i < j < n ==> run[..n][j] == run[j];
      LastAddrIs(run[..n], i, host, addr);
      match run[n]
      case Record(hit) => assert !Gives(run[n], host, hit.addr);
      case Snapshot(active, _) => assert host in active ==> !Gives(run[n], host, active[host]);
      case RecentErrors(_, _) =>
    }
  }

  /** The entry has not always been there since the i-th event. */
  ghost predicate GoneAfter(run: seq<Event>, i: nat, host: string) {
    exists m :: i < m <= |run| && Since(run[..m], host) == []
  }

  /** When every event that named one is older than the entry, there is none. */
  lemma {:induction false} NoLastAddr(run: seq<Event>, host: string)
    requires forall i, addr :: 0 <= i < |run| && Gives(run[i], host, addr) ==> GoneAfter(run, i, host)
    ensures LastAddr(run, host) == ""
    decreases |run|
  {
    if run != [] && Since(run, host) != [] {
      var n := |run| - 1;
      assert run[..|run|] == run;
      forall i, addr | 0 <= i < n && Gives(run[..n][i], host, addr) ensures GoneAfter(run[..n], i, host) {
        assert run[..n][i] == run[i] && GoneAfter(run, i, host);
        var m :| i < m <= |run| && Since(run[..m], host) == [];
        assert run[..n][..m] == run[..m];
      }
      NoLastAddr(run[..n], host);
      assert !GoneAfter(run, n, host);
      match run[n]
      case Record(hit) => assert !Gives(run[n], host, hit.addr);
      case Snapshot(active, _) => assert host in active ==> !Gives(run[n], host, active[host]);
      case RecentErrors(_, _) =>
    }
  }

  /** A snapshot shows exactly the hosts with records that are active or were seen
      within the retention time, with their aggregates and whether they are active. */
  lemma {:induction false} SnapshotShows(run: seq<Event>, active: map<string, string>, now: Time, host: string)
    ensures var hits := Since(run, host);
      var shown := Exec(run + [Snapshot(active, now)]).entries;
      && (host in shown <==>
            hits != [] && (host in active || hits[|hits| - 1].now == 0
                           || now - hits[|hits| - 1].now <= 600000))
      && (host in shown ==> Aggregates(shown[host], host, hits) && (shown[host].active <==> host in active))
  {
    assert (run + [Snapshot(active, now)])[..|run|] == run;
    EntriesAreFolds(run, host);
  }

  lemma {:induction false} MeanBelowMax(hits: seq<Hit>, max: nat)
    requires forall i :: 0 <= i < |hits| ==> hits[i].ms <= max
    ensures SumMs(hits) <= |hits| * max
    decreases |hits|
  {
    if hits != [] {
      MeanBelowMax(hits[..|hits| - 1], max);
    }
  }

  /** The average never exceeds the maximum. */
  lemma {:induction false} AverageBelowMax(run: seq<Event>, host: string)
    requires host in Exec(run).entries
    ensures Exec(run).entries[host].latencyAvg <= Exec(run).entries[host].latencyMax
  {
    EntriesAreFolds(run, host);
    var hits := Since(run, host);
    var max := Exec(run).entries[host].latencyMax;
    assert hits[0].ms <= max;
    MeanBelowMax(hits, max);
    DivBound(SumMs(hits), |hits|, max);
  }

  lemma DivBound(sum: nat, n: nat, max: nat)
    requires n > 0 && sum <= n * max
    ensures sum / n <= max
  {
    assert sum < n * (max + 1);
  }

  // ---------------------------------------------------------------- recent errors

  function AllErrors(run: seq<Event>): seq<Time> {
    if run == [] then []
    else
      var before := AllErrors(run[..|run| - 1]);
      match run[|run| - 1]
      case Record(hit) => if hit.host != "" && hit.isError then before + [hit.now] else before
      case _ => before
  }

  /** The errors of a run, record after record. */
  lemma {:induction false} AllErrorsAre(a: seq<Event>, b: seq<Event>, e: Event)
    ensures AllErrors([e]) == if e.Record? && e.hit.isError && e.hit.host != "" then [e.hit.now] else []
    ensures AllErrors(a + b) == AllErrors(a) + AllErrors(b)
    decreases |b|
  {
    assert [e][..0] == [];
    if b == [] {
      assert a + b == a;
    } else {
      AllErrorsAre(a, b[..|b| - 1], e);
      assert (a + b)[..|a + b| - 1] == a + b[..|b| - 1];
    }
  }

  /** The greatest cutoff any RecentErrors call has used, if there was one. */
  function GreatestCut(run: seq<Event>): Option<Time> {
    if run == [] then None
    else
      var before := GreatestCut(run[..|run| - 1]);
      match run[|run| - 1]
      case RecentErrors(window, now) =>
        var cut := Cut(window, now);
        if before.None? || cut > before.value then Some(cut) else before
      case _ => before
  }

  /** The cutoff a call uses: its time less its window, or less five minutes. */
  predicate Cuts(e: Event, cut: Time) {
    e.RecentErrors? && cut == e.now - (if e.window > 0 then e.window else 300000)
  }

  /** It is one that was used, and none was greater. */
  lemma {:induction false} GreatestCutIs(run: seq<Event>, c: Time)
    ensures GreatestCut(run) == Some(c) <==>
      && (exists i :: 0 <= i < |run| && Cuts(run[i], c))
      && (forall i, d :: 0 <= i < |run| && Cuts(run[i], d) ==> d <= c)
    decreases |run|
  {
    CutWasUsed(run);
    CutIsGreatest(run);
    if i :| 0 <= i < |run| && Cuts(run[i], c) {
      var g := GreatestCut(run).value;
      var k :| 0 <= k < |run| && Cuts(run[k], g);
    }
  }

  lemma {:induction false} CutWasUsed(run: seq<Event>)
    ensures GreatestCut(run).Some? ==> exists i :: 0 <= i < |run| && Cuts(run[i], GreatestCut(run).value)
    decreases |run|
  {
    if run != [] && GreatestCut(run).Some? {
      var n, c := |run| - 1, GreatestCut(run).value;
      CutWasUsed(run[..n]);
      if Cuts(run[n], c) {
      } else {
        var i :| 0 <= i < n && Cuts(run[..n][i], c);
        assert Cuts(run[i], c);
      }
    }
  }

  lemma {:induction false} CutIsGreatest(run: seq<Event>)
    ensures forall i, d :: 0 <= i < |run| && Cuts(run[i], d) ==> GreatestCut(run).Some? && d <= GreatestCut(run).value
    decreases |run|
  {
    if run != [] {
      var n := |run| - 1;
      CutIsGreatest(run[..n]);
      forall i, d | 0 <= i < |run| && Cuts(run[i], d)
        ensures GreatestCut(run).Some? && d <= GreatestCut(run).value
      {
        assert i < n ==> Cuts(run[..n][i], d);
      }
    }
  }

  function TimeOf(e: Event): Time {
    match e
    case Record(hit) => hit.now
    case Snapshot(_, now) => now
    case RecentErrors(_, now) => now
  }

  ghost predicate Monotone(run: seq<Event>) {
    forall i, j :: 0 <= i < j < |run| ==> TimeOf(run[i]) <= TimeOf(run[j])
  }

  /** Every error is recorded with a time later than every cutoff used before. The
      code reads the clock before it takes the lock, so this is all it needs. */
  ghost predicate Timely(run: seq<Event>) {
    run == [] ||
    (Timely(run[..|run| - 1]) &&
     (run[|run| - 1].Record? && run[|run| - 1].hit.isError && GreatestCut(run[..|run| - 1]).Some? ==>
        run[|run| - 1].hit.now > GreatestCut(run[..|run| - 1]).value))
  }

  lemma {:induction false} CutBeforeNow(run: seq<Event>, now: Time)
    requires forall i :: 0 <= i < |run| ==> TimeOf(run[i]) <= now
    ensures GreatestCut(run).Some? ==> GreatestCut(run).value < now
    decreases |run|
  {
    if run != [] {
      assert TimeOf(run[|run| - 1]) <= now;
      CutBeforeNow(run[..|run| - 1], now);
    }
  }

  lemma {:induction false} MonotoneIsTimely(run: seq<Event>)
    requires Monotone(run)
    ensures Timely(run)
    decreases |run|
  {
    if run != [] {
      var init := run[..|run| - 1];
      MonotoneIsTimely(init);
      CutBeforeNow(init, TimeOf(run[|run| - 1]));
    }
  }

  function Kept(times: seq<Time>, cut: Option<Time>): seq<Time> {
    if cut.None? then times else Later(times, cut.value)
  }

  lemma {:induction false} LaterTwice(times: seq<Time>, a: Time, b: Time)
    ensures Later(Later(times, a), b) == Later(times, if a > b then a else b)
    decreases |times|
  {
    if times != [] {
      var init, t := times[..|times| - 1], times[|times| - 1];
      LaterTwice(init, a, b);
      LaterSnoc(Later(init, a), t, b);
    }
  }

  lemma LaterSnoc(times: seq<Time>, t: Time, cut: Time)
    ensures Later(times + [t], cut) == if t > cut then Later(times, cut) + [t] else Later(times, cut)
  {
    assert (times + [t])[..|times|] == times;
  }

  lemma KeptSnoc(times: seq<Time>, cut: Option<Time>, t: Time)
    requires cut.Some? ==> t > cut.value
    ensures Kept(times + [t], cut) == Kept(times, cut) + [t]
  {
    if cut.Some? {
      LaterSnoc(times, t, cut.value);
    }
  }

  lemma KeptCut(times: seq<Time>, cut: Option<Time>, next: Time)
    ensures Later(Kept(times, cut), next)
         == Kept(times, if cut.None? || next > cut.value then Some(next) else cut)
  {
    if cut.Some? {
      LaterTwice(times, cut.value, next);
    }
  }

  /** The filtered list is, in order, exactly the recorded errors later than the
      greatest cutoff used so far. */
  lemma {:induction false} ErrorsAreHistory(run: seq<Event>)
    requires Timely(run)
    ensures Exec(run).errors == Kept(AllErrors(run), GreatestCut(run))
    decreases |run|
  {
    if run != [] {
      var init := run[..|run| - 1];
      ErrorsAreHistory(init);
      match run[|run| - 1]
      case Record(hit) =>
        if hit.isError {
          KeptSnoc(AllErrors(init), GreatestCut(init), hit.now);
        }
      case Snapshot(_, _) =>
      case RecentErrors(window, now) =>
        KeptCut(AllErrors(init), GreatestCut(init), Cut(window, now));
    }
  }

  ghost predicate ConstantWindow(run: seq<Event>, window: int) {
    forall i :: 0 <= i < |run| && run[i].RecentErrors? ==> Window(run[i].window) == Window(window)
  }

  lemma {:induction false} CutsGrow(run: seq<Event>, window: int, now: Time)
    requires ConstantWindow(run, window) && forall i :: 0 <= i < |run| ==> TimeOf(run[i]) <= now
    ensures GreatestCut(run).Some? ==> GreatestCut(run).value <= Cut(window, now)
    decreases |run|
  {
    if run != [] {
      var e := run[|run| - 1];
      assert TimeOf(e) <= now;
      assert e.RecentErrors? ==> Window(e.window) == Window(window);
      CutsGrow(run[..|run| - 1], window, now);
    }
  }

  /** With a monotone clock and a constant window a call returns exactly the number
      of recorded errors inside the window. */
  lemma {:induction false} RecentErrorsCounts(run: seq<Event>, window: int, now: Time)
    requires Monotone(run + [RecentErrors(window, now)])
    requires ConstantWindow(run, window)
    ensures Exec(run + [RecentErrors(window, now)]).errors
         == Later(AllErrors(run), now - (if window > 0 then window else 300000))
  {
    var full := run + [RecentErrors(window, now)];
    assert full[..|run|] == run;
    forall i | 0 <= i < |run| ensures TimeOf(run[i]) <= now {
      assert full[i] == run[i] && TimeOf(full[i]) <= TimeOf(full[|run|]);
    }
    MonotoneIsTimely(full);
    ErrorsAreHistory(full);
    CutsGrow(run, window, now);
  }
}
