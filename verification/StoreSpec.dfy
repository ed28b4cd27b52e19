/** The database of store.go as three tables and one counter, the operations that
    change them, and what holds over any run of those operations: tunnels and rules
    stay in bijection, a rule is the history of its updates, and request logs are
    bounded. */
module StoreSpec {
  import opened Text
  import opened AccessRules

  const LOG_LIMIT: nat := 10000
  const ENFORCE_EVERY: nat := 100

  datatype Tunnel = Tunnel(name: string, hostname: string)

  /** A stored timestamp, as the key the database orders by. */
  type Stamp = int

  datatype Log = Log(tunnelId: int, stamp: Stamp)
  type Logs = map<nat, Log>

  datatype State = State(tunnels: map<int, Tunnel>, lastId: int, rules: map<int, Rule>,
                         logs: Logs, lastLog: nat, hits: nat)

  /** keep is the choice ORDER BY timestamp DESC LIMIT makes among equal stamps. */
  datatype Event =
    | Create(name: string, hostname: string)
    | Update(tunnelId: int, input: Input)
    | Delete(name: string)
    | Insert(tunnelId: int, hostname: string, stamp: Stamp, cutoff: Stamp, keep: set<nat>)

  function Empty(): State {
    State(map[], 0, map[], map[], 0, 0)
  }

  // ---------------------------------------------------------------- the operations

  predicate Free(tunnels: map<int, Tunnel>, name: string, hostname: string) {
    forall id :: id in tunnels ==> tunnels[id].name != name && tunnels[id].hostname != hostname
  }

  /** The rows that the lookup by name or hostname may return. */
  ghost function NamedOrHosted(tunnels: map<int, Tunnel>, name: string, hostname: string): set<int> {
    set id | id in tunnels && (tunnels[id].name == name || tunnels[id].hostname == hostname)
  }

  ghost function AfterCreate(s: State, name: string, hostname: string): State {
    if !Free(s.tunnels, name, hostname) then s
    else
      var id := s.lastId + 1;
      s.(tunnels := s.tunnels[id := Tunnel(name, hostname)], lastId := id, rules := s.rules[id := INITIAL])
  }

  ghost function ExistingRule(rules: map<int, Rule>, id: int): Option<Rule> {
    if id in rules then Some(rules[id]) else None
  }

  /** A rule for a missing tunnel breaks the foreign key, so nothing changes. */
  ghost function AfterUpdate(o: Oracle, s: State, id: int, input: Input): State {
    var merged := Merged(o, input, ExistingRule(s.rules, id));
    if merged.Some? && id in s.tunnels then s.(rules := s.rules[id := merged.value]) else s
  }

  /** The delete cascades to the rules and logs of the tunnel. */
  ghost function AfterDelete(s: State, name: string): State {
    var left := map id | id in s.tunnels && s.tunnels[id].name != name :: s.tunnels[id];
    s.(tunnels := left,
       rules := map id | id in s.rules && id in left :: s.rules[id],
       logs := map row | row in s.logs && s.logs[row].tunnelId in left :: s.logs[row])
  }

  /** The tunnel a log record is filed under, if any. */
  ghost function Target(tunnels: map<int, Tunnel>, tunnelId: int, hostname: string): Option<int> {
    if tunnelId != 0 then (if tunnelId in tunnels then Some(tunnelId) else None)
    else if exists id :: id in tunnels && tunnels[id].hostname == hostname
    then (var id :| id in tunnels && tunnels[id].hostname == hostname; Some(id))
    else None
  }

  ghost function RowsOf(logs: Logs, t: int): set<nat> {
    set row | row in logs && logs[row].tunnelId == t
  }

  ghost function RecentOf(logs: Logs, t: int, cutoff: Stamp): set<nat> {
    set row | row in logs && logs[row].tunnelId == t && logs[row].stamp >= cutoff
  }

  /** keep holds the limit newest of the rows, or all when there are fewer. */
  ghost predicate Newest(logs: Logs, rows: set<nat>, keep: set<nat>, limit: nat)
    requires rows <= logs.Keys
  {
    && keep <= rows
    && |keep| == (if |rows| < limit then |rows| else limit)
    && forall row, kept :: row in rows && row !in keep && kept in keep ==> logs[row].stamp <= logs[kept].stamp
  }

  ghost function Enforced(logs: Logs, t: int, cutoff: Stamp, keep: set<nat>): Logs {
    map row | row in logs && (logs[row].tunnelId != t || (logs[row].stamp >= cutoff && row in keep)) :: logs[row]
  }

  predicate Enforces(hits: nat) {
    (hits + 1) % ENFORCE_EVERY == 0
  }

  ghost function AfterInsert(s: State, e: Event): State
    requires e.Insert?
  {
    match Target(s.tunnels, e.tunnelId, e.hostname)
    case None => s
    case Some(t) =>
      var row := s.lastLog + 1;
      var logs := s.logs[row := Log(t, e.stamp)];
      s.(logs := if Enforces(s.hits) then Enforced(logs, t, e.cutoff, e.keep) else logs,
         lastLog := row, hits := s.hits + 1)
  }

  ghost function Apply(o: Oracle, s: State, e: Event): State {
    match e
    case Create(name, hostname) => AfterCreate(s, name, hostname)
    case Update(id, input) => AfterUpdate(o, s, id, input)
    case Delete(name) => AfterDelete(s, name)
    case Insert(_, _, _, _, _) => AfterInsert(s, e)
  }

  /** The choice of an enforcing insert is one that LIMIT can make. */
  ghost predicate Chosen(s: State, e: Event) {
    e.Insert? && Enforces(s.hits) ==>
      match Target(s.tunnels, e.tunnelId, e.hostname)
      case None => true
      case Some(t) =>
        var logs := s.logs[s.lastLog + 1 := Log(t, e.stamp)];
        Newest(logs, RecentOf(logs, t, e.cutoff), e.keep, LOG_LIMIT)
  }

  ghost function Exec(o: Oracle, run: seq<Event>): State {
    if run == [] then Empty() else Apply(o, Exec(o, run[..|run| - 1]), run[|run| - 1])
  }

  ghost predicate Legal(o: Oracle, run: seq<Event>) {
    run == [] || (Legal(o, run[..|run| - 1]) && Chosen(Exec(o, run[..|run| - 1]), run[|run| - 1]))
  }

  // ---------------------------------------------------------------- tunnels and rules

  /** Every tunnel has one rule and every rule a tunnel; ids are below the counter;
      names and hostnames are unique; every log belongs to a tunnel. */
  ghost predicate Ok(s: State) {
    && s.rules.Keys == s.tunnels.Keys
    && s.lastId >= 0
    && (forall id :: id in s.tunnels ==> 0 < id <= s.lastId)
    && (forall a, b :: a in s.tunnels && b in s.tunnels && a != b ==>
          s.tunnels[a].name != s.tunnels[b].name && s.tunnels[a].hostname != s.tunnels[b].hostname)
    && (forall row :: row in s.logs ==> row <= s.lastLog && s.logs[row].tunnelId in s.tunnels)
  }

  lemma CreateKeeps(s: State, name: string, hostname: string)
    requires Ok(s)
    ensures Ok(AfterCreate(s, name, hostname))
  {}

  lemma UpdateKeeps(o: Oracle, s: State, id: int, input: Input)
    requires Ok(s)
    ensures Ok(AfterUpdate(o, s, id, input))
  {
    assert id in s.tunnels <==> id in s.rules.Keys;
  }

  lemma DeleteKeeps(s: State, name: string)
    requires Ok(s)
    ensures Ok(AfterDelete(s, name))
  {
    var n := AfterDelete(s, name);
    forall id ensures id in n.rules <==> id in n.tunnels {
      assert id in s.rules.Keys <==> id in s.tunnels.Keys;
    }
  }

  lemma InsertKeeps(s: State, e: Event)
    requires Ok(s) && e.Insert?
    ensures Ok(AfterInsert(s, e))
  {}

  /** The bijection holds over any run. */
  lemma {:induction false} Bijection(o: Oracle, run: seq<Event>)
    ensures Ok(Exec(o, run))
    decreases |run|
  {
    if run != [] {
      var init := run[..|run| - 1];
      Bijection(o, init);
      match run[|run| - 1]
      case Create(name, hostname) => CreateKeeps(Exec(o, init), name, hostname);
      case Update(id, input) => UpdateKeeps(o, Exec(o, init), id, input);
      case Delete(name) => DeleteKeeps(Exec(o, init), name);
      case Insert(_, _, _, _, _) => InsertKeeps(Exec(o, init), run[|run| - 1]);
    }
  }

  /** A creation adds its tunnel, with the public rule, under an id that was never given
      out, unless some tunnel has its name or its hostname; then it changes nothing. */
  lemma CreateAdds(s: State, name: string, hostname: string)
    requires Ok(s)
    ensures var n := AfterCreate(s, name, hostname); var id := n.lastId;
      if exists other :: other in s.tunnels && (s.tunnels[other].name == name || s.tunnels[other].hostname == hostname)
      then n == s
      else s.lastId < id && n.tunnels == s.tunnels[id := Tunnel(name, hostname)]
           && n.rules == s.rules[id := Rule("public", "", "", "", "", [])] && n.logs == s.logs && n.hits == s.hits
  {}

  /** A deletion removes exactly the tunnel of that name, with its rule and its logs:
      every other tunnel keeps its name, hostname, rule and rows. */
  lemma DeleteRemoves(s: State, name: string)
    requires Ok(s)
    ensures var n := AfterDelete(s, name);
      && (forall id :: id in n.tunnels ==> n.tunnels[id].name != name)
      && (forall id :: id in s.tunnels && s.tunnels[id].name != name ==>
            && id in n.tunnels && n.tunnels[id] == s.tunnels[id]
            && id in n.rules && n.rules[id] == s.rules[id]
            && RowsOf(n.logs, id) == RowsOf(s.logs, id))
      && (forall id :: id in n.tunnels ==> id in s.tunnels)
      && (forall id :: id in s.tunnels && s.tunnels[id].name == name ==> id !in n.rules && RowsOf(n.logs, id) == {})
      && (forall row :: row in n.logs ==> row in s.logs && n.logs[row] == s.logs[row])
      && n.lastId == s.lastId && n.hits == s.hits
  {
    forall id ensures id in s.rules <==> id in s.tunnels {
      assert id in s.rules.Keys <==> id in s.tunnels.Keys;
    }
  }

  /** What one event makes of which tunnels are live. */
  lemma LiveStep(o: Oracle, s: State, e: Event, id: int)
    requires Ok(s)
    ensures var n := Apply(o, s, e);
      && (id in n.tunnels <==>
            || (id in s.tunnels && !(e.Delete? && e.name == s.tunnels[id].name))
            || GivesOut(s, e, id))
      && (id in n.tunnels ==>
            n.tunnels[id] == if id in s.tunnels then s.tunnels[id] else Tunnel(e.name, e.hostname))
      && !(id in s.tunnels && GivesOut(s, e, id))
  {
    match e
    case Create(name, hostname) => CreateAdds(s, name, hostname);
    case Update(_, _) =>
    case Delete(name) => DeleteRemoves(s, name);
    case Insert(_, _, _, _, _) =>
  }

  /** The event creates a tunnel whose name and hostname nobody has, and gives it this
      id. */
  ghost predicate GivesOut(s: State, e: Event, id: int) {
    && e.Create? && id == s.lastId + 1
    && forall other :: other in s.tunnels ==>
         s.tunnels[other].name != e.name && s.tunnels[other].hostname != e.hostname
  }

  /** The i-th event gave the id out, and no later one deletes the tunnel it named. */
  ghost predicate LiveFrom(o: Oracle, run: seq<Event>, i: nat, id: int)
    requires i < |run|
  {
    GivesOut(Exec(o, run[..i]), run[i], id)
    && forall j :: i < j < |run| && run[j].Delete? ==> run[j].name != run[i].name
  }

  /** Over any run, an id is live exactly when a creation gave it out and no later
      deletion names its tunnel; and it has that creation's name and hostname. */
  lemma {:induction false} LiveWhen(o: Oracle, run: seq<Event>, id: int)
    ensures id in Exec(o, run).tunnels <==> exists i :: 0 <= i < |run| && LiveFrom(o, run, i, id)
    ensures forall i :: 0 <= i < |run| && LiveFrom(o, run, i, id) ==>
      id in Exec(o, run).tunnels && Exec(o, run).tunnels[id] == Tunnel(run[i].name, run[i].hostname)
  {
    if id in Exec(o, run).tunnels {
      var i := LiveWasCreated(o, run, id);
    }
    forall i | 0 <= i < |run| && LiveFrom(o, run, i, id)
      ensures id in Exec(o, run).tunnels && Exec(o, run).tunnels[id] == Tunnel(run[i].name, run[i].hostname)
    {
      CreatedIsLive(o, run, i, id);
    }
  }

  lemma {:induction false} LiveWasCreated(o: Oracle, run: seq<Event>, id: int) returns (i: nat)
    requires id in Exec(o, run).tunnels
    ensures i < |run| && LiveFrom(o, run, i, id)
    ensures Exec(o, run).tunnels[id] == Tunnel(run[i].name, run[i].hostname)
    decreases |run|
  {
    var init, e := run[..|run| - 1], run[|run| - 1];
    Bijection(o, init);
    LiveStep(o, Exec(o, init), e, id);
    if id in Exec(o, init).tunnels {
      i := LiveWasCreated(o, init, id);
      StaysLive(o, run, i, id);
    } else {
      i := |init|;
    }
  }

  lemma {:induction false} StaysLive(o: Oracle, run: seq<Event>, i: nat, id: int)
    requires i < |run| - 1 && LiveFrom(o, run[..|run| - 1], i, id)
    requires run[|run| - 1].Delete? ==> run[|run| - 1].name != run[i].name
    ensures LiveFrom(o, run, i, id)
  {
    var init := run[..|run| - 1];
    assert init[..i] == run[..i];
    assert forall j :: i < j < |init| ==> run[j] == init[j];
  }

  lemma {:induction false} CreatedIsLive(o: Oracle, run: seq<Event>, i: nat, id: int)
    requires i < |run| && LiveFrom(o, run, i, id)
    ensures id in Exec(o, run).tunnels && Exec(o, run).tunnels[id] == Tunnel(run[i].name, run[i].hostname)
    decreases |run|
  {
    var init, e := run[..|run| - 1], run[|run| - 1];
    Bijection(o, init);
    LiveStep(o, Exec(o, init), e, id);
    if i < |init| {
      assert init[..i] == run[..i];
      assert forall j :: i < j < |init| ==> run[j] == init[j];
      CreatedIsLive(o, init, i, id);
    }
  }

  /** A record is filed under the tunnel it names, or under the one with its hostname
      when it names none; and nothing happens when there is none. */
  ghost predicate Files(s: State, e: Event, t: int) {
    e.Insert? && t in s.tunnels && (if e.tunnelId != 0 then t == e.tunnelId else s.tunnels[t].hostname == e.hostname)
  }

  lemma InsertFiles(s: State, e: Event)
    requires Ok(s) && e.Insert?
    ensures (forall t :: !Files(s, e, t)) ==> AfterInsert(s, e) == s
    ensures forall t :: Files(s, e, t) ==>
      var n := AfterInsert(s, e);
      && n.tunnels == s.tunnels && n.rules == s.rules && n.hits == s.hits + 1 && n.lastLog !in s.logs
      && var all := s.logs[n.lastLog := Log(t, e.stamp)];
         n.logs == if n.hits % 100 == 0 then Enforced(all, t, e.cutoff, e.keep) else all
  {
    forall t | Files(s, e, t) ensures Target(s.tunnels, e.tunnelId, e.hostname) == Some(t) {
      TargetIs(s, t);
    }
    if Target(s.tunnels, e.tunnelId, e.hostname).Some? {
      assert Files(s, e, Target(s.tunnels, e.tunnelId, e.hostname).value);
    }
  }

  /** An id that has left the table never comes back: over two moments of a run, one
      given out by the first and gone at the first is gone at the second. */
  lemma {:induction false} IdsNeverReused(o: Oracle, run: seq<Event>, n: nat, id: int)
    requires n <= |run| && id <= Exec(o, run[..n]).lastId && id !in Exec(o, run[..n]).tunnels
    ensures id <= Exec(o, run).lastId && id !in Exec(o, run).tunnels
    decreases |run|
  {
    if n < |run| {
      var init := run[..|run| - 1];
      assert init[..n] == run[..n];
      IdsNeverReused(o, init, n, id);
      GoneStaysGone(o, Exec(o, init), run[|run| - 1], id);
    } else {
      assert run[..n] == run;
    }
  }

  lemma GoneStaysGone(o: Oracle, s: State, e: Event, id: int)
    requires id <= s.lastId && id !in s.tunnels
    ensures id <= Apply(o, s, e).lastId && id !in Apply(o, s, e).tunnels
  {
    match e
    case Create(_, _) =>
    case Update(_, _) =>
    case Delete(_) =>
    case Insert(_, _, _, _, _) =>
  }

  /** So no two tunnels of a run share an id: whoever has it at two moments has it at
      every moment in between, and with one name and hostname. */
  lemma {:induction false} OneTunnelPerId(o: Oracle, run: seq<Event>, n: nat, id: int)
    requires n <= |run| && id in Exec(o, run[..n]).tunnels && id in Exec(o, run).tunnels
    ensures forall m :: n <= m <= |run| ==>
      id in Exec(o, run[..m]).tunnels && Exec(o, run[..m]).tunnels[id] == Exec(o, run[..n]).tunnels[id]
    decreases |run|
  {
    if n < |run| {
      var init, e := run[..|run| - 1], run[|run| - 1];
      Bijection(o, run[..n]);
      LastIdNeverFalls(o, init, n);
      assert init[..n] == run[..n];
      SameTunnel(o, Exec(o, init), e, id);
      OneTunnelPerId(o, init, n, id);
      forall m | n <= m <= |run|
        ensures id in Exec(o, run[..m]).tunnels && Exec(o, run[..m]).tunnels[id] == Exec(o, run[..n]).tunnels[id]
      {
        if m < |run| {
          assert init[..m] == run[..m];
        } else {
          assert run[..m] == run && init[..|init|] == init;
        }
      }
    } else {
      assert run[..n] == run;
    }
  }

  lemma SameTunnel(o: Oracle, s: State, e: Event, id: int)
    requires id <= s.lastId && id in Apply(o, s, e).tunnels
    ensures id in s.tunnels && s.tunnels[id] == Apply(o, s, e).tunnels[id]
  {
    match e
    case Create(_, _) =>
    case Update(_, _) =>
    case Delete(_) =>
    case Insert(_, _, _, _, _) =>
  }

  lemma {:induction false} LastIdNeverFalls(o: Oracle, run: seq<Event>, n: nat)
    requires n <= |run|
    ensures Exec(o, run[..n]).lastId <= Exec(o, run).lastId
    decreases |run|
  {
    if n < |run| {
      var init := run[..|run| - 1];
      assert init[..n] == run[..n];
      LastIdNeverFalls(o, init, n);
      LastIdGrows(o, Exec(o, init), run[|run| - 1]);
    } else {
      assert run[..n] == run;
    }
  }

  /** Once a row with a free name and hostname is inserted, the lookup by name or
      hostname finds that row and no other. */
  lemma LookupFindsInserted(s: State, name: string, hostname: string)
    requires Ok(s) && Free(s.tunnels, name, hostname)
    ensures NamedOrHosted(s.tunnels[s.lastId + 1 := Tunnel(name, hostname)], name, hostname) == {s.lastId + 1}
  {
    forall id | id in s.tunnels
      ensures s.tunnels[id].name != name && s.tunnels[id].hostname != hostname && id != s.lastId + 1
    {
      assert id <= s.lastId;
    }
  }

  /** The hostname lookup of the log and of the gate has at most one answer. */
  lemma TargetIs(s: State, id: int)
    requires Ok(s) && id in s.tunnels
    ensures Target(s.tunnels, 0, s.tunnels[id].hostname) == Some(id) == Target(s.tunnels, id, s.tunnels[id].hostname)
  {}

  /** No tunnel has the hostname. */
  predicate Unhosted(tunnels: map<int, Tunnel>, hostname: string) {
    forall id :: id in tunnels ==> tunnels[id].hostname != hostname
  }

  lemma NoTarget(tunnels: map<int, Tunnel>, hostname: string)
    requires Unhosted(tunnels, hostname)
    ensures Target(tunnels, 0, hostname) == None
  {}

  /** The updates addressed to a live tunnel since it was created. */
  ghost function History(o: Oracle, run: seq<Event>, id: int): seq<Input> {
    if run == [] then []
    else
      var init := run[..|run| - 1];
      var e := run[|run| - 1];
      if e.Update? && e.tunnelId == id && id in Exec(o, init).tunnels then History(o, init, id) + [e.input]
      else History(o, init, id)
  }

  lemma {:induction false} NoHistory(o: Oracle, run: seq<Event>, id: int)
    requires id > Exec(o, run).lastId
    ensures History(o, run, id) == []
    decreases |run|
  {
    Bijection(o, run);
    if run != [] {
      var init := run[..|run| - 1];
      Bijection(o, init);
      assert Exec(o, init).lastId <= Exec(o, run).lastId by {
        match run[|run| - 1]
        case Create(name, hostname) =>
        case Update(_, _) =>
        case Delete(name) =>
        case Insert(_, _, _, _, _) =>
      }
      NoHistory(o, init, id);
    }
  }

  /** The rule of a live tunnel is what the updates addressed to it make of the
      public rule it was created with, whatever happens to other tunnels. */
  lemma {:induction false} RuleIsHistory(o: Oracle, run: seq<Event>, id: int)
    requires id in Exec(o, run).tunnels
    ensures id in Exec(o, run).rules && Exec(o, run).rules[id] == RuleAfter(o, History(o, run, id))
    decreases |run|
  {
    if run != [] {
      var init := run[..|run| - 1];
      var s := Exec(o, init);
      Bijection(o, init);
      RuleStep(o, s, run[|run| - 1], id);
      if id in s.tunnels {
        RuleIsHistory(o, init, id);
        var before := History(o, init, id);
        assert forall input :: (before + [input])[..|before|] == before;
      } else {
        NoHistory(o, init, id);
      }
    }
  }

  lemma RuleStep(o: Oracle, s: State, e: Event, id: int)
    requires Ok(s) && id in Apply(o, s, e).tunnels
    ensures id in Apply(o, s, e).rules
    ensures if id in s.tunnels
            then Apply(o, s, e).rules[id] ==
                   (if e.Update? && e.tunnelId == id && Merged(o, e.input, Some(s.rules[id])).Some?
                    then Merged(o, e.input, Some(s.rules[id])).value else s.rules[id])
            else id == s.lastId + 1 && e.Create? && Apply(o, s, e).rules[id] == INITIAL
  {
    match e
    case Create(name, hostname) =>
    case Update(_, input) =>
    case Delete(name) =>
    case Insert(_, _, _, _, _) =>
  }

  // ---------------------------------------------------------------- log retention

  /** The inserts filed under a tunnel since its logs were last enforced. */
  ghost function Since(o: Oracle, run: seq<Event>, t: int): nat {
    if run == [] then 0
    else
      var init := run[..|run| - 1];
      var e := run[|run| - 1];
      var s := Exec(o, init);
      if e.Insert? && Target(s.tunnels, e.tunnelId, e.hostname) == Some(t)
      then (if Enforces(s.hits) then 0 else Since(o, init, t) + 1)
      else Since(o, init, t)
  }

  lemma SubsetSize<T>(a: set<T>, b: set<T>)
    requires a <= b
    ensures |a| <= |b|
  {
    assert b == a + (b - a);
  }

  /** What enforcement does: it keeps the newest rows of the tunnel in stored-key
      order, at most the limit, and leaves every other tunnel alone. */
  lemma EnforcementKeepsNewest(logs: Logs, t: int, cutoff: Stamp, keep: set<nat>)
    requires Newest(logs, RecentOf(logs, t, cutoff), keep, LOG_LIMIT)
    ensures var left := Enforced(logs, t, cutoff, keep);
      && RowsOf(left, t) == keep
      && |keep| <= 10000
      && (forall row :: row in RowsOf(left, t) ==> row in RowsOf(logs, t) && left[row].stamp >= cutoff)
      && (forall other :: other != t ==> RowsOf(left, other) == RowsOf(logs, other))
      && (forall row :: row in left ==> row in logs && left[row] == logs[row])
      && (forall row, kept :: row in RowsOf(logs, t) && row !in left && kept in RowsOf(left, t) ==>
            logs[row].stamp <= logs[kept].stamp)
      && (forall row :: row in RowsOf(logs, t) && row !in left ==>
            logs[row].stamp < cutoff || |RowsOf(left, t)| == 10000)
  {
    var left := Enforced(logs, t, cutoff, keep);
    var recent := RecentOf(logs, t, cutoff);
    forall row | row in RowsOf(logs, t) && row !in left
      ensures logs[row].stamp < cutoff || |keep| == LOG_LIMIT
    {
      if logs[row].stamp >= cutoff && |keep| != LOG_LIMIT {
        SameSize(keep, recent);
        assert false;
      }
    }
    assert RowsOf(left, t) == keep;
  }

  lemma SameSize<T>(a: set<T>, b: set<T>)
    requires a <= b && |a| == |b|
    ensures a == b
  {
    if x :| x in b && x !in a {
      SubsetSize(a, b - {x});
    }
  }

  /** The rows its last enforcement left a tunnel: those unexpired, up to the limit; 0
      if there was none. */
  ghost function Base(o: Oracle, run: seq<Event>, t: int): nat {
    if run == [] then 0
    else
      var init, e := run[..|run| - 1], run[|run| - 1];
      var s := Exec(o, init);
      if e.Insert? && Target(s.tunnels, e.tunnelId, e.hostname) == Some(t) && Enforces(s.hits)
      then LeftBy(s, e, t)
      else Base(o, init, t)
  }

  /** The rows that an insert which enforces leaves its tunnel. */
  ghost function LeftBy(s: State, e: Event, t: int): nat
    requires e.Insert?
  {
    UpToLimit(|RecentOf(s.logs[s.lastLog + 1 := Log(t, e.stamp)], t, e.cutoff)|)
  }

  function UpToLimit(n: nat): nat {
    if n < LOG_LIMIT then n else LOG_LIMIT
  }

  /** A live tunnel has exactly the rows its last enforcement left and the inserts
      since. */
  lemma {:induction false} RetentionExact(o: Oracle, run: seq<Event>, t: int)
    requires Legal(o, run) && t in Exec(o, run).tunnels
    ensures |RowsOf(Exec(o, run).logs, t)| == Base(o, run, t) + Since(o, run, t)
    ensures Base(o, run, t) <= 10000
    decreases |run|
  {
    var init, s, e := run[..|run| - 1], Exec(o, run[..|run| - 1]), run[|run| - 1];
    Bijection(o, init);
    if t in s.tunnels {
      RetentionExact(o, init, t);
      RowsStep(o, s, e, t);
    } else {
      NewTunnel(o, s, e, t);
      NothingFiled(o, init, t);
    }
  }

  /** What one event does to the rows of a tunnel that survives it. */
  lemma RowsStep(o: Oracle, s: State, e: Event, t: int)
    requires Ok(s) && Chosen(s, e) && t in s.tunnels && t in Apply(o, s, e).tunnels
    ensures var rows := |RowsOf(Apply(o, s, e).logs, t)|;
      if e.Insert? && Target(s.tunnels, e.tunnelId, e.hostname) == Some(t)
      then (if Enforces(s.hits) then rows == LeftBy(s, e, t)
            else rows == |RowsOf(s.logs, t)| + 1)
      else rows == |RowsOf(s.logs, t)|
  {
    match e
    case Create(_, _) =>
    case Update(_, _) =>
    case Delete(name) => assert RowsOf(AfterDelete(s, name).logs, t) == RowsOf(s.logs, t);
    case Insert(_, _, _, _, _) => InsertRows(s, e, t);
  }

  lemma InsertRows(s: State, e: Event, t: int)
    requires Ok(s) && e.Insert? && Chosen(s, e)
    ensures var rows := |RowsOf(AfterInsert(s, e).logs, t)|;
      if Target(s.tunnels, e.tunnelId, e.hostname) == Some(t)
      then (if Enforces(s.hits) then rows == LeftBy(s, e, t)
            else rows == |RowsOf(s.logs, t)| + 1)
      else rows == |RowsOf(s.logs, t)|
  {
    var target := Target(s.tunnels, e.tunnelId, e.hostname);
    if target.Some? && target.value != t {
      RowsElsewhere(s, e, target.value, t);
    } else if target.Some? && Enforces(s.hits) {
      RowsEnforced(s, e, t);
    } else if target.Some? {
      RowsHere(s, e, t);
    }
  }

  lemma RowsEnforced(s: State, e: Event, t: int)
    requires e.Insert? && Chosen(s, e) && Target(s.tunnels, e.tunnelId, e.hostname) == Some(t) && Enforces(s.hits)
    ensures |RowsOf(AfterInsert(s, e).logs, t)| == LeftBy(s, e, t)
  {
    EnforcementKeepsNewest(s.logs[s.lastLog + 1 := Log(t, e.stamp)], t, e.cutoff, e.keep);
  }

  lemma NewTunnel(o: Oracle, s: State, e: Event, t: int)
    requires Ok(s) && t !in s.tunnels && t in Apply(o, s, e).tunnels
    ensures e.Create? && t == s.lastId + 1 && RowsOf(Apply(o, s, e).logs, t) == {}
  {
    match e
    case Create(_, _) =>
    case Update(_, _) =>
    case Delete(_) =>
    case Insert(_, _, _, _, _) =>
  }

  /** Nothing was ever filed under an id that is not given out yet. */
  lemma {:induction false} NothingFiled(o: Oracle, run: seq<Event>, t: int)
    requires t > Exec(o, run).lastId
    ensures Base(o, run, t) == 0 && Since(o, run, t) == 0
    decreases |run|
  {
    if run != [] {
      var init := run[..|run| - 1];
      Bijection(o, init);
      LastIdGrows(o, Exec(o, init), run[|run| - 1]);
      NothingFiled(o, init, t);
    }
  }

  lemma LastIdGrows(o: Oracle, s: State, e: Event)
    ensures Apply(o, s, e).lastId >= s.lastId
  {
    match e
    case Create(_, _) =>
    case Update(_, _) =>
    case Delete(_) =>
    case Insert(_, _, _, _, _) =>
  }

  /** So a live tunnel exceeds a bound exactly when it has had more inserts since its
      last enforcement than that enforcement left room for; above 10099 that takes a
      hundred of them without its turn. */
  lemma {:induction false} ExceedsWhen(o: Oracle, run: seq<Event>, t: int, bound: nat)
    requires Legal(o, run) && t in Exec(o, run).tunnels
    ensures |RowsOf(Exec(o, run).logs, t)| > bound <==> Since(o, run, t) > bound - Base(o, run, t)
    ensures bound >= 10099 && |RowsOf(Exec(o, run).logs, t)| > bound ==> Since(o, run, t) >= 100
  {
    RetentionExact(o, run, t);
  }

  /** A tunnel never has more than the limit and the inserts since its logs were
      last enforced. */
  lemma {:induction false} RetentionBound(o: Oracle, run: seq<Event>, t: int)
    requires Legal(o, run)
    ensures |RowsOf(Exec(o, run).logs, t)| <= 10000 + Since(o, run, t)
  {
    Bijection(o, run);
    if t in Exec(o, run).tunnels {
      RetentionExact(o, run, t);
    } else {
      assert RowsOf(Exec(o, run).logs, t) == {};
    }
  }

  /** Every insert that is filed at all is filed under t. */
  ghost predicate OnlyTraffic(o: Oracle, run: seq<Event>, t: int) {
    run == [] ||
    var init, e := run[..|run| - 1], run[|run| - 1];
    && OnlyTraffic(o, init, t)
    && (e.Insert? ==>
          var target := Target(Exec(o, init).tunnels, e.tunnelId, e.hostname);
          target == None || target == Some(t))
  }

  lemma {:induction false} SinceIsHits(o: Oracle, run: seq<Event>, t: int)
    requires OnlyTraffic(o, run, t)
    ensures Since(o, run, t) == Exec(o, run).hits % 100
    decreases |run|
  {
    if run != [] {
      SinceIsHits(o, run[..|run| - 1], t);
      NextRemainder(Exec(o, run[..|run| - 1]).hits);
      match run[|run| - 1]
      case Create(_, _) =>
      case Update(_, _) =>
      case Delete(_) =>
      case Insert(_, _, _, _, _) =>
    }
  }

  lemma NextRemainder(n: nat)
    ensures (n + 1) % ENFORCE_EVERY == if Enforces(n) then 0 else n % ENFORCE_EVERY + 1
  {}

  /** One tunnel with all the traffic never has more than 10099 rows. */
  lemma {:induction false} SingleTunnelBound(o: Oracle, run: seq<Event>, t: int)
    requires Legal(o, run) && OnlyTraffic(o, run, t)
    ensures |RowsOf(Exec(o, run).logs, t)| <= 10099
  {
    RetentionBound(o, run, t);
    SinceIsHits(o, run, t);
  }

  lemma {:induction false} NewestExists(logs: Logs, rows: set<nat>, limit: nat) returns (keep: set<nat>)
    requires rows <= logs.Keys
    ensures Newest(logs, rows, keep, limit)
    decreases |rows|
  {
    if |rows| <= limit {
      keep := rows;
    } else {
      var oldest := Oldest(logs, rows);
      keep := NewestExists(logs, rows - {oldest}, limit);
    }
  }

  lemma {:induction false} Oldest(logs: Logs, rows: set<nat>) returns (oldest: nat)
    requires rows != {} && rows <= logs.Keys
    ensures oldest in rows && forall row :: row in rows ==> logs[oldest].stamp <= logs[row].stamp
    decreases |rows|
  {
    oldest :| oldest in rows;
    if rows != {oldest} {
      assert |rows - {oldest}| < |rows|;
      var other := Oldest(logs, rows - {oldest});
      if logs[other].stamp < logs[oldest].stamp {
        oldest := other;
      }
    }
  }

  /** Every record of the run is newer than the cutoff at its insert. */
  ghost predicate Unexpired(run: seq<Event>) {
    forall i :: 0 <= i < |run| && run[i].Insert? ==> run[i].cutoff < run[i].stamp
  }

  /** The run has two tunnels, n records and n - n / 100 rows of the first tunnel. */
  ghost predicate Evading(o: Oracle, run: seq<Event>, n: nat) {
    var s := Exec(o, run);
    && Legal(o, run) && 1 in s.tunnels && 2 in s.tunnels && s.hits == n
    && |RowsOf(s.logs, 1)| == n - n / 100
  }

  /** The limit is no bound on one tunnel when two share the counter: with every
      hundredth record going to the other tunnel, n unexpired records leave the first
      with n - n / 100 rows, for every n. */
  lemma {:induction false} SharedCounterEvades(o: Oracle, n: nat) returns (run: seq<Event>)
    ensures Unexpired(run) && Evading(o, run, n)
    decreases n
  {
    if n == 0 {
      run := TwoTunnels(o);
    } else {
      var init := SharedCounterEvades(o, n - 1);
      run := EvadeStep(o, init, n - 1);
    }
  }

  lemma EvadeStep(o: Oracle, init: seq<Event>, n: nat) returns (run: seq<Event>)
    requires Unexpired(init) && Evading(o, init, n)
    ensures Unexpired(run) && Evading(o, run, n + 1)
  {
    Bijection(o, init);
    var e := AlternateInsert(Exec(o, init));
    run := init + [e];
    ExecSnoc(o, init, e);
    NextQuotient(n);
    forall i | 0 <= i < |run| && run[i].Insert? ensures run[i].cutoff < run[i].stamp {
      assert i < |init| ==> run[i] == init[i];
    }
  }

  lemma {:induction false} ExecSnoc(o: Oracle, run: seq<Event>, e: Event)
    ensures Exec(o, run + [e]) == Apply(o, Exec(o, run), e)
    ensures Legal(o, run + [e]) <==> Legal(o, run) && Chosen(Exec(o, run), e)
  {
    assert (run + [e])[..|run|] == run;
  }

  lemma NextQuotient(n: nat)
    ensures (n + 1) / ENFORCE_EVERY == n / ENFORCE_EVERY + (if Enforces(n) then 1 else 0)
  {}

  lemma TwoTunnels(o: Oracle) returns (run: seq<Event>)
    ensures Unexpired(run) && Evading(o, run, 0)
  {
    var first := [Create("a", "a.example")];
    run := [Create("a", "a.example"), Create("b", "b.example")];
    assert first[..0] == [] && run[..1] == first;
    assert Exec(o, first) == State(map[1 := Tunnel("a", "a.example")], 1, map[1 := INITIAL], map[], 0, 0);
    assert RowsOf(Exec(o, run).logs, 1) == {};
  }

  lemma AlternateInsert(s: State) returns (e: Event)
    requires Ok(s) && 1 in s.tunnels && 2 in s.tunnels
    ensures e.Insert? && e.cutoff < e.stamp && Chosen(s, e)
    ensures var n := AfterInsert(s, e);
      n.tunnels == s.tunnels && n.hits == s.hits + 1
      && |RowsOf(n.logs, 1)| == |RowsOf(s.logs, 1)| + (if Enforces(s.hits) then 0 else 1)
  {
    if Enforces(s.hits) {
      var logs := s.logs[s.lastLog + 1 := Log(2, 1)];
      var keep := NewestExists(logs, RecentOf(logs, 2, 0), LOG_LIMIT);
      e := Insert(2, "", 1, 0, keep);
      RowsElsewhere(s, e, 2, 1);
    } else {
      e := Insert(1, "", 1, 0, {});
      RowsHere(s, e, 1);
    }
  }

  lemma RowsElsewhere(s: State, e: Event, t: int, other: int)
    requires Ok(s) && e.Insert? && Target(s.tunnels, e.tunnelId, e.hostname) == Some(t) && other != t
    ensures RowsOf(AfterInsert(s, e).logs, other) == RowsOf(s.logs, other)
  {
    assert s.lastLog + 1 !in s.logs;
  }

  lemma RowsHere(s: State, e: Event, t: int)
    requires Ok(s) && e.Insert? && Target(s.tunnels, e.tunnelId, e.hostname) == Some(t) && !Enforces(s.hits)
    ensures |RowsOf(AfterInsert(s, e).logs, t)| == |RowsOf(s.logs, t)| + 1
  {
    assert s.lastLog + 1 !in s.logs;
    assert RowsOf(AfterInsert(s, e).logs, t) == RowsOf(s.logs, t) + {s.lastLog + 1};
  }
}
