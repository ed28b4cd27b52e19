/** StatsStore of stats.go: entries updated through the pointers its map holds, an
    in-place compaction of the error times, and a sorted snapshot. */
module Stats {
  import opened StatsSpec

  /** tunnelStat: the struct it embeds, updated field by field through a pointer. */
  class HostStat {
    var stat: Stat
    var lastActiveSeen: Time

    constructor (host: string)
      ensures stat == Fresh(host)
    {
      stat, lastActiveSeen := Fresh(host), ZERO_TIME;
    }

    /** The updates Record makes to one entry. */
    method Bump(hit: Hit)
      requires stat.latencyCount >= 0
      modifies this`stat
      ensures stat == Bumped(old(stat), hit)
    {
      stat := stat.(requests := stat.requests + 1);
      stat := stat.(bytesIn := stat.bytesIn + hit.bytesIn);
      stat := stat.(bytesOut := stat.bytesOut + hit.bytesOut);
      stat := stat.(lastStatus := hit.status, lastSeen := hit.now);
      stat := stat.(latencyCount := stat.latencyCount + 1);
      stat := stat.(latencySum := stat.latencySum + hit.ms);
      if hit.ms > stat.latencyMax {
        stat := stat.(latencyMax := hit.ms);
      }
      if stat.latencyCount > 0 {
        stat := stat.(latencyAvg := Mean(stat.latencySum, stat.latencyCount));
      }
      if hit.addr != "" {
        stat := stat.(lastRemoteAddr := hit.addr);
      }
      if hit.isError {
        stat := stat.(errors := stat.errors + 1);
      }
    }

    /** What Snapshot's loop does to one entry before it may delete it. */
    method Mark(active: map<string, string>, now: Time)
      modifies this
      ensures stat == Marked(old(stat), active)
    {
      if stat.hostname in active {
        stat := stat.(active := true);
        lastActiveSeen := now;
        if active[stat.hostname] != "" {
          stat := stat.(lastRemoteAddr := active[stat.hostname]);
        }
      } else {
        stat := stat.(active := false);
      }
    }
  }

  // ---------------------------------------------------------------- hostname order

  predicate Less(a: string, b: string) {
    b != "" && (a == "" || a[0] < b[0] || (a[0] == b[0] && Less(a[1..], b[1..])))
  }

  lemma {:induction false} LessTotal(a: string, b: string)
    ensures a == b || Less(a, b) || Less(b, a)
    ensures !(Less(a, b) && Less(b, a))
    ensures !Less(a, a)
    decreases |a|
  {
    if a != "" {
      LessTotal(a[1..], a[1..]);
    }
    if a != "" && b != "" && a[0] == b[0] {
      LessTotal(a[1..], b[1..]);
      assert a[1..] == b[1..] ==> a == [a[0]] + b[1..] == b;
    }
  }

  /** The strings agree up to i, where the first ends or has the smaller character. */
  predicate DifferAt(a: string, b: string, i: nat) {
    i <= |a| && i < |b| && a[..i] == b[..i] && (i == |a| || a[i] < b[i])
  }

  lemma {:induction false} LessIs(a: string, b: string)
    ensures Less(a, b) <==> exists i :: 0 <= i < |b| && DifferAt(a, b, i)
    decreases |a|
  {
    if a == "" || b == "" {
      assert b != "" ==> DifferAt(a, b, 0);
    } else if a[0] != b[0] {
      assert a[0] < b[0] ==> DifferAt(a, b, 0);
      assert forall i :: 0 < i <= |a| && i < |b| ==> a[..i][0] != b[..i][0];
    } else {
      LessIs(a[1..], b[1..]);
      forall i | 0 <= i < |b| - 1 ensures DifferAt(a[1..], b[1..], i) <==> DifferAt(a, b, i + 1) {
        DifferTail(a, b, i);
      }
      if i :| 0 <= i < |b| && DifferAt(a, b, i) {
        assert i > 0 && DifferAt(a[1..], b[1..], i - 1);
      }
    }
  }

  lemma DifferTail(a: string, b: string, i: nat)
    requires a != "" && b != "" && a[0] == b[0]
    ensures DifferAt(a[1..], b[1..], i) <==> DifferAt(a, b, i + 1)
  {
    if i + 1 <= |a| && i + 1 <= |b| {
      assert a[..i + 1] == [a[0]] + a[1..][..i] && b[..i + 1] == [b[0]] + b[1..][..i];
      assert a[1..][..i] == a[..i + 1][1..] && b[1..][..i] == b[..i + 1][1..];
    }
  }

  lemma {:induction false} LessTransitive(a: string, b: string, c: string)
    requires Less(a, b) && Less(b, c)
    ensures Less(a, c)
    decreases |a|
  {
    if a != "" && a[0] == b[0] && b[0] == c[0] {
      LessTransitive(a[1..], b[1..], c[1..]);
    }
  }

  ghost predicate Ascending(rows: seq<Stat>) {
    forall i, j :: 0 <= i < j < |rows| ==> Less(rows[i].hostname, rows[j].hostname)
  }

  ghost predicate RowsOf(rows: seq<Stat>, entries: map<string, Stat>) {
    && (forall i :: 0 <= i < |rows| ==> rows[i].hostname in entries && rows[i] == entries[rows[i].hostname])
    && (forall h :: h in entries ==> exists i :: 0 <= i < |rows| && rows[i].hostname == h)
  }

  ghost predicate Keyed(entries: map<string, Stat>) {
    forall h :: h in entries ==> entries[h].hostname == h
  }

  /** Insert a row at its place, by hostname. */
  method InsertRow(rows: seq<Stat>, row: Stat) returns (out: seq<Stat>)
    requires Ascending(rows) && forall i :: 0 <= i < |rows| ==> rows[i].hostname != row.hostname
    ensures Ascending(out) && exists n :: 0 <= n <= |rows| && out == rows[..n] + [row] + rows[n..]
  {
    var n := 0;
    while n < |rows| && Less(rows[n].hostname, row.hostname)
      invariant 0 <= n <= |rows|
      invariant forall i :: 0 <= i < n ==> Less(rows[i].hostname, row.hostname)
    {
      n := n + 1;
    }
    out := rows[..n] + [row] + rows[n..];
    if n < |rows| {
      LessTotal(rows[n].hostname, row.hostname);
      forall i | n < i < |rows| ensures Less(row.hostname, rows[i].hostname) {
        LessTransitive(row.hostname, rows[n].hostname, rows[i].hostname);
      }
    }
  }

  ghost function Part(entries: map<string, Stat>, hosts: set<string>): map<string, Stat> {
    map h | h in entries && h in hosts :: entries[h]
  }

  lemma NotYet(rows: seq<Stat>, entries: map<string, Stat>, done: set<string>, h: string)
    requires Keyed(entries) && RowsOf(rows, Part(entries, done)) && h in entries && h !in done
    ensures forall i :: 0 <= i < |rows| ==> rows[i].hostname != entries[h].hostname
  {
  }

  lemma AddedRow(rows: seq<Stat>, more: seq<Stat>, entries: map<string, Stat>, done: set<string>, h: string)
    requires Keyed(entries) && RowsOf(rows, Part(entries, done)) && h in entries
    requires exists n :: 0 <= n <= |rows| && more == rows[..n] + [entries[h]] + rows[n..]
    ensures RowsOf(more, Part(entries, done + {h}))
  {
    var n :| 0 <= n <= |rows| && more == rows[..n] + [entries[h]] + rows[n..];
    forall k | k in Part(entries, done + {h}) ensures exists i :: 0 <= i < |more| && more[i].hostname == k {
      if k == h {
        assert more[n].hostname == k;
      } else {
        assert k in Part(entries, done);
        var i :| 0 <= i < |rows| && rows[i].hostname == k;
        assert more[if i < n then i else i + 1].hostname == k;
      }
    }
    forall i | 0 <= i < |more|
      ensures more[i].hostname in entries && more[i] == entries[more[i].hostname]
      ensures more[i].hostname in done || more[i].hostname == h
    {
      assert more[i] == if i < n then rows[i] else if i == n then entries[h] else rows[i - 1];
    }
  }

  /** Add the row of one more host. */
  method AddRow(rows: seq<Stat>, row: Stat, ghost entries: map<string, Stat>, ghost done: set<string>)
    returns (more: seq<Stat>)
    requires Keyed(entries) && row.hostname in entries && row == entries[row.hostname] && row.hostname !in done
    requires Ascending(rows) && RowsOf(rows, Part(entries, done))
    ensures Ascending(more) && RowsOf(more, Part(entries, done + {row.hostname}))
  {
    NotYet(rows, entries, done, row.hostname);
    more := InsertRow(rows, row);
    AddedRow(rows, more, entries, done, row.hostname);
  }

  ghost function Swept(entries: map<string, Stat>, todo: set<string>, active: map<string, string>,
                       now: Time): map<string, Stat> {
    map h | h in entries && (h in todo || !Expired(entries[h], active, now)) ::
      if h in todo then entries[h] else Marked(entries[h], active)
  }

  lemma SweptStep(entries: map<string, Stat>, todo: set<string>, h: string, active: map<string, string>, now: Time)
    requires h in todo && todo <= entries.Keys
    ensures var before := Swept(entries, todo, active, now);
      && h in before && before[h] == entries[h]
      && Swept(entries, todo - {h}, active, now)
         == if Expired(before[h], active, now) then before - {h} else before[h := Marked(before[h], active)]
  {}

  // ---------------------------------------------------------------- the store

  /** errorTimes[..used] is the slice the store holds; the array is its backing store. */
  class StatsStore {
    var byHost: map<string, HostStat>
    var errorTimes: array<Time>
    var used: nat

    /** Entries are filed under their own hostname, so no two keys share one. */
    ghost predicate Valid()
      reads this, byHost.Values
    {
      && used <= errorTimes.Length
      && forall h :: h in byHost ==> byHost[h].stat.hostname == h && byHost[h].stat.latencyCount >= 0
    }

    ghost function Entries(): map<string, Stat>
      reads this`byHost, byHost.Values
    {
      map h | h in byHost :: byHost[h].stat
    }

    ghost function Errors(): seq<Time>
      reads this`errorTimes, this`used, errorTimes
      requires used <= errorTimes.Length
    {
      errorTimes[..used]
    }

    ghost function View(): State
      reads this, errorTimes, byHost.Values
      requires used <= errorTimes.Length
    {
      State(Entries(), Errors())
    }

    constructor ()
      ensures Valid() && View() == Init()
      ensures fresh(errorTimes) && byHost == map[]
    {
      byHost, errorTimes, used := map[], new Time[0], 0;
    }

    method AppendError(now: Time)
      requires used <= errorTimes.Length
      modifies this`errorTimes, this`used, errorTimes
      ensures used <= errorTimes.Length && Errors() == old(Errors()) + [now]
      ensures errorTimes == old(errorTimes) || fresh(errorTimes)
    {
      if used == errorTimes.Length {
        var bigger := new Time[2 * used + 1];
        for i := 0 to used
          invariant used == old(used) <= errorTimes.Length && errorTimes == old(errorTimes)
          invariant bigger[..i] == errorTimes[..i] && errorTimes[..] == old(errorTimes[..])
        {
          bigger[i] := errorTimes[i];
        }
        errorTimes := bigger;
      }
      errorTimes[used] := now;
      used := used + 1;
    }

    method Record(hit: Hit)
      requires Valid()
      modifies this, errorTimes, byHost.Values
      ensures Valid() && View() == AfterRecord(old(View()), hit)
      ensures errorTimes == old(errorTimes) || fresh(errorTimes)
      ensures forall o :: o in byHost.Values ==> o in old(byHost.Values) || fresh(o)
    {
      if hit.host == "" {
        return;
      }
      CountIn(hit);
      if hit.isError {
        AppendError(hit.now);
      }
    }

    method CountIn(hit: Hit)
      requires Valid()
      modifies this`byHost, byHost.Values
      ensures Valid() && Entries() == Counted(old(Entries()), hit)
      ensures forall o :: o in byHost.Values ==> o in old(byHost.Values) || fresh(o)
    {
      FindOrCreate(hit.host);
      BumpEntry(hit);
    }

    method FindOrCreate(host: string)
      requires Valid()
      modifies this`byHost
      ensures Valid() && host in byHost
      ensures Entries() == if host in old(byHost) then old(Entries()) else old(Entries())[host := Fresh(host)]
      ensures forall o :: o in byHost.Values ==> o in old(byHost.Values) || fresh(o)
    {
      if host !in byHost {
        var entry := new HostStat(host);
        byHost := byHost[host := entry];
      }
    }

    method BumpEntry(hit: Hit)
      requires Valid() && hit.host in byHost
      modifies byHost.Values
      ensures Valid() && Entries() == old(Entries())[hit.host := Bumped(old(Entries()[hit.host]), hit)]
    {
      byHost[hit.host].Bump(hit);
    }

    method Snapshot(active: map<string, string>, now: Time) returns (rows: seq<Stat>)
      requires Valid()
      modifies this`byHost, byHost.Values
      ensures Valid() && View() == old(View()).(entries := AfterSnapshot(old(Entries()), active, now))
      ensures Ascending(rows) && RowsOf(rows, Entries())
      ensures forall o :: o in byHost.Values ==> o in old(byHost.Values)
    {
      Sweep(active, now);
      rows := Rows();
    }

    /** The second loop of Snapshot, and its sort. */
    method Rows() returns (rows: seq<Stat>)
      requires Valid()
      ensures Ascending(rows) && RowsOf(rows, Entries())
    {
      rows := [];
      var todo := byHost.Keys;
      ghost var entries, done := Entries(), {};
      while todo != {}
        invariant todo + done == byHost.Keys && todo !! done
        invariant Ascending(rows) && RowsOf(rows, Part(entries, done))
        decreases |todo|
      {
        var h :| h in todo;
        rows := AddRow(rows, byHost[h].stat, entries, done);
        done, todo := done + {h}, todo - {h};
      }
      assert Part(entries, done) == entries;
    }

    /** The first loop of Snapshot. */
    method Sweep(active: map<string, string>, now: Time)
      requires Valid()
      modifies this`byHost, byHost.Values
      ensures Valid() && Entries() == AfterSnapshot(old(Entries()), active, now)
      ensures forall o :: o in byHost.Values ==> o in old(byHost.Values)
    {
      var todo := byHost.Keys;
      ghost var entries := Entries();
      while todo != {}
        invariant Valid() && todo <= entries.Keys
        invariant forall o :: o in byHost.Values ==> o in old(byHost.Values)
        invariant Entries() == Swept(entries, todo, active, now)
        decreases |todo|
      {
        var h :| h in todo;
        SweptStep(entries, todo, h, active, now);
        assert Entries()[h] == byHost[h].stat;
        SweepEntry(h, active, now);
        todo := todo - {h};
      }
    }

    method SweepEntry(h: string, active: map<string, string>, now: Time)
      requires Valid() && h in byHost
      modifies this`byHost, byHost.Values
      ensures Valid()
      ensures Entries() == if Expired(old(Entries()[h]), active, now) then old(Entries()) - {h}
                           else old(Entries())[h := Marked(old(Entries()[h]), active)]
      ensures forall o :: o in byHost.Values ==> o in old(byHost.Values)
    {
      var entry := byHost[h];
      entry.Mark(active, now);
      if !entry.stat.active && entry.stat.lastSeen != ZERO_TIME && now - entry.stat.lastSeen > RETAIN_AFTER_INACTIVE {
        byHost := byHost - {h};
      }
    }

    method RecentErrors(window: int, now: Time) returns (count: nat)
      requires Valid()
      modifies this`used, errorTimes
      ensures var cut := now - (if window > 0 then window else 300000);
        Valid() && View() == old(View()).(errors := Later(old(Errors()), cut))
      ensures count == |View().errors|
    {
      var span := if window <= 0 then RECENT_ERROR_WINDOW else window;
      var cut := now - span;
      ghost var times := Errors();
      var keep := 0;
      for i := 0 to used
        invariant keep <= i <= used == old(used) == |times| && errorTimes == old(errorTimes)
        invariant used <= errorTimes.Length
        invariant errorTimes[..keep] == Later(times[..i], cut)
        invariant forall k :: i <= k < used ==> errorTimes[k] == times[k]
      {
        assert times[..i + 1][..i] == times[..i];
        var t := errorTimes[i];
        assert t == times[i];
        if t > cut {
          errorTimes[keep] := t;
          keep := keep + 1;
        }
      }
      assert times[..|times|] == times;
      used := keep;
      count := used;
    }
  }
}
