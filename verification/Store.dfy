/** Store of store.go: methods that change the tables and the retention counter in
    place, each proved against its step of the database model. */
module Store {
  import opened Text
  import opened AccessRules
  import opened StoreSpec

  /** SELECT id ... ORDER BY timestamp DESC LIMIT limit, as dropping the oldest row
      until the limit is met. */
  method NewestIds(logs: Logs, rows: set<nat>, limit: nat) returns (keep: set<nat>)
    requires rows <= logs.Keys
    ensures Newest(logs, rows, keep, limit)
  {
    keep := rows;
    while |keep| > limit
      invariant keep <= rows
      invariant |keep| >= limit || keep == rows
      invariant forall row, kept :: row in rows && row !in keep && kept in keep ==> logs[row].stamp <= logs[kept].stamp
    {
      var oldest := OldestId(logs, keep);
      keep := keep - {oldest};
    }
  }

  method OldestId(logs: Logs, rows: set<nat>) returns (oldest: nat)
    requires rows != {} && rows <= logs.Keys
    ensures oldest in rows && forall row :: row in rows ==> logs[oldest].stamp <= logs[row].stamp
  {
    oldest :| oldest in rows;
    var todo := rows - {oldest};
    while todo != {}
      invariant todo <= rows && oldest in rows
      invariant forall row :: row in rows && row !in todo ==> logs[oldest].stamp <= logs[row].stamp
      decreases |todo|
    {
      var row :| row in todo;
      if logs[row].stamp < logs[oldest].stamp {
        oldest := row;
      }
      todo := todo - {row};
    }
  }

  lemma FiledIsInsert(s: State, e: Event, t: int, logs: Logs)
    requires Ok(s) && e.Insert? && Target(s.tunnels, e.tunnelId, e.hostname) == Some(t)
    requires var all := s.logs[s.lastLog + 1 := Log(t, e.stamp)];
      if Enforces(s.hits)
      then Newest(all, RecentOf(all, t, e.cutoff), e.keep, LOG_LIMIT) && logs == Enforced(all, t, e.cutoff, e.keep)
      else logs == all
    ensures Chosen(s, e) && Ok(AfterInsert(s, e))
    ensures AfterInsert(s, e) == s.(logs := logs, lastLog := s.lastLog + 1, hits := s.hits + 1)
  {
    InsertKeeps(s, e);
  }

  class Store {
    var tunnels: map<int, Tunnel>
    var lastId: int
    var rules: map<int, Rule>
    var logs: Logs
    var lastLog: nat
    var retentionHits: nat

    ghost function View(): State
      reads this
    {
      State(tunnels, lastId, rules, logs, lastLog, retentionHits)
    }

    ghost predicate Valid()
      reads this
    {
      Ok(View())
    }

    constructor ()
      ensures Valid() && View() == Empty()
    {
      tunnels, lastId, rules, logs, lastLog, retentionHits := map[], 0, map[], map[], 0, 0;
    }

    /** Insert the tunnel, then its public rule through the lookup by name or
        hostname: both or, when a uniqueness constraint fails, neither. */
    method CreateTunnel(o: Oracle, name: string, hostname: string) returns (id: Option<int>)
      requires Valid()
      modifies this`tunnels, this`lastId, this`rules
      ensures Valid() && View() == AfterCreate(old(View()), name, hostname)
      ensures id.None? <==> exists row ::
        row in old(tunnels) && (old(tunnels)[row].name == name || old(tunnels)[row].hostname == hostname)
      ensures id.Some? ==> id.value !in old(tunnels) && tunnels == old(tunnels)[id.value := Tunnel(name, hostname)]
    {
      CreateKeeps(View(), name, hostname);
      if exists row :: row in tunnels && (tunnels[row].name == name || tunnels[row].hostname == hostname) {
        return None;
      }
      LookupFindsInserted(View(), name, hostname);
      lastId := lastId + 1;
      tunnels := tunnels[lastId := Tunnel(name, hostname)];
      var ok := UpsertRuleByLookup(o, name, hostname, Input(PUBLIC, "", "", "", "", []));
      return Some(lastId);
    }

    /** upsertTunnelAccessRuleTx when it has to look the tunnel up. */
    method UpsertRuleByLookup(o: Oracle, name: string, hostname: string, input: Input) returns (ok: bool)
      modifies this`rules
      ensures ok <==> NamedOrHosted(tunnels, name, hostname) != {} && Merged(o, input, None).Some?
      ensures ok ==> exists id ::
        && id in tunnels && id in NamedOrHosted(tunnels, name, hostname)
        && (tunnels[id].name == name || tunnels[id].hostname == hostname)
        && rules == old(rules)[id := Merged(o, input, None).value]
      ensures !ok ==> rules == old(rules)
    {
      if !exists row :: row in tunnels && (tunnels[row].name == name || tunnels[row].hostname == hostname) {
        assert NamedOrHosted(tunnels, name, hostname) == {};
        return false;
      }
      var row :| row in tunnels && (tunnels[row].name == name || tunnels[row].hostname == hostname);
      assert row in NamedOrHosted(tunnels, name, hostname);
      ok := UpsertRule(o, row, input, None);
    }

    /** upsertTunnelAccessRuleTx on a known tunnel id. */
    method UpsertRule(o: Oracle, tunnelId: int, input: Input, existing: Option<Rule>) returns (ok: bool)
      modifies this`rules
      ensures ok <==> Merged(o, input, existing).Some? && tunnelId in tunnels
      ensures rules == if ok then old(rules)[tunnelId := Merged(o, input, existing).value] else old(rules)
    {
      var out := Validate(o, input, existing);
      if out.Rejected? || tunnelId !in tunnels {
        return false;
      }
      rules := rules[tunnelId := out.rule];
      return true;
    }

    method GetTunnelAccessRule(tunnelId: int) returns (rule: Option<Rule>)
      ensures rule == ExistingRule(rules, tunnelId)
    {
      return if tunnelId in rules then Some(rules[tunnelId]) else None;
    }

    method UpsertTunnelAccessRule(o: Oracle, tunnelId: int, input: Input) returns (ok: bool)
      requires Valid()
      modifies this`rules
      ensures Valid() && View() == AfterUpdate(o, old(View()), tunnelId, input)
      ensures ok <==> Merged(o, input, ExistingRule(old(rules), tunnelId)).Some? && tunnelId in tunnels
    {
      UpdateKeeps(o, View(), tunnelId, input);
      var existing := GetTunnelAccessRule(tunnelId);
      ok := UpsertRule(o, tunnelId, input, existing);
    }

    method DeleteTunnelByName(name: string)
      requires Valid()
      modifies this`tunnels, this`rules, this`logs
      ensures Valid() && View() == AfterDelete(old(View()), name)
      ensures forall id :: id in tunnels <==> id in old(tunnels) && old(tunnels)[id].name != name
      ensures forall id :: id in tunnels ==> tunnels[id] == old(tunnels)[id]
    {
      DeleteKeeps(View(), name);
      tunnels := map id | id in tunnels && tunnels[id].name != name :: tunnels[id];
      rules := map id | id in rules && id in tunnels :: rules[id];
      logs := map row | row in logs && logs[row].tunnelId in tunnels :: logs[row];
    }

    /** tunnelIDByHostname: 0 when there is none. */
    method TunnelIdByHostname(hostname: string) returns (id: int)
      requires Valid()
      ensures id == match Target(tunnels, 0, hostname) case None => 0 case Some(t) => t
      ensures id == 0 <==> Target(tunnels, 0, hostname) == None
    {
      if !exists row :: row in tunnels && tunnels[row].hostname == hostname {
        return 0;
      }
      id :| id in tunnels && tunnels[id].hostname == hostname;
      TargetIs(View(), id);
    }

    method InsertRequestLog(tunnelId: int, hostname: string, stamp: Stamp, cutoff: Stamp)
      returns (ok: bool, ghost e: Event)
      requires Valid()
      modifies this`logs, this`lastLog, this`retentionHits
      ensures e.Insert? && e == Insert(tunnelId, hostname, stamp, cutoff, e.keep) && Chosen(old(View()), e)
      ensures Valid() && View() == AfterInsert(old(View()), e)
      ensures ok <==> Target(tunnels, tunnelId, hostname).Some? || tunnelId == 0
    {
      e := Insert(tunnelId, hostname, stamp, cutoff, {});
      var t := tunnelId;
      if t == 0 {
        t := TunnelIdByHostname(hostname);
      }
      if t == 0 {
        return true, e;
      }
      if t !in tunnels {
        return false, e;
      }
      ghost var keep := FileLog(t, stamp, cutoff);
      e := e.(keep := keep);
      FiledIsInsert(old(View()), e, t, logs);
      return true, e;
    }

    /** Insert the row and, on every hundredth one, enforce the retention. */
    method FileLog(t: int, stamp: Stamp, cutoff: Stamp) returns (ghost keep: set<nat>)
      modifies this`logs, this`lastLog, this`retentionHits
      ensures lastLog == old(lastLog) + 1 && retentionHits == old(retentionHits) + 1
      ensures var all := old(logs)[lastLog := Log(t, stamp)];
        if Enforces(old(retentionHits))
        then Newest(all, RecentOf(all, t, cutoff), keep, LOG_LIMIT) && logs == Enforced(all, t, cutoff, keep)
        else logs == all
    {
      keep := {};
      lastLog := lastLog + 1;
      logs := logs[lastLog := Log(t, stamp)];
      retentionHits := retentionHits + 1;
      if retentionHits % ENFORCE_EVERY == 0 {
        keep := EnforceLogRetention(t, cutoff);
      }
    }

    method EnforceLogRetention(t: int, cutoff: Stamp) returns (ghost keep: set<nat>)
      modifies this`logs
      ensures Newest(old(logs), RecentOf(old(logs), t, cutoff), keep, LOG_LIMIT)
      ensures logs == Enforced(old(logs), t, cutoff, keep)
    {
      logs := map row | row in logs && !(logs[row].tunnelId == t && logs[row].stamp < cutoff) :: logs[row];
      var rows := set row | row in logs && logs[row].tunnelId == t;
      assert rows == RecentOf(old(logs), t, cutoff);
      var newest := NewestIds(logs, rows, LOG_LIMIT);
      keep := newest;
      logs := map row | row in logs && !(logs[row].tunnelId == t && row !in newest) :: logs[row];
    }
  }
}
