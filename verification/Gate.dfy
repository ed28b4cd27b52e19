/** The public handler of proxy.go: which requests reach a tunnel, and what every
    request is answered and recorded with. */
module Gate {
  import opened Text
  import opened Headers
  import opened AccessRules
  import opened Connector
  import DB = StoreSpec
  import T = Tunnel
  import TT = TunnelTheorems

  // ---------------------------------------------------------------- hosts and addresses

  /** hostWithoutPort: the bracketed part of an IPv6 host, or all before the first
      colon. */
  method HostWithoutPort(host: string) returns (name: string)
    ensures name <= host
    ensures host != "" && host[0] == '[' && ']' in host ==>
              name != "" && name[|name| - 1] == ']' && ']' !in name[..|name| - 1]
    ensures !(host != "" && host[0] == '[' && ']' in host) ==>
              ':' !in name && (name == host || host[|name|] == ':')
  {
    if host != "" && host[0] == '[' {
      for j := 0 to |host|
        invariant ']' !in host[..j]
      {
        if host[j] == ']' {
          assert host[..j + 1][..j] == host[..j];
          return host[..j + 1];
        }
        assert host[..j + 1] == host[..j] + [host[j]];
      }
      assert host[..|host|] == host;
    }
    for i := 0 to |host|
      invariant ':' !in host[..i]
    {
      if host[i] == ':' {
        return host[..i];
      }
      assert host[..i + 1] == host[..i] + [host[i]];
    }
    assert host[..|host|] == host;
    return host;
  }

  /** The host of a host and port; netip: an address parses to its standard text;
      prefixes contain addresses. */
  datatype Net = Net(
    host: string -> Option<string>, address: string -> Option<string>, contains: (string, string) -> bool)

  ghost predicate Trusted(net: Net, prefixes: seq<string>, ip: string) {
    exists i :: 0 <= i < |prefixes| && net.contains(prefixes[i], ip)
  }

  method PeerTrusted(net: Net, prefixes: seq<string>, ip: string) returns (trusted: bool)
    ensures trusted <==> exists i :: 0 <= i < |prefixes| && net.contains(prefixes[i], ip)
  {
    for i := 0 to |prefixes|
      invariant forall k :: 0 <= k < i ==> !net.contains(prefixes[k], ip)
    {
      if net.contains(prefixes[i], ip) {
        return true;
      }
    }
    return false;
  }

  /** http.Header.Get. */
  function Get(h: Header, name: string): string {
    var k := Canonical(name);
    if k in h && h[k] != [] then h[k][0] else ""
  }

  /** It is the first of the values filed under the canonical name. */
  lemma GetIsFirst(h: Header, name: string, v: string, more: seq<string>)
    ensures Get(h[Canonical(name) := [v] + more], name) == v
    ensures Get(h[Canonical(name) := []], name) == Get(h - {Canonical(name)}, name) == ""
  {}

  /** resolveClientIP: forwarding headers count only when the peer is a trusted proxy,
      and only when they hold an address, the first entry of X-Forwarded-For before
      X-Real-Ip. The peer is the host of its address, or all of that when no port can
      be split off. */
  method ResolveClientIP(net: Net, remote: string, h: Header, prefixes: seq<string>) returns (ip: string)
    ensures var peer := if net.host(Trim(remote)).Some? then net.host(Trim(remote)).value else Trim(remote);
      var own := net.address(peer);
      var xff, xrip := Trim(Get(h, "X-Forwarded-For")), Trim(Get(h, "X-Real-Ip"));
      && (own == None ==> ip == peer)
      && (own.Some? && !Trusted(net, prefixes, own.value) ==> ip == own.value)
      && (own.Some? && Trusted(net, prefixes, own.value) ==>
            var first := net.address(Trim(Split(xff, ',')[0]));
            if xff != "" && first.Some? then ip == first.value
            else if xrip != "" && net.address(xrip).Some? then ip == net.address(xrip).value
            else ip == own.value)
  {
    var host := Trim(remote);
    var split := net.host(Trim(remote));
    if split.Some? {
      host := split.value;
    }
    var parsed := net.address(host);
    if parsed.None? {
      return host;
    }
    var trusted := PeerTrusted(net, prefixes, parsed.value);
    if trusted {
      var xff := Trim(Get(h, "X-Forwarded-For"));
      if xff != "" {
        var first := net.address(Trim(Split(xff, ',')[0]));
        if first.Some? {
          return first.value;
        }
      }
      var xrip := Trim(Get(h, "X-Real-Ip"));
      if xrip != "" {
        var second := net.address(xrip);
        if second.Some? {
          return second.value;
        }
      }
    }
    return parsed.value;
  }

  // ---------------------------------------------------------------- address rules

  /** Some entry of the rule parses and contains the address. */
  ghost predicate InSomePrefix(o: Oracle, net: Net, cidrs: seq<string>, ip: string) {
    exists i :: 0 <= i < |cidrs| && o.parses(Trim(cidrs[i])) && net.contains(Trim(cidrs[i]), ip)
  }

  ghost predicate IpAllowed(o: Oracle, net: Net, cidrs: seq<string>, client: string) {
    cidrs == [] ||
    (net.address(Trim(client)).Some? && InSomePrefix(o, net, cidrs, net.address(Trim(client)).value))
  }

  method AllowedByIP(o: Oracle, net: Net, rule: Rule, client: string) returns (allowed: bool)
    ensures allowed <==> IpAllowed(o, net, rule.allowed, client)
  {
    if |rule.allowed| == 0 {
      return true;
    }
    var ip := net.address(Trim(client));
    if ip.None? {
      return false;
    }
    for i := 0 to |rule.allowed|
      invariant forall k :: 0 <= k < i ==>
        !(o.parses(Trim(rule.allowed[k])) && net.contains(Trim(rule.allowed[k]), ip.value))
    {
      var prefix := Trim(rule.allowed[i]);
      if o.parses(prefix) && net.contains(prefix, ip.value) {
        return true;
      }
    }
    return false;
  }

  /** No CIDR, or the client's address in the union of them. */
  ghost predicate FromSome(net: Net, cidrs: seq<string>, client: string) {
    cidrs == [] ||
    (net.address(Trim(client)).Some?
     && exists i :: 0 <= i < |cidrs| && net.contains(cidrs[i], net.address(Trim(client)).value))
  }

  /** On a rule that any history of updates leaves, the check is: no CIDR stored, or
      the client's address in the union of the stored ones. */
  lemma {:induction false} StoredRuleIp(o: Oracle, net: Net, run: seq<Input>, client: string)
    requires Digests(o)
    ensures var cidrs := LastAllowed(Applied(o, run));
      IpAllowed(o, net, RuleAfter(o, run).allowed, client) <==> FromSome(net, cidrs, client)
  {
    RuleIsDescribed(o, run);
    var cidrs := LastAllowed(Applied(o, run));
    forall i | 0 <= i < |cidrs| ensures o.parses(cidrs[i]) && Trim(cidrs[i]) == cidrs[i] {
      assert cidrs[i] in cidrs;
    }
  }

  // ---------------------------------------------------------------- the handler

  predicate Contains(s: string, part: string) {
    exists i :: 0 <= i <= |s| - |part| && At(s, part, i)
  }

  predicate At(s: string, part: string, i: nat)
    requires i <= |s| - |part|
  {
    s[i..i + |part|] == part
  }

  predicate WebsocketUpgrade(h: Header) {
    ToLower(Get(h, "Upgrade")) == "websocket" && Contains(ToLower(Get(h, "Connection")), "upgrade")
  }

  /** Both words count in any case of their letters, the second anywhere in the field. */
  lemma WebsocketIs(h: Header)
    ensures WebsocketUpgrade(h) <==>
      && SameLetters(Get(h, "Upgrade"), "websocket")
      && exists i :: 0 <= i <= |Get(h, "Connection")| - 7 && SameLettersAt(Get(h, "Connection"), "upgrade", i)
  {
    var v := Get(h, "Connection");
    SameLowerCase(Get(h, "Upgrade"), "websocket");
    assert ToLower("websocket") == "websocket" && ToLower("upgrade") == "upgrade";
    forall i: nat | i <= |v| - 7 ensures At(ToLower(v), "upgrade", i) <==> SameLettersAt(v, "upgrade", i) {
      assert ToLower(v)[i..i + 7] == ToLower(v[i..i + 7]);
      SameLowerCase(v[i..i + 7], "upgrade");
    }
  }

  ghost predicate SameLettersAt(s: string, part: string, i: nat)
    requires i <= |s| - |part|
  {
    SameLetters(s[i..i + |part|], part)
  }

  datatype Request = Request(
    hostname: string, clientIP: string, verb: string, path: string, query: string, header: Header,
    basic: Option<(string, string)>, contentLength: int, body: Source)

  datatype Lookup = Found(id: int) | Missing | Failed
  datatype RuleLookup = Stored(rule: Rule) | NoRule | RuleFailed

  /** What the handler meets: the store and its answers to the two hostname lookups
      and to the rule lookup, the registry's answer, the tunnel's reply if there is one, and the configuration, with
      the server's hostname without its port. */
  datatype World = World(
    store: bool, first: Lookup, second: Lookup, rule: RuleLookup,
    connected: bool, reply: Option<(int, Header, Bytes)>,
    serverHost: string, maxBody: Limit, o: Oracle, net: Net)

  datatype Forward = Forward(verb: string, path: string, query: string, header: Header, body: Bytes)

  /** What record is called with, and what it stores. */
  datatype Answer = Answer(status: int, bytesOut: int, isError: bool, error: string)
  datatype LogEntry = LogEntry(tunnelId: int, bytesIn: int, answer: Answer)

  /** Stored ids are positive, and a tunnel's reply has the header the receive loop
      rebuilds. */
  ghost predicate Sane(w: World) {
    && (w.first.Found? ==> w.first.id > 0) && (w.second.Found? ==> w.second.id > 0)
    && (w.reply.Some? ==> CanonicalKeys(w.reply.value.1))
  }

  /** The tunnel record the handler ends up with: the first lookup that found one. */
  function TunnelId(w: World): int {
    if !w.store then 0
    else if w.first.Found? then w.first.id
    else if w.second.Found? then w.second.id
    else 0
  }

  /** The rule that governs the request, if there is one. */
  function Governing(w: World): RuleLookup {
    if TunnelId(w) > 0 then w.rule else NoRule
  }

  predicate CredentialOk(w: World, r: Request, rule: Rule) {
    && (rule.mode == BASIC ==> r.basic.Some? && VerifyBasicAuth(w.o, rule, r.basic.value.0, r.basic.value.1))
    && (rule.mode == SHARED ==> VerifySharedSecret(w.o, rule, Get(r.header, rule.headerName)))
  }

  predicate BodyFits(w: World, r: Request) {
    r.contentLength <= w.maxBody && |ReadPast(r.body, w.maxBody).bytes| <= w.maxBody
  }

  ghost predicate RulePasses(w: World, r: Request) {
    match Governing(w)
    case RuleFailed => false
    case NoRule => true
    case Stored(rule) => IpAllowed(w.o, w.net, rule.allowed, r.clientIP) && CredentialOk(w, r, rule)
  }

  /** A request is let through exactly when the tunnel is connected, no lookup it
      needs fails, its address and credential pass the governing rule, it is no
      WebSocket upgrade and its body is within the limit. */
  ghost predicate LetThrough(w: World, r: Request) {
    && w.connected
    && !(w.store && w.first.Failed?)
    && RulePasses(w, r)
    && !WebsocketUpgrade(r.header)
    && BodyFits(w, r)
  }

  /** The exchange with one client: what was written, recorded and forwarded. */
  class Exchange {
    const w: World
    const r: Request
    var statuses: seq<int>
    var log: seq<LogEntry>
    var forwarded: seq<Forward>
    var relayed: Option<(Header, Bytes)>
    var tunnelId: int

    constructor (w: World, r: Request)
      ensures this.w == w && this.r == r
      ensures Untouched() && tunnelId == 0
    {
      this.w, this.r := w, r;
      statuses, log, forwarded, relayed, tunnelId := [], [], [], None, 0;
    }

    /** Exactly this was written and recorded since the handler began. */
    ghost predicate Answered(a: Answer)
      reads this
    {
      && statuses == [a.status]
      && log == [LogEntry(tunnelId, if r.contentLength > 0 then r.contentLength else 0, a)]
    }

    ghost predicate Untouched()
      reads this
    {
      statuses == [] && log == [] && forwarded == [] && relayed == None
    }

    /** WriteHeader and the record closure. */
    method Respond(a: Answer)
      requires statuses == [] && log == []
      modifies this`statuses, this`log
      ensures Answered(a)
    {
      statuses := statuses + [a.status];
      var bytesIn := 0;
      if r.contentLength > 0 {
        bytesIn := r.contentLength;
      }
      log := log + [LogEntry(tunnelId, bytesIn, a)];
    }

    /** http.Error, which ends its text with a newline. */
    method Refuse(status: int, text: string, error: string)
      requires statuses == [] && log == []
      modifies this`statuses, this`log
      ensures Answered(Answer(status, |text| + 1, true, error))
    {
      Respond(Answer(status, |text| + 1, true, error));
    }

    /** One answer and one record on every path; the request is forwarded exactly
        when it is let through, and the tunnel's reply is passed on; otherwise the
        answer is that of the first check it fails. */
    method Handle()
      requires Untouched() && tunnelId == 0 && Sane(w)
      modifies this
      ensures forwarded == if LetThrough(w, r) then [Forwarded(w, r)] else []
      ensures forwarded != [] ==>
        var f := forwarded[0];
        && f.verb == r.verb && f.path == r.path && f.query == r.query && f.header == r.header
        && f.body == ReadPast(r.body, w.maxBody).bytes
      ensures Answered(if LetThrough(w, r) then Relayed(w) else Refusal(w, r))
      ensures relayed == if LetThrough(w, r) then Written(w) else None
      // the tunnel it is recorded under: the second lookup is made for a connected one only
      ensures tunnelId == if !w.store || w.first.Failed? then 0
                          else if w.first.Found? then w.first.id
                          else if w.connected && w.second.Found? then w.second.id
                          else 0
      // one status, and one record of it
      ensures |statuses| == |log| == 1 && log[0].answer.status == statuses[0] && log[0].tunnelId == tunnelId
      ensures log[0].bytesIn == (if r.contentLength > 0 then r.contentLength else 0)
    {
      if w.store {
        match w.first {
          case Found(id) => tunnelId := id;
          case Missing =>
          case Failed =>
            Refuse(500, "tunnel lookup failed", "tunnel lookup failed");
            return;
        }
      }
      if !w.connected {
        RefuseUnconnected();
        return;
      }
      if tunnelId == 0 && w.store {
        match w.second {
          case Found(id) => tunnelId := id;
          case Missing =>
          case Failed =>
        }
      }
      if tunnelId > 0 && w.store {
        var pass := CheckRule();
        if !pass {
          return;
        }
      }
      Proceed();
    }

    method RefuseUnconnected()
      requires Untouched() && !w.connected && !(w.store && w.first.Failed?) && Sane(w)
      requires tunnelId == if w.store && w.first.Found? then w.first.id else 0
      modifies this`statuses, this`log
      ensures Answered(Refusal(w, r))
    {
      if r.hostname != "" && r.hostname == w.serverHost && tunnelId == 0 {
        Respond(Answer(200, 0, false, ""));
      } else if tunnelId > 0 {
        Refuse(502, "tunnel unavailable", "tunnel unavailable");
      } else {
        Refuse(404, "no tunnel for this hostname", "no tunnel for this hostname");
      }
    }

    method CheckRule() returns (pass: bool)
      requires Untouched() && w.connected && !(w.store && w.first.Failed?)
      requires tunnelId == TunnelId(w) > 0
      modifies this`statuses, this`log
      ensures pass <==> RulePasses(w, r)
      ensures pass ==> Untouched()
      ensures !pass ==> Answered(Refusal(w, r))
    {
      match w.rule {
        case RuleFailed =>
          Refuse(500, "tunnel access rule lookup failed", "tunnel access rule lookup failed");
          return false;
        case NoRule =>
          return true;
        case Stored(rule) =>
          var allowed := AllowedByIP(w.o, w.net, rule, r.clientIP);
          if !allowed {
            Refuse(403, "forbidden", "ip not allowed");
            return false;
          }
          if rule.mode == BASIC {
            if r.basic.None? || !VerifyBasicAuth(w.o, rule, r.basic.value.0, r.basic.value.1) {
              Refuse(401, "unauthorized", "basic auth failed");
              return false;
            }
          } else if rule.mode == SHARED {
            if !VerifySharedSecret(w.o, rule, Get(r.header, rule.headerName)) {
              Refuse(401, "unauthorized", "shared secret failed");
              return false;
            }
          }
          return true;
      }
    }

    method Proceed()
      requires Untouched() && w.connected && !(w.store && w.first.Failed?) && RulePasses(w, r) && Sane(w)
      modifies this`statuses, this`log, this`forwarded, this`relayed
      ensures relayed == if LetThrough(w, r) then Written(w) else None
      ensures forwarded == if LetThrough(w, r) then [Forwarded(w, r)] else []
      ensures forwarded != [] ==>
        forwarded[0] == Forward(r.verb, r.path, r.query, r.header, ReadPast(r.body, w.maxBody).bytes)
      ensures Answered(if LetThrough(w, r) then Relayed(w) else Refusal(w, r))
    {
      if WebsocketUpgrade(r.header) {
        Refuse(501, NO_WEBSOCKET, NO_WEBSOCKET);
        return;
      }
      if r.contentLength > w.maxBody {
        Respond(Answer(413, 0, true, "request body too large"));
        return;
      }
      var body := ReadPast(r.body, w.maxBody).bytes;
      if |body| > w.maxBody {
        Respond(Answer(413, 0, true, "request body too large"));
        return;
      }
      forwarded := forwarded + [Forward(r.verb, r.path, r.query, r.header, body)];
      if w.reply.None? {
        Refuse(502, "tunnel unavailable", "tunnel unavailable");
        return;
      }
      var (status, header, out) := w.reply.value;
      var copied := CopyHeader(header);
      relayed := Some((copied, out));
      Respond(Answer(status, |out|, status >= 400, ""));
    }
  }

  /** The fields of a header that have values. */
  function WithValues(h: Header): Header {
    map k | k in h && |h[k]| > 0 :: h[k]
  }

  /** The header and body written for the tunnel's reply, if there is one. */
  function Written(w: World): Option<(Header, Bytes)> {
    if w.reply.Some? then Some((WithValues(w.reply.value.1), w.reply.value.2)) else None
  }

  const NO_WEBSOCKET := "websocket tunneling is not implemented in this release"

  function Forwarded(w: World, r: Request): Forward {
    Forward(r.verb, r.path, r.query, r.header, ReadPast(r.body, w.maxBody).bytes)
  }

  /** The answer to a forwarded request. */
  function Relayed(w: World): Answer {
    match w.reply
    case Some((status, _, body)) => Answer(status, |body|, status >= 400, "")
    case None => Answer(502, 19, true, "tunnel unavailable")
  }

  /** The answer to a request that is not let through: that of the first check it
      fails. */
  ghost function Refusal(w: World, r: Request): Answer {
    if w.store && w.first.Failed? then Answer(500, 21, true, "tunnel lookup failed")
    else if !w.connected then
      if w.store && w.first.Found? then Answer(502, 19, true, "tunnel unavailable")
      else if r.hostname != "" && r.hostname == w.serverHost then Answer(200, 0, false, "")
      else Answer(404, 28, true, "no tunnel for this hostname")
    else if Governing(w).RuleFailed? then Answer(500, 33, true, "tunnel access rule lookup failed")
    else if Governing(w).Stored? && !IpAllowed(w.o, w.net, Governing(w).rule.allowed, r.clientIP) then
      Answer(403, 10, true, "ip not allowed")
    else if Governing(w).Stored? && !CredentialOk(w, r, Governing(w).rule) then
      Answer(401, 13, true, if Governing(w).rule.mode == BASIC then "basic auth failed" else "shared secret failed")
    else if WebsocketUpgrade(r.header) then Answer(501, |NO_WEBSOCKET| + 1, true, NO_WEBSOCKET)
    else Answer(413, 0, true, "request body too large")
  }

  /** Each refusal has its own cause and text: of the checks in the order of the code,
      this is the first that fails. */
  lemma RefusalIs(w: World, r: Request)
    requires Sane(w) && !LetThrough(w, r)
    ensures var a := Refusal(w, r); var known := w.store && w.first.Found?;
      var ruled := w.store && (w.first.Found? || w.second.Found?);
      && (w.store && w.first.Failed? ==> a == Answer(500, 21, true, "tunnel lookup failed"))
      && (!(w.store && w.first.Failed?) && !w.connected ==>
            && (known ==> a == Answer(502, 19, true, "tunnel unavailable"))
            && (!known && r.hostname != "" && r.hostname == w.serverHost ==> a == Answer(200, 0, false, ""))
            && (!known && (r.hostname == "" || r.hostname != w.serverHost) ==>
                  a == Answer(404, 28, true, "no tunnel for this hostname")))
      && (!(w.store && w.first.Failed?) && w.connected ==>
            && (ruled && w.rule.RuleFailed? ==> a == Answer(500, 33, true, "tunnel access rule lookup failed"))
            && (ruled && w.rule.Stored? ==> RuleRefusal(w, r, w.rule.rule, a))
            && (!ruled || w.rule.NoRule? ==> LastRefusal(w, r, a)))
  {}

  /** 403 for the address, then 401 for the credential of the rule's mode. */
  ghost predicate RuleRefusal(w: World, r: Request, rule: Rule, a: Answer) {
    if !IpAllowed(w.o, w.net, rule.allowed, r.clientIP) then a == Answer(403, 10, true, "ip not allowed")
    else if rule.mode == "basic_auth" && !BasicOk(w, r, rule) then a == Answer(401, 13, true, "basic auth failed")
    else if rule.mode == "shared_secret_header" && !VerifySharedSecret(w.o, rule, Get(r.header, rule.headerName))
    then a == Answer(401, 13, true, "shared secret failed")
    else LastRefusal(w, r, a)
  }

  ghost predicate BasicOk(w: World, r: Request, rule: Rule) {
    r.basic.Some? && VerifyBasicAuth(w.o, rule, r.basic.value.0, r.basic.value.1)
  }

  /** 501 for an upgrade, then 413 for the body. */
  ghost predicate LastRefusal(w: World, r: Request, a: Answer) {
    if WebsocketUpgrade(r.header)
    then a == Answer(501, 55, true, "websocket tunneling is not implemented in this release")
    else a == Answer(413, 0, true, "request body too large")
  }

  // ---------------------------------------------------------------- what passes, over histories

  /** What goes on is the client's whole body exactly when reading it did not break off,
      and the limit is below the largest 64-bit number or there is nothing to lose. */
  lemma BodyIsForwardedWhole(w: World, r: Request)
    requires LetThrough(w, r)
    ensures Whole(r.body, Forwarded(w, r).body) <==>
      !r.body.broken && (w.maxBody < MAX_INT64 || r.body.bytes == [])
  {}

  /** These bytes are all the reader had to give, up to its end. */
  predicate Whole(s: Source, bytes: Bytes) {
    bytes == s.bytes && !s.broken
  }

  /** A body whose reading breaks off is forwarded as far as it was read. */
  lemma BrokenBodyIsForwarded(o: Oracle, net: Net)
    ensures var w := World(false, Missing, Missing, NoRule, true, None, "", 10, o, net);
      var r := Request("app", "", "POST", "/", "", map[], None, -1, Source([1, 2], true));
      LetThrough(w, r) && Forwarded(w, r).body == [1, 2] && !Whole(r.body, Forwarded(w, r).body)
  {
    assert ToLower("") == "";
  }

  /** A request that passes every check before the last is too large exactly when its
      declared length is over the limit, or its body is and the limit is below the
      largest 64-bit number; and then it is refused with 413. */
  lemma TooLargeWhen(w: World, r: Request)
    requires w.connected && !(w.store && w.first.Failed?) && RulePasses(w, r) && !WebsocketUpgrade(r.header)
    ensures !LetThrough(w, r) <==>
      r.contentLength > w.maxBody || (w.maxBody < MAX_INT64 && |r.body.bytes| > w.maxBody)
    ensures !LetThrough(w, r) ==> Refusal(w, r) == Answer(413, 0, true, "request body too large")
  {}

  /** The store answers every lookup from this state of the database. */
  ghost predicate AnswersFrom(w: World, s: DB.State, r: Request) {
    var row := DB.Target(s.tunnels, 0, r.hostname);
    var found := if row.Some? then Found(row.value) else Missing;
    && w.store && w.first == found && w.second == found
    && w.rule == if row.Some? && row.value in s.rules then Stored(s.rules[row.value]) else NoRule
  }

  /** The credential of the request is the trimmed last non-blank one given since
      the rule entered its mode. */
  ghost predicate GivesLast(r: Request, applied: seq<Input>) {
    var stint := Stint(applied);
    && (ModeOf(applied) == "basic_auth" ==>
          && r.basic.Some?
          && Trim(r.basic.value.0) == LastGiven(stint, Username)
          && Trim(r.basic.value.1) == LastGiven(stint, Password))
    && (ModeOf(applied) == "shared_secret_header" ==>
          Trim(Get(r.header, LastGiven(stint, HeaderName))) == LastGiven(stint, Secret))
  }

  /** Who passes: after any run of the database, a request for a connected tunnel's
      hostname is forwarded exactly when its address is in the CIDRs of the last
      accepted update, its credential is the last one given, it is no WebSocket
      upgrade and its body fits. */
  lemma {:induction false} WhoPasses(run: seq<DB.Event>, id: int, w: World, r: Request)
    requires Digests(w.o) && Injective(w.o) && w.connected
    requires var s := DB.Exec(w.o, run); id in s.tunnels && s.tunnels[id].hostname == r.hostname && AnswersFrom(w, s, r)
    ensures var applied := Applied(w.o, DB.History(w.o, run, id));
      LetThrough(w, r) <==>
        && FromSome(w.net, LastAllowed(applied), r.clientIP)
        && GivesLast(r, applied)
        && !WebsocketUpgrade(r.header) && BodyFits(w, r)
  {
    var s := DB.Exec(w.o, run);
    var history := DB.History(w.o, run, id);
    DB.Bijection(w.o, run);
    DB.TargetIs(s, id);
    DB.RuleIsHistory(w.o, run, id);
    StoredRuleIp(w.o, w.net, history, r.clientIP);
    CredentialIsLast(w, r, history);
  }

  lemma {:induction false} CredentialIsLast(w: World, r: Request, history: seq<Input>)
    requires Digests(w.o) && Injective(w.o)
    ensures CredentialOk(w, r, RuleAfter(w.o, history)) <==> GivesLast(r, Applied(w.o, history))
  {
    var rule := RuleAfter(w.o, history);
    var user := if r.basic.Some? then r.basic.value else ("", "");
    CredentialHistory(w.o, history, user.0, user.1, Get(r.header, rule.headerName));
    CanonicalIdempotent(LastGiven(Stint(Applied(w.o, history)), HeaderName));
  }

  /** What a call to EnqueueRequest that returns is worth to the handler. */
  function ReplyOf(out: T.Outcome): Option<(int, Header, Bytes)> {
    match out
    case Answered(resp) => Some((resp.status, resp.header, resp.body))
    case _ => None
  }

  /** The call to EnqueueRequest for what is forwarded. */
  function CallFor(f: Forward, chosen: string): T.Request {
    T.Request(chosen, f.verb, f.path, f.query, f.header, f.body)
  }

  /** The service is of this HTTP request, and the reply is what it came to. */
  ghost predicate Serves(w: World, r: Request, sv: Service, reply: (int, Header, Bytes)) {
    && sv.msg.verb == r.verb && sv.msg.path == r.path && sv.msg.query == r.query
    && sv.msg.headers == Flattened(r.header) && sv.msg.body == ReadPast(r.body, w.maxBody).bytes
    && reply.0 == ReplyFor(sv).status && reply.2 == ReplyFor(sv).body && Expands(ReplyFor(sv).headers, reply.1)
  }

  /** From the database and the tunnel to the HTTP reply: after any run of the database
      and any run of the tunnel in which the handler's call returned, a request that
      passes is answered with what the client made of this very request, its status,
      header and body, or with 502 if the call returned without an answer; and one that
      does not pass is refused. The handler meets what Exchange.Handle asks for. */
  lemma {:induction false} HttpReplyIsOwn(run: seq<DB.Event>, id: int, w: World, r: Request,
                                          calls: seq<T.Action>, t: T.CallerId, chosen: string, out: T.Outcome)
    requires Digests(w.o) && Injective(w.o) && w.connected
    requires var s := DB.Exec(w.o, run);
      id in s.tunnels && s.tunnels[id].hostname == r.hostname && AnswersFrom(w, s, r)
    requires T.Run(calls) && t in T.StateAfter(calls).callers && !out.Panicked?
    requires var c := T.StateAfter(calls).callers[t];
      && c.pc == T.Returned(out)
      && c.req == CallFor(Forwarded(w, r), chosen)
    requires w.reply == ReplyOf(out)
    ensures var applied := Applied(w.o, DB.History(w.o, run, id));
      LetThrough(w, r) <==>
        && FromSome(w.net, LastAllowed(applied), r.clientIP)
        && GivesLast(r, applied)
        && !WebsocketUpgrade(r.header) && BodyFits(w, r)
    ensures Sane(w)
    ensures w.reply.Some? ==>
      && (exists sv :: sv in T.StateAfter(calls).served && Serves(w, r, sv, w.reply.value))
      && Relayed(w) == Answer(w.reply.value.0, |w.reply.value.2|, w.reply.value.0 >= 400, "")
      && Written(w) == Some((w.reply.value.1, w.reply.value.2))
    ensures w.reply.None? ==> Relayed(w) == Answer(502, 19, true, "tunnel unavailable") && Written(w) == None
    ensures !LetThrough(w, r) ==> Refusal(w, r).status in {401, 403, 413, 501}
  {
    WhoPasses(run, id, w, r);
    FoundIsPositive(run, w, r);
    if out.Answered? {
      CallServes(w, r, calls, t, chosen, out.resp);
      var sv :| sv in T.StateAfter(calls).served && Serves(w, r, sv, w.reply.value);
      ServedIsWritten(w, r, sv);
    }
    if !LetThrough(w, r) {
      RefusedByRule(run, id, w, r);
    }
  }

  lemma {:induction false} FoundIsPositive(run: seq<DB.Event>, w: World, r: Request)
    requires AnswersFrom(w, DB.Exec(w.o, run), r)
    ensures (w.first.Found? ==> w.first.id > 0) && (w.second.Found? ==> w.second.id > 0)
  {
    DB.Bijection(w.o, run);
  }

  /** A rebuilt header has one value in every field, so all of it is written. */
  lemma ServedIsWritten(w: World, r: Request, sv: Service)
    requires w.reply.Some? && Serves(w, r, sv, w.reply.value)
    ensures CanonicalKeys(w.reply.value.1) && Written(w) == Some((w.reply.value.1, w.reply.value.2))
  {
    ExpandsKeys(ReplyFor(sv).headers, w.reply.value.1);
    assert WithValues(w.reply.value.1) == w.reply.value.1;
  }

  lemma {:induction false} RefusedByRule(run: seq<DB.Event>, id: int, w: World, r: Request)
    requires w.connected && !LetThrough(w, r)
    requires var s := DB.Exec(w.o, run);
      id in s.tunnels && s.tunnels[id].hostname == r.hostname && AnswersFrom(w, s, r)
    ensures Refusal(w, r).status in {401, 403, 413, 501}
  {
  }

  lemma {:induction false} CallServes(w: World, r: Request, calls: seq<T.Action>, t: T.CallerId, chosen: string,
                                      resp: T.Response)
    requires T.Run(calls) && t in T.StateAfter(calls).callers
    requires var c := T.StateAfter(calls).callers[t];
      && c.pc == T.Returned(T.Answered(resp))
      && c.req == CallFor(Forwarded(w, r), chosen)
    ensures exists sv :: sv in T.StateAfter(calls).served && Serves(w, r, sv, (resp.status, resp.header, resp.body))
  {
    TT.Correlation(calls, t, resp);
    OwnServes(w, r, T.StateAfter(calls), t, chosen, resp);
  }

  lemma OwnServes(w: World, r: Request, s: T.State, t: T.CallerId, chosen: string, resp: T.Response)
    requires t in s.callers && TT.OwnAnswer(s.served, s.callers[t], resp)
    requires s.callers[t].req == CallFor(Forwarded(w, r), chosen)
    ensures exists sv :: sv in s.served && Serves(w, r, sv, (resp.status, resp.header, resp.body))
  {
    var c := s.callers[t];
    var i :| 0 <= i < |s.served| && s.served[i].msg == T.MsgOf(c.id, c.req)
      && Expands(s.served[i].msg.headers, s.served[i].header) && T.Decodes(ReplyFor(s.served[i]), resp);
    assert Serves(w, r, s.served[i], (resp.status, resp.header, resp.body));
  }

  /** When no tunnel has the hostname, no rule governs a connection under it. */
  lemma {:induction false} WithoutTunnelRow(run: seq<DB.Event>, w: World, r: Request)
    requires w.connected
    requires AnswersFrom(w, DB.Exec(w.o, run), r)
    requires DB.Unhosted(DB.Exec(w.o, run).tunnels, r.hostname)
    ensures LetThrough(w, r) <==> !WebsocketUpgrade(r.header) && BodyFits(w, r)
  {
    DB.NoTarget(DB.Exec(w.o, run).tunnels, r.hostname);
  }
}
