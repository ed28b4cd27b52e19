/** The client end: one request at a time is tried against the local app with a
    bounded retry, and exactly one reply goes back (connector.go,
    proxy_local.go). The local app is a function of the local request it is sent
    and of the attempt, different for each request served if need be. */
module Connector {
  import opened Text
  import opened Headers

  const MAX_ATTEMPTS := 4
  const BAD_GATEWAY := 502

  /** The request and reply messages of the wire protocol. */
  datatype Msg = Msg(id: string, verb: string, path: string, query: string, headers: WireHeader, body: Bytes)
  datatype Reply = Reply(id: string, status: int, headers: WireHeader, body: Bytes)

  /** What the local app does with one attempt: building or sending the request
      fails, or a response comes, whose body may break off. */
  datatype AppResult =
    | Unreachable
    | Replied(status: int, header: Header, body: Source)

  datatype LocalResult =
    | Served(status: int, header: Header, body: Bytes)
    | TransportError
    | TooLarge

  /** IsIdempotentMethod. */
  predicate Idempotent(verb: string) {
    ToUpper(verb) in {"GET", "HEAD", "OPTIONS"}
  }

  /** The methods that are retried, in any case of their letters. */
  lemma IdempotentIs(verb: string)
    ensures Idempotent(verb) <==> SameLetters(verb, "GET") || SameLetters(verb, "HEAD") || SameLetters(verb, "OPTIONS")
  {
    SameLowerCase(verb, "GET");
    SameLowerCase(verb, "HEAD");
    SameLowerCase(verb, "OPTIONS");
    assert ToUpper("GET") == "GET" && ToUpper("HEAD") == "HEAD" && ToUpper("OPTIONS") == "OPTIONS";
  }

  /** What is put on the local connection for a request. */
  datatype LocalRequest = LocalRequest(verb: string, target: string, header: Header, body: Bytes)

  const DROPPED_HEADERS := {"Connection", "X-Tunnel-Hostname"}

  function Added(header: Header, name: string, values: seq<string>): Header {
    if values == [] then header
    else header[name := (if name in header then header[name] else []) + values]
  }

  /** Header.Add for each value of one field. */
  method AddValues(header: Header, k: string, values: seq<string>) returns (r: Header)
    ensures r == Added(header, Canonical(k), values)
  {
    var name := Canonical(k);
    r := header;
    ghost var base := if name in header then header[name] else [];
    for i := 0 to |values|
      invariant r == if i == 0 then header else header[name := base + values[..i]]
    {
      assert (if i == 0 then base else base + values[..i]) + [values[i]] == base + values[..i + 1];
      r := r[name := (if name in r then r[name] else []) + [values[i]]];
    }
    assert values[..|values|] == values;
  }

  /** Copying a header field by field leaves out the fields without values. */
  method CopyHeader(h: Header) returns (r: Header)
    requires CanonicalKeys(h)
    ensures r == map k | k in h && |h[k]| > 0 :: h[k]
  {
    r := map[];
    var todo := h.Keys;
    while todo != {}
      invariant todo <= h.Keys
      invariant r == map k | k in h && k !in todo && |h[k]| > 0 :: h[k]
      decreases todo
    {
      var k :| k in todo;
      r := AddValues(r, k, h[k]);
      assert [] + h[k] == h[k];
      todo := todo - {k};
    }
  }

  /** The fields of a header that have values, without the two that are not passed on. */
  function PassedOn(header: Header): Header {
    map k | k in header && |header[k]| > 0 && k !in DROPPED_HEADERS :: header[k]
  }

  /** What ProxyToLocal puts on the local connection for a request. */
  function LocalOf(localURL: string, m: Msg, header: Header): LocalRequest {
    LocalRequest(m.verb, localURL + m.path + (if m.query != "" then "?" + m.query else ""), PassedOn(header), m.body)
  }

  /** The local request asks for this message: its method and body; the URL followed by
      the path and, if there is a query, by a question mark and the query; and every
      field that has values except the two, unchanged, and no other. */
  ghost predicate AsksFor(r: LocalRequest, localURL: string, m: Msg, header: Header) {
    && r.verb == m.verb && r.body == m.body
    && (m.query == "" ==> r.target == localURL + m.path)
    && (m.query != "" ==> r.target == localURL + m.path + "?" + m.query)
    && "Connection" !in r.header && "X-Tunnel-Hostname" !in r.header
    && (forall k :: k != "Connection" && k != "X-Tunnel-Hostname" ==>
          (k in r.header <==> k in header && header[k] != []))
    && (forall k :: k in r.header ==> k in header && r.header[k] == header[k])
  }

  /** One request does. */
  lemma LocalAsks(r: LocalRequest, localURL: string, m: Msg, header: Header)
    ensures AsksFor(r, localURL, m, header) <==> r == LocalOf(localURL, m, header)
  {
    var asked := LocalOf(localURL, m, header);
    assert m.query != "" ==> localURL + m.path + "?" + m.query == localURL + m.path + ("?" + m.query);
    if AsksFor(r, localURL, m, header) {
      assert r.header == asked.header;
      assert m.query == "" ==> localURL + m.path + "" == localURL + m.path;
      assert r.target == asked.target;
    }
  }

  /** ProxyToLocal up to the call: target URL, copied headers, two removed. */
  method BuildLocalRequest(localURL: string, m: Msg, header: Header) returns (r: LocalRequest)
    requires Expands(m.headers, header)
    ensures r == LocalOf(localURL, m, header) && AsksFor(r, localURL, m, header)
  {
    ExpandsKeys(m.headers, header);
    var target := localURL + m.path;
    if m.query != "" {
      target := target + "?" + m.query;
    }
    var copied := CopyHeader(header);
    copied := copied - {"Connection"} - {"X-Tunnel-Hostname"};
    r := LocalRequest(m.verb, target, copied, m.body);
    LocalAsks(r, localURL, m, header);
  }

  /** ProxyToLocal after the call. Below the largest limit, a response is served
      exactly when its body is whole and within the limit; one over the limit is
      too large even if it would break off later. At the largest limit every
      response is served with an empty body. */
  function Classify(app: AppResult, limit: Limit): (r: LocalResult)
    ensures r.Served? ==> app.Replied? && r.status == app.status && r.header == app.header && r.body <= app.body.bytes
    ensures limit < MAX_INT64 ==>
              && (r.Served? <==> app.Replied? && !app.body.broken && |app.body.bytes| <= limit)
              && (r.Served? ==> r.body == app.body.bytes)
              && (r.TooLarge? <==> app.Replied? && |app.body.bytes| > limit)
    ensures limit == MAX_INT64 ==> (r.Served? <==> app.Replied?) && (r.Served? ==> r.body == [])
  {
    match app
    case Unreachable => TransportError
    case Replied(status, header, body) =>
      var read := ReadPast(body, limit);
      if read.broken then TransportError
      else if |read.bytes| > limit then TooLarge
      else Served(status, header, read.bytes)
  }

  predicate Retryable(r: LocalResult, verb: string) {
    r.TransportError? && Idempotent(verb)
  }

  /** One request served by the client: the message, the header rebuilt from it, the
      configuration, and the application, whose result is a function of the local
      request it gets and of the attempt. */
  datatype Service = Service(msg: Msg, header: Header, url: string, limit: Limit, app: (LocalRequest, nat) -> AppResult)

  /** What attempt k comes to: the application is called with the local request made
      from this message. */
  function Attempt(sv: Service, k: nat): LocalResult {
    Classify(sv.app(LocalOf(sv.url, sv.msg, sv.header), k), sv.limit)
  }

  /** What the application is called with at every attempt of a service is the request
      that asks for its message, and the attempt is what it answers to that. */
  lemma AttemptAsks(sv: Service, k: nat, q: LocalRequest)
    requires AsksFor(q, sv.url, sv.msg, sv.header)
    ensures Attempt(sv, k) == Classify(sv.app(q, k), sv.limit)
  {
    LocalAsks(q, sv.url, sv.msg, sv.header);
  }

  /** The attempt the loop ends with, counted from 0, given that it has reached
      attempt `i`. */
  function LastAttempt(sv: Service, i: nat := 0): (k: nat)
    requires i < MAX_ATTEMPTS
    ensures i <= k < MAX_ATTEMPTS
    ensures forall j :: i <= j < k ==> Retryable(Attempt(sv, j), sv.msg.verb)
    ensures k < MAX_ATTEMPTS - 1 ==> !Retryable(Attempt(sv, k), sv.msg.verb)
    decreases MAX_ATTEMPTS - i
  {
    if Retryable(Attempt(sv, i), sv.msg.verb) && i < MAX_ATTEMPTS - 1 then LastAttempt(sv, i + 1) else i
  }

  /** An error reply has status 502, no header, and the text byte for byte. */
  lemma ErrorReplyIs(id: string, text: string)
    requires forall i :: 0 <= i < |text| ==> text[i] as int < 128
    ensures var r := ErrorReply(id, text);
      && r.id == id && r.status == 502 && r.headers == map[]
      && |r.body| == |text| && forall i :: 0 <= i < |text| ==> r.body[i] as int == text[i] as int
  {}

  function ErrorReply(id: string, text: string): Reply {
    Reply(id, BAD_GATEWAY, map[], Ascii(text))
  }

  /** The reply to a request. */
  function ReplyFor(sv: Service): (r: Reply)
    ensures r.id == sv.msg.id
  {
    match Attempt(sv, LastAttempt(sv))
    case Served(status, header, body) => Reply(sv.msg.id, status, Flattened(header), body)
    case TransportError => ErrorReply(sv.msg.id, "bad gateway")
    case TooLarge => ErrorReply(sv.msg.id, "local response too large")
  }

  /** The retry loop and the reply of Connect's serve loop. `cancelled[i]` says
      that the context ends during the pause after attempt `i`; the loop then
      returns without a reply. */
  method ServeOne(m: Msg, url: string, limit: Limit, app: (LocalRequest, nat) -> AppResult, cancelled: seq<bool>)
    returns (reply: Option<Reply>, attempts: nat, header: Header)
    requires |cancelled| == MAX_ATTEMPTS
    ensures Expands(m.headers, header)
    ensures 1 <= attempts <= 4
    ensures !Idempotent(m.verb) ==> attempts == 1
    // every attempt but the last failed in transport
    ensures var sv := Service(m, header, url, limit, app);
      forall j :: 0 <= j < attempts - 1 ==> Retryable(Attempt(sv, j), m.verb) && !cancelled[j]
    ensures var sv := Service(m, header, url, limit, app);
      reply.None? <==>
        attempts < MAX_ATTEMPTS && Retryable(Attempt(sv, attempts - 1), m.verb) && cancelled[attempts - 1]
    ensures var sv := Service(m, header, url, limit, app);
      reply.Some? ==> attempts == LastAttempt(sv) + 1 && reply.value == ReplyFor(sv)
  {
    header := Expand(m.headers);
    ghost var sv := Service(m, header, url, limit, app);
    var result := TransportError;
    var attempt := 0;
    attempts := 0;
    while attempt < MAX_ATTEMPTS
      invariant 0 <= attempt < MAX_ATTEMPTS && attempts == attempt
      invariant forall j :: 0 <= j < attempt ==> Retryable(Attempt(sv, j), m.verb) && !cancelled[j]
      invariant LastAttempt(sv) == LastAttempt(sv, attempt)
    {
      var local := BuildLocalRequest(url, m, header);
      result := Classify(app(local, attempt), limit);
      attempts := attempts + 1;
      if result.Served? {
        break;
      }
      if !result.TransportError? || !Idempotent(m.verb) || attempt == MAX_ATTEMPTS - 1 {
        break;
      }
      if cancelled[attempt] {
        return None, attempts, header;
      }
      attempt := attempt + 1;
    }
    if result.Served? {
      var headers := Flatten(result.header);
      reply := Some(Reply(m.id, result.status, headers, result.body));
    } else {
      var text := "bad gateway";
      if result.TooLarge? {
        text := "local response too large";
      }
      reply := Some(ErrorReply(m.id, text));
    }
  }

  /** The loop ends with the first success or the last error. */
  lemma RetrySpecification(sv: Service, k: nat)
    requires k == LastAttempt(sv)
    ensures !Idempotent(sv.msg.verb) ==> k == 0
    // a response within the limit is passed on by the first attempt that gets one,
    // provided only retryable failures come before it
    ensures forall i :: 0 <= i < 4 && Attempt(sv, i).Served?
              && (forall j :: 0 <= j < i ==> Retryable(Attempt(sv, j), sv.msg.verb))
              ==> k == i && ReplyFor(sv)
                            == Reply(sv.msg.id, Attempt(sv, i).status, Flattened(Attempt(sv, i).header),
                                     Attempt(sv, i).body)
    // an oversized response is never retried
    ensures forall i :: 0 <= i < 4 && Attempt(sv, i).TooLarge? && i <= k
              ==> k == i && ReplyFor(sv).body == Ascii("local response too large")
    // all four attempts are used only when the first three failed in transport
    ensures k == 3 <==> Idempotent(sv.msg.verb) && forall j :: 0 <= j < 3 ==> Attempt(sv, j).TransportError?
    ensures k < 3 && Attempt(sv, k).TransportError? ==> !Idempotent(sv.msg.verb)
    ensures (forall i :: 0 <= i < 4 ==> Attempt(sv, i).TransportError?)
              ==> ReplyFor(sv) == ErrorReply(sv.msg.id, "bad gateway")
  {}
}
