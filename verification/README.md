# fwdx: a verified model of the tunnel server

fwdx forwards public HTTP requests over a gRPC stream to a client that serves them
from a local application. This project models the parts of it where the behaviour
is hard to see from one function, and proves what they keep over every run.

**The multiplexer** (`Tunnel`, `TunnelInv`, `TunnelTheorems`). One connection is a
labelled transition system: any number of `EnqueueRequest` callers and `Close`
calls, the sender goroutine, the receive loop, two FIFO wires and the client. An
action is one atomic step: taking a lock, a critical section that ends by releasing
it, or one channel operation. The check of `closed` and the send are separate steps,
and a send on the closed channel has its own outcome, `Panicked`. A state also
carries history that no step reads (who chose an id, what was accepted, how a reply
ended). `TunnelInv` holds one inductive invariant over all interleavings, with one
lemma per step; `TunnelTheorems` draws from it the properties of every run. The local
application is a function of the local request and the attempt, chosen anew for each
request the client serves; what was served is part of the history, so an answer can be
traced to the service of its caller's own message. `Order` holds first occurrences and
order of ids.

**The object** (`ConnRuns`, `Conn`, `Registry`). `GrpcTunnelConn` and `Registry` are
classes whose methods update their fields. Each method of `GrpcTunnelConn` extends a
ghost run of the transition system by its own steps, and `Valid()` says that the
object's fields are the state that run ends in. Each contract gives the whole state the
run leads to, so calls of different handlers can be combined, and the theorems about
runs hold of the object after any sequence of calls.

**The server** (`Server`, `ServerInv`, `ServerTheorems`, `ServerProgress`). Registry, its read-write
lock with writers and readers, streams with their registration and deferred teardown,
admin disconnects, and any number of connections, each of which is the system of
module `Tunnel`.

**The client end** (`Connector`, `Headers`). The bounded retry loop, error
substitution, bounded reads in 64-bit arithmetic, and the header flattening of both
directions.

**Rules and the gate** (`AccessRules`, `StoreSpec`, `Store`, `Gate`). Merging partial
rule updates, the tables with their uniqueness and foreign keys, log retention, and
the handler that interprets a stored rule. `Gate.WhoPasses` composes them: which
requests are forwarded, in terms of the history of database operations alone; and
`Gate.HttpReplyIsOwn` adds the tunnel: what such a request is answered with.

**Statistics** (`StatsSpec`, `Stats`). Incremental aggregates through pointers,
eviction and sorting in `Snapshot`, in-place compaction in `RecentErrors`, each
against folds over the history of records.

`Text` holds byte and character helpers (text is ASCII) and the bounded read.

Things the code does that a caller may not expect, each with its exact condition:

- A caller about to send panics exactly when a `Close` closed the channel after the
  caller's own check (`PanicWindow`; `PanicIsPossible` is such a run).
- A stream's teardown works by hostname: it closes another stream's connection
  exactly when a Disconnect, a Register or another teardown took its own entry away
  earlier in the run and the hostname is taken again (`TeardownEvictsOther`;
  `DisconnectBreaksOwnership` is such a run).
- One counter triggers log retention for all tunnels, so a tunnel has exactly the rows
  its last enforcement left plus the inserts since, and exceeds a bound exactly when
  those inserts outnumber the room left (`RetentionExact`, `ExceedsWhen`). That is at
  most 10099 rows when one tunnel has all the traffic, and grows without end for a
  tunnel whose records never fall on a hundredth insert (`SharedCounterEvades`).
- A request body is not forwarded whole exactly when reading it breaks off, or it is not
  empty and the size limit is the largest 64-bit number, for which the bounded read
  returns nothing (`BodyIsForwardedWhole`, `BrokenBodyIsForwarded`, `Connector.Classify`).
- Joined header values can be split again exactly when no value holds a comma or has
  white space at either end (`RecoverableWhen`); in general two or more lines cross as
  one line does, so no reading brings Set-Cookie lines back (`LinesAreLost`).

Assumptions are `requires` clauses: ids that callers choose are new and not empty
(`FreshStep`), a digest is not empty and, where named, injective, and stored ids are
positive. Durations and sizes given to `Record` are not negative.

## Model

| member | source | states |
|---|---|---|
| TunnelTheorems.Correlation | internal/server/grpc_tunnel.go:50-107 | Whenever a call returns a response, it carries the caller's id and is rebuilt from the reply to a service of exactly that caller's message (id, method, path, query, headers, body), that is, from the results of calling the application with the local request made from it, over all interleavings, late and repeated replies |
| TunnelTheorems.AnswerIsFunction | internal/tunnel/connector.go:118-198 | With one configuration and one application function throughout, and canonical keys, the response is a closed function of the caller's own message, whoever else uses the connection |
| TunnelTheorems.ServedOnceInOrder | internal/tunnel/connector.go:118-198 | In every run each request is served at most once, in the order of acceptance, so one service is behind a caller's answer |
| TunnelTheorems.NoStrandedWaiter | internal/server/grpc_tunnel.go:91-127 | Once any Close has returned (or a caller has been refused), every caller past its send has a value in its channel, or the receive loop holds its reply and the very next step fills it |
| TunnelTheorems.Conservation | internal/server/grpc_tunnel.go:245-280 | Until a stream error, repeated replies included, the accepted ids in order are the pipeline places from resolved to send buffer without later copies, each id once; without repeats there are no copies |
| TunnelTheorems.RepliesInOrder | internal/server/grpc_tunnel.go:253-280 | In every run, with repeats, losses and failures, replies first arrive in the order the requests were accepted, and without gaps until a stream error |
| TunnelTheorems.DeliveredAtMostOnce | internal/server/grpc_tunnel.go:269-278 | An id is delivered at most once in every run, even when the client repeats replies and the stream breaks |
| TunnelTheorems.QuiescentAnswered | internal/server/grpc_tunnel.go:91-106 | Without a stream error, with empty buffers and wires and idle loops, every waiting caller has a value, and without a Close that value is rebuilt from the reply to a service of its own message |
| TunnelTheorems.ClosedAtMostOnce | internal/server/grpc_tunnel.go:110-127 | However many Close calls race, the send channel is closed at most once |
| TunnelTheorems.BufferBounded | internal/server/grpc_tunnel.go:210-210 | The send buffer never holds more than 64 messages |
| TunnelTheorems.PanicWindow | internal/server/grpc_tunnel.go:50-95 | A caller at its send meets a closed channel if and only if some Close closed it after that caller's check |
| TunnelTheorems.IdIsChosen | internal/server/grpc_tunnel.go:58-60 | In every run a call that has an id took it at its own check: the id of its request, or the new one when the request has none; and no two calls share one |
| TunnelTheorems.CanSendWhen | internal/server/grpc_tunnel.go:91-95 | In every run a caller at its send can send exactly when no Close has closed the channel and the buffer holds fewer than 64 messages, panics exactly when one has, and blocks exactly at 64 |
| TunnelTheorems.CallerMayGiveUp | internal/server/grpc_tunnel.go:93-105 | A caller may give up at either select, whatever the rest does |
| TunnelTheorems.StreamMayFail | internal/server/grpc_tunnel.go:240-280 | Each operation of the stream may fail, the wires may lose any tails, and the client may send any reply again |
| TunnelTheorems.LockHolderCanStep | internal/server/grpc_tunnel.go:51-127 | Whenever closedMu or pendingMu is held as the invariant says, the named next action of a holder is enabled |
| TunnelInv.RunInv | internal/server/grpc_tunnel.go:50-280 | The whole invariant (locks, ownership of ids, pending, what travels, sweeping, order) holds after every run |
| TunnelInv.StepKeeps | internal/server/grpc_tunnel.go:50-280 | Every single step of a caller, a Close, the loops, the client or the wires keeps the invariant |
| TunnelInv.SweepOneKeeps | internal/server/grpc_tunnel.go:119-124 | Waking one entry, in any order, keeps what a waiting caller relies on |
| TunnelInv.RecvHandKeeps | internal/server/grpc_tunnel.go:273-278 | Filling a channel after its entry was removed keeps the invariant, full or not |
| ConnRuns.CloseAllRun | internal/server/grpc_tunnel.go:110-127 | An uninterrupted first Close is a run of the steps of the system, and leads to the state in which every registered caller without a reply is woken |
| ConnRuns.SweepRun | internal/server/grpc_tunnel.go:119-124 | The sweep, whatever order the map is visited in, is a run with one result |
| ConnRuns.DeliverRun | internal/server/grpc_tunnel.go:269-278 | One reply taken from the wire is a run that removes its entry and fills its channel, with any header that can be rebuilt from it, unless there is none or it is full |
| ConnRuns.CheckRun | internal/server/grpc_tunnel.go:51-60 | The locked check is a run that refuses on a closed connection, and otherwise leaves the caller registering under the id of its request, or under the new one when that has none |
| ConnRuns.AnswerIsPossible | internal/server/grpc_tunnel.go:50-107 | The counterpart of Correlation: whatever the application makes of the local request built from a caller's own message, under its own id or a new one, some run serves that message and returns that answer to that caller |
| ConnRuns.PanicIsPossible | internal/server/grpc_tunnel.go:51-95 | For every request, with an id or a new one, a run in which a Close between check and send makes the send panic |
| Conn.GrpcTunnelConn.CheckOpen | internal/server/grpc_tunnel.go:51-60 | Tells whether the connection is open and refuses when it is not; otherwise the id is the one of the request, or the new one when it has none, and the caller has it |
| Conn.GrpcTunnelConn.Register | internal/server/grpc_tunnel.go:61-90 | Registers the caller under its id and builds the message with that id and the method, path, query, flattened header and body of its own request, with every other caller unchanged |
| Conn.GrpcTunnelConn.Push | internal/server/grpc_tunnel.go:91-95 | Appends the message, or blocks at 64, or panics on the closed channel, with nothing else of the system changed |
| Conn.GrpcTunnelConn.Await | internal/server/grpc_tunnel.go:99-101 | Takes the value in the caller's channel, if there is one, and the outcome that follows from it |
| Conn.GrpcTunnelConn.Abandon | internal/server/grpc_tunnel.go:93-105 | A cancelled or timed-out caller leaves without an answer, from either select, with nothing else changed |
| Conn.GrpcTunnelConn.Cleanup | internal/server/grpc_tunnel.go:66-70 | Removes the caller's id, and whoever returns with an answer has the answer to its own message |
| Conn.GrpcTunnelConn.Close | internal/server/grpc_tunnel.go:110-127 | The first call closes the channel and wakes exactly the registered calls without a reply, a later one changes nothing; no caller is moved |
| Conn.GrpcTunnelConn.Sweep | internal/server/grpc_tunnel.go:119-124 | The loop over pending fills exactly the empty channels of registered callers with nil |
| Conn.GrpcTunnelConn.Rebuild | internal/server/grpc_tunnel.go:259-268 | The response has the reply's id, status and body, and a header with one value under each canonical key, from some entry of the reply |
| Conn.GrpcTunnelConn.LookUp | internal/server/grpc_tunnel.go:269-272 | The channel registered for the reply is found and its entry removed |
| Conn.GrpcTunnelConn.HandOver | internal/server/grpc_tunnel.go:273-278 | The channel found is filled exactly when it is there and empty, with every other channel unchanged |
| Conn.TwoHandlersRace | internal/server/grpc_tunnel.go:50-127 | Two handlers and a Close on one object, each with an id or a new one, as long as the two are different: both pass the check, and the send of each meets the closed channel |
| Conn.GrpcTunnelConn.TakeForSending | internal/server/grpc_tunnel.go:245-251 | The sender takes the oldest message, stops once the channel is closed and empty, and otherwise goes on waiting |
| Registry.Registry.Register | internal/server/registry.go:17-24 | Replaces the entry of the hostname and closes the connection it replaces |
| Registry.Registry.RegisterIfAbsent | internal/server/registry.go:28-36 | Succeeds exactly when the hostname is free, otherwise nothing changes |
| Registry.Registry.Unregister | internal/server/registry.go:38-45 | Closes and removes whatever is registered under the hostname |
| Registry.Registry.Disconnect | internal/server/registry.go:48-57 | As Unregister, and tells whether there was an entry |
| ServerTheorems.GetReturnsUsable | internal/server/registry.go:59-63 | In every run, a call to Get inside its read lock finds none, or a connection of a live stream with that hostname, open unless that stream is between its deferred Close and its Unregister |
| Registry.Registry.List | internal/server/registry.go:66-74 | The remote address of every registered hostname |
| Registry.Registry.Teardown | internal/server/grpc_tunnel.go:224-226 | The stream's own connection ends closed and its hostname free, whoever held it |
| ServerTheorems.ConnectionsAreTunnelRuns | internal/server/grpc_tunnel.go:147-280 | Each connection of the whole server is at every moment in a state some run of the connection system leads to, so all its theorems apply |
| ServerTheorems.Ownership | internal/server/registry.go:28-45 | Without Disconnect and overwriting Register, the registry maps a hostname to a connection exactly while its stream is between registration and Unregister, and a teardown evicts only its own connection |
| ServerTheorems.OneStreamPerHost | internal/server/registry.go:28-36 | In such runs a hostname has at most one live stream |
| ServerTheorems.OwnershipUnlessOusted | internal/server/registry.go:17-57 | In every run, a connection holds its entry exactly when its stream is live and no earlier Disconnect, Register or teardown of the run has taken it away |
| ServerTheorems.TeardownEvictsOther | internal/server/registry.go:38-45 | A teardown is about to close another stream's connection if and only if an earlier action of the run took its own entry away and the hostname is taken again |
| ServerTheorems.OustedHistory | internal/server/registry.go:17-57 | That a connection has lost its entry is that an earlier action of the run was the end of a Disconnect, of an Unregister or of a replacing Register on it |
| ServerTheorems.EntryLeavesWhen | internal/server/registry.go:17-57 | In every run, an action removes a registry entry or gives it to another connection if and only if it is one of those three on the connection registered there |
| ServerTheorems.DisconnectBreaksOwnership | internal/server/admin_ui.go:300-300 | A run in which an admin disconnect and a reconnect let the first stream's teardown evict the second, serving stream |
| ServerTheorems.RegisteredMeansUsable | internal/server/registry.go:17-57 | In every run, whenever nobody holds the registry's write lock, a closed connection in it belongs to a stream between its deferred Close and its Unregister |
| ServerTheorems.LockOrder | internal/server/registry.go:17-74 | Every thread, readers of the registry included, takes Registry.mu, closedMu, pendingMu in strictly increasing order, across all connections |
| ServerTheorems.NoDeadlock | internal/server/registry.go:17-74 | Whenever some lock of the server is held, for reading or writing, some thread that holds a lock can step |
| ServerProgress.OwnStep | internal/server/registry.go:17-57 | Every step of a thread that holds a lock lowers the measure of what it has left to do before it holds none |
| ServerProgress.OthersStep | internal/server/grpc_tunnel.go:62-64 | No step of another thread raises that measure, except that registering a call adds one |
| ServerProgress.LocksAreReleased | internal/server/registry.go:17-57 | While a thread holds locks without a break, it takes fewer steps than the measure when it began plus the calls registered since, so no lock is held for good |
| ServerInv.RunOk | internal/server/grpc_tunnel.go:213-231 | The invariant of registry, streams, admins and connections holds after every run |
| ServerInv.StepKeeps | internal/server/grpc_tunnel.go:213-231 | Every registry, admin and inner step keeps it |
| Headers.Flatten | internal/server/grpc_tunnel.go:72-77 | In any visiting order the loop yields one joined value for each non-empty list |
| Headers.FlattenedIs | internal/server/grpc_tunnel.go:72-77 | A field crosses exactly when it has a value, and then as its values in order with a comma and a space between any two |
| Headers.Expand | internal/server/grpc_tunnel.go:259-262 | The rebuilt header has one value under each canonical key, from some entry of the wire map whose key canonicalises to it |
| Headers.CanonicalIs | internal/server/grpc_tunnel.go:259-262 | The canonical name is the one that is the same up to case, with no lower case letter at the start of a part and no upper case letter elsewhere |
| Headers.ExpandsCanonical | internal/server/grpc_tunnel.go:259-262 | With canonical keys there is exactly one rebuilt header, that of the wire map |
| Headers.JoinKeepsElements | internal/tunnel/connector.go:180-185 | Splitting the joined value at commas gives the elements of all values in order (section 5.3 of RFC 9110) |
| Headers.CrossingIsStable | internal/server/grpc_tunnel.go:72-77 | With canonical keys, one crossing in any visiting orders keeps every element list under comma splitting and makes fields single-valued, a second one changes nothing |
| Headers.RecoverableWhen | internal/tunnel/connector.go:180-185 | The original list of values can be read back by splitting if and only if no value holds a comma or has white space at an end |
| Headers.LinesAreLost | internal/tunnel/connector.go:180-185 | For every header, field and two or more values, the lines and the one joined line differ and cross as the same wire map, so lines that must not be combined (Set-Cookie, the exception of RFC 9110) cannot be brought back by any reading |
| Connector.CopyHeader | internal/tunnel/proxy_local.go:77-81 | Copying value by value keeps exactly the fields that have values |
| Connector.BuildLocalRequest | internal/tunnel/proxy_local.go:68-83 | The local request has the message's method and body; its target is the URL and the path, followed, exactly when there is a query, by a question mark and the query; it has neither Connection nor X-Tunnel-Hostname, every other field that has values with those values, and no other field |
| Connector.LocalAsks | internal/tunnel/proxy_local.go:68-83 | There is one such local request for a message and header |
| Connector.AttemptAsks | internal/tunnel/proxy_local.go:68-105 | What an attempt comes to, and so every answer in the theorems about runs, is what the application makes of the local request so described |
| Connector.IdempotentIs | internal/tunnel/proxy_local.go:54-61 | The methods that are retried are GET, HEAD and OPTIONS, in any case of their letters |
| Connector.ErrorReplyIs | internal/tunnel/connector.go:165-178 | An error reply has the id of the request, status 502, no header, and the text byte for byte |
| Connector.Classify | internal/tunnel/proxy_local.go:85-105 | Below the largest limit a response is served exactly when whole and within the limit, and too large exactly when over it; at the largest limit the body is lost |
| Connector.ServeOne | internal/tunnel/connector.go:133-198 | The header is rebuilt, the application is called with the local request made from this message, at most four times and once for methods that are not idempotent; a reply unless the context ends during a pause, and then the specified one |
| Connector.LastAttempt | internal/tunnel/connector.go:147-164 | The attempt the loop ends with, as a function of what the application does with the message's local request: all before it failed in transport, and it is final |
| Connector.RetrySpecification | internal/tunnel/connector.go:145-178 | The reply is that of the first success reached, oversized responses are never retried, four attempts are used exactly when the first three fail in transport |
| Text.ReadPast | internal/server/proxy.go:170-182 | The read one byte past the limit tells oversized from exact, loses nothing within the limit, and reads nothing at the largest 64-bit limit |
| Text.TrimIs | internal/server/store.go:947-1000 | The trimmed text is the one that is left when white space, and nothing else, is taken from both ends until none is there |
| Text.WhiteSpace | internal/server/store.go:947-1000 | Which characters are white space |
| Text.CaseTable | internal/server/store.go:1018-1027 | Upper and lower case map the two alphabets letter by letter and change nothing else |
| Text.SameLowerCase | internal/server/proxy.go:33-38 | Two texts have one lower-case form exactly when they are the same up to the case of letters |
| Text.SplitJoin | internal/server/store.go:1018-1027 | Joining undoes splitting, and no part holds the separator |
| Text.SplitHead | internal/server/proxy.go:256-256 | The first part is all before the first separator |
| AccessRules.CanonicalHeaderKey | internal/server/store.go:1018-1027 | The split-and-join loop yields the form net/http files the trimmed name under |
| AccessRules.PartsAreCanonical | internal/server/store.go:1018-1027 | Lower-casing, splitting, capitalising and joining equals positional canonicalisation |
| AccessRules.ParseAllowed | internal/server/store.go:947-957 | Accepts exactly the lists whose trimmed non-blank entries all parse, keeps them in order, and otherwise names the first that does not |
| AccessRules.CleanedIs | internal/server/store.go:947-957 | Every CIDR is kept trimmed or, when blank, dropped, each by itself and in order |
| AccessRules.FirstBadIs | internal/server/store.go:952-954 | The CIDR named in the error does not parse, and all before it do |
| AccessRules.Validate | internal/server/store.go:933-997 | Every mode, default and merged rule, and for a refused update which error is returned, against the specification that the rows below pin down |
| AccessRules.RequestedModeIs | internal/server/store.go:934-941 | The mode is the one named, trimmed and in lower case, else the one stored, else public |
| AccessRules.RefusedBecause | internal/server/store.go:942-997 | Each error, by its text, has its own cause: an unknown mode, the first bad CIDR, then a name and then a secret that is neither given nor stored; without one the update is accepted |
| AccessRules.ModeIs | internal/server/store.go:934-941 | The mode of a history is the one named by the last update that names one, public if none does |
| AccessRules.StintIs | internal/server/store.go:934-997 | The updates since the rule entered its mode are those from the one that entered it |
| AccessRules.LastGivenIs | internal/server/store.go:962-992 | The credential in force is the one of the last update that gives a non-blank one |
| AccessRules.GivenIs | internal/server/store.go:962-992 | What an update gives for a field is its own input for that field, trimmed |
| AccessRules.MergeDescribed | internal/server/store.go:933-997 | Updating the rule a history describes is accepted exactly when the longer history stays complete and its CIDRs parse, and gives the rule that it describes |
| AccessRules.RuleIsDescribed | internal/server/store.go:736-745 | After any run of updates the stored rule is the one its accepted updates describe, in its mode's normal form, and every stored CIDR parses |
| AccessRules.AcceptedWhen | internal/server/store.go:933-997 | An update is accepted if and only if its mode is known, its CIDRs parse, and the mode is public, unchanged, or given with both credentials |
| AccessRules.CredentialHistory | internal/server/store.go:1004-1016 | A credential is accepted if and only if it is, trimmed, the last non-blank one given since the rule entered its mode |
| StoreSpec.Bijection | internal/server/store.go:125-183 | After any run every tunnel has one rule and every rule a tunnel, names and hostnames are unique, every log has a tunnel |
| StoreSpec.IdsNeverReused | internal/server/store.go:125-138 | Over any two moments of a run, an id given out and gone at the first is gone at the second |
| StoreSpec.OneTunnelPerId | internal/server/store.go:125-138 | Whoever has an id at two moments of a run has it throughout, with one name and hostname |
| StoreSpec.LiveWhen | internal/server/store.go:358-402 | Over any run an id is live if and only if an earlier creation gave it out, with its name and hostname free, and no later deletion names that tunnel; and then the tunnel has that creation's name and hostname |
| StoreSpec.CreateAdds | internal/server/store.go:358-379 | A creation adds its tunnel with the public rule under a new id, and changes nothing exactly when some tunnel has its name or its hostname |
| StoreSpec.DeleteRemoves | internal/server/store.go:399-402 | After a deletion no tunnel has the name; every tunnel with another name is there with its name, hostname, rule and rows; no rule and no log of the removed one is left |
| StoreSpec.InsertFiles | internal/server/store.go:449-487 | A record becomes one new row of the tunnel it names, or of the one with its hostname when it names none, and every hundredth enforces the retention; without such a tunnel nothing changes |
| StoreSpec.LookupFindsInserted | internal/server/store.go:901-907 | The lookup by name or hostname finds the row just inserted and no other |
| StoreSpec.TargetIs | internal/server/store.go:816-823 | The lookup by hostname of a live tunnel answers that tunnel |
| StoreSpec.RuleIsHistory | internal/server/store.go:736-745 | The rule of a live tunnel is the history of the updates addressed to it since it was created, whatever happens to others |
| StoreSpec.EnforcementKeepsNewest | internal/server/store.go:825-837 | Enforcement keeps at most 10000 rows, all unexpired and the highest in stored-key order, drops a row only when expired or when the 10000 are full, and leaves other tunnels alone |
| StoreSpec.RetentionBound | internal/server/store.go:449-487 | A tunnel has at most 10000 rows plus the inserts since its last enforcement |
| StoreSpec.RetentionExact | internal/server/store.go:449-487 | A live tunnel has exactly the rows its last enforcement left (the unexpired ones up to the limit) plus the inserts since |
| StoreSpec.ExceedsWhen | internal/server/store.go:449-487 | A live tunnel exceeds a bound if and only if its inserts since enforcement outnumber the room that enforcement left; exceeding 10099 takes a hundred of them |
| StoreSpec.SinceIsHits | internal/server/store.go:483-485 | With one tunnel's traffic, the inserts since enforcement are the counter modulo 100 |
| StoreSpec.SingleTunnelBound | internal/server/store.go:449-487 | One tunnel with all the traffic never has more than 10099 rows |
| StoreSpec.SharedCounterEvades | internal/server/store.go:483-485 | For every n there is a run of n unexpired inserts over two tunnels that leaves one with n minus a hundredth of n rows |
| StoreSpec.NewestExists | internal/server/store.go:829-836 | A choice of newest rows exists for every set of rows and limit |
| Store.Store.CreateTunnel | internal/server/store.go:358-379 | Inserts tunnel and public rule or, when name or hostname is taken, neither |
| Store.Store.UpsertRuleByLookup | internal/server/store.go:901-907 | Writes the merged rule to a row the lookup finds, or fails without change |
| Store.Store.UpsertRule | internal/server/store.go:908-931 | Writes the merged rule, or fails without change on a refused input or a missing tunnel |
| Store.Store.UpsertTunnelAccessRule | internal/server/store.go:736-745 | Merges with the stored rule of the tunnel, and changes nothing on failure |
| Store.Store.DeleteTunnelByName | internal/server/store.go:399-402 | Leaves exactly the tunnels with another name, unchanged, and the rules and logs of those |
| Store.Store.TunnelIdByHostname | internal/server/store.go:816-823 | The tunnel with the hostname, 0 exactly when there is none |
| Store.Store.InsertRequestLog | internal/server/store.go:449-487 | Files the record under its tunnel, drops it silently without one, fails for a missing id, and enforces on every hundredth insert |
| Store.Store.EnforceLogRetention | internal/server/store.go:825-837 | The two deletes leave exactly the newest unexpired rows of the tunnel |
| Store.NewestIds | internal/server/store.go:829-836 | The limit newest rows, or all when there are fewer |
| Gate.HostWithoutPort | internal/server/proxy.go:217-230 | The bracketed part up to the first closing bracket, or the longest prefix without a colon |
| Gate.PeerTrusted | internal/server/proxy.go:271-278 | Whether some trusted prefix contains the peer |
| Gate.GetIsFirst | internal/server/proxy.go:255-260 | A header lookup gives the first value filed under the canonical name, or nothing |
| Gate.ResolveClientIP | internal/server/proxy.go:246-269 | The port is split off the peer; forwarding headers count only for a trusted peer and only when they hold an address, the first entry of X-Forwarded-For before X-Real-Ip |
| Gate.AllowedByIP | internal/server/proxy.go:280-295 | No list, or an address that parses and lies in some entry that parses |
| Gate.StoredRuleIp | internal/server/proxy.go:280-295 | On any rule written through the store the check is: no CIDR, or the address in the union of the stored ones |
| Gate.Exchange.Handle | internal/server/proxy.go:51-215 | One answer and one record of it on every path, under the tunnel and the length given; forwarded exactly when the request is let through, with the request's own method, path, query, header and the body as read, and then the tunnel's status, header and body relayed; otherwise the answer of the first failing check |
| Gate.Exchange.RefuseUnconnected | internal/server/proxy.go:101-123 | Info page, unavailable or not found for a hostname without a connection |
| Gate.Exchange.CheckRule | internal/server/proxy.go:132-162 | Passes exactly when the governing rule admits address and credential |
| Gate.Exchange.Proceed | internal/server/proxy.go:164-213 | Refuses upgrades and large bodies, else forwards once, with the request's method, path, query and header and the body as read, and relays the reply |
| Gate.RefusalIs | internal/server/proxy.go:83-182 | Each refusal has its own status, text and size, and its cause is the first check, in the order of the code, that fails: 403 for the address before 401 for the credential before 501 before 413 |
| Gate.WebsocketIs | internal/server/proxy.go:33-38 | An upgrade is told by the word websocket in Upgrade and upgrade anywhere in Connection, in any case of their letters |
| Gate.BodyIsForwardedWhole | internal/server/proxy.go:170-190 | The client's whole body goes on if and only if reading it did not break off, and the limit is below the largest 64-bit number or the body is empty |
| Gate.BrokenBodyIsForwarded | internal/server/proxy.go:176-190 | A request whose body breaks off and whose read part is forwarded as if it were the whole |
| Gate.TooLargeWhen | internal/server/proxy.go:170-182 | A request that passes all other checks is refused, with 413, if and only if its declared length is over the limit, or its body is and the limit is below the largest 64-bit number |
| Gate.WhoPasses | internal/server/proxy.go:125-195 | After any run of database operations, a request for a connected tunnel is forwarded if and only if its address is in the last accepted CIDRs, its credential is the last one given, it is no upgrade and its body fits |
| Gate.HttpReplyIsOwn | internal/server/proxy.go:125-213 | From database and tunnel to the HTTP reply: who passes; that the status, header and body written are those the client made of this very HTTP request, or 502 when the call returned without an answer; that whoever does not pass is refused with 401, 403, 413 or 501; and that the handler's own requirements are met |
| Gate.WithoutTunnelRow | internal/server/proxy.go:125-162 | Without a tunnel row for the hostname, no rule governs a live connection |
| StatsSpec.EntriesAreFolds | internal/server/stats.go:49-85 | Over any run, exactly the hosts with records since their entry was created have an entry, and counts, sums, maximum and average are folds over those records |
| StatsSpec.FoldsOfOne | internal/server/stats.go:65-84 | What one record adds to each count and sum |
| StatsSpec.FoldsAdd | internal/server/stats.go:65-84 | The folds of two runs of records add up |
| StatsSpec.SinceIs | internal/server/stats.go:60-106 | The records an entry is made of: its own host's, starting over at a snapshot that finds the host inactive and unseen for more than ten minutes |
| StatsSpec.AddressIsLast | internal/server/stats.go:78-80 | The address of an entry is the last non-empty one a record or a snapshot gave |
| StatsSpec.LastAddrIs | internal/server/stats.go:78-97 | The last record or snapshot of a run to name a non-empty address for the host decides it, if the entry is as old |
| StatsSpec.NoLastAddr | internal/server/stats.go:78-97 | There is none when all that named one are older than the entry |
| StatsSpec.AverageBelowMax | internal/server/stats.go:69-77 | The average never exceeds the maximum |
| StatsSpec.SnapshotShows | internal/server/stats.go:87-106 | A snapshot shows exactly the hosts that are active or were seen within ten minutes, with their folds |
| StatsSpec.ErrorsAreHistory | internal/server/stats.go:116-131 | The filtered list is, in order, exactly the recorded errors later than the greatest cutoff used so far |
| StatsSpec.AllErrorsAre | internal/server/stats.go:81-84 | The errors recorded, record after record, each once with its time |
| StatsSpec.GreatestCutIs | internal/server/stats.go:116-121 | The greatest cutoff is one that a call used, five minutes before its time when it names no window, and none was greater |
| StatsSpec.LaterIs | internal/server/stats.go:122-129 | Each error time is kept or dropped by itself, and kept exactly when it is strictly later than the cutoff |
| StatsSpec.MonotoneIsTimely | internal/server/stats.go:116-131 | A monotone clock is enough for that |
| StatsSpec.RecentErrorsCounts | internal/server/stats.go:116-131 | With a constant window, five minutes by default, a call returns exactly the errors inside the window |
| Stats.HostStat.Bump | internal/server/stats.go:65-84 | The updates through the pointer are the step of the specification |
| Stats.HostStat.Mark | internal/server/stats.go:93-101 | Marks an entry active with its address, or inactive |
| Stats.InsertRow | internal/server/stats.go:112-112 | Inserting a row by hostname keeps the rows strictly ascending |
| Stats.LessTotal | internal/server/stats.go:112-112 | The order of hostnames is total and irreflexive |
| Stats.LessIs | internal/server/stats.go:112-112 | A hostname comes before another exactly when, at the first place where they differ, it ends or has the smaller character |
| Stats.StatsStore.Record | internal/server/stats.go:49-85 | The store's view after a record is the specified one, an empty hostname changes nothing |
| Stats.StatsStore.AppendError | internal/server/stats.go:81-84 | Appends to the error times, with growth of the backing array |
| Stats.StatsStore.Sweep | internal/server/stats.go:92-106 | Deleting while looping leaves exactly the marked entries that have not expired |
| Stats.StatsStore.Rows | internal/server/stats.go:108-113 | Returns exactly the entries' rows in strictly ascending order of hostname |
| Stats.StatsStore.Snapshot | internal/server/stats.go:87-114 | Both together, with the error times untouched |
| Stats.StatsStore.RecentErrors | internal/server/stats.go:116-131 | The in-place compaction keeps exactly the later times in order and returns their number |

## Left out

- gRPC, TLS, HTTP serving and dialing, protobuf encoding: the stream is two reliable FIFO wires that may break and lose their tails. Other message kinds on the stream are ignored by both loops and are not modelled.
- Registration handshake before `RegisterIfAbsent` (agent lookup, tunnel assignment): a stream arrives with its hostname.
- `GrpcTunnelConn` interleaved inside one critical section or inside `Close`: the class executes each as one method; the finer interleavings are those of module `Tunnel`, which the proofs about runs cover.
- `Registry` as a class is sequential; its interleavings with streams and admins are those of module `Server`. A stream's thread registers either through `RegisterIfAbsent`, as the program does, or through `Register`, which only tests of the repository call.
- Ids that a caller supplies twice: `FreshStep` assumes ids new and non-empty, as UUIDs are.
- Time of timers: a timeout or cancellation may happen at any moment while a caller waits.
- SQL text and SQLite: tables are maps with uniqueness, cascade and ids that are never reused; each statement or transaction is atomic, and database operations other than constraint failures succeed. Reading the stored rule and writing the merged one is one operation.
- Timestamp text: stored times are keys of a total order, so retention is stated in stored-key order, which within one second need not be chronological order.
- SHA-256, hexadecimal text and JSON of the CIDR list: an abstract digest that is never empty, injective where stated, and a list stored as it is.
- `netip`: abstract parsing and containment; the configured list of trusted proxies is given as the prefixes that parse.
- Unicode: text is ASCII for trimming, case mapping and folding.
- `Gate.Exchange` takes the tunnel's reply as given; `Gate.HttpReplyIsOwn` connects it with the tunnel's runs.
- Overflow of the 64-bit counters of the statistics and of the retention counter.
- `lastActiveSeen` of a statistics entry is written and never read, so it is not in the specification.
- `sort.Slice` is an insertion by hostname; hostnames are unique, so the result is the only sorted one.
- Header names that are not valid tokens: `Headers.Canonical` changes their case too, while net/http leaves them alone.
- Map visiting order is arbitrary wherever the code ranges over a map. When two wire keys canonicalise to one, any of their values may win, at each rebuilding anew.
- After the stream breaks, what is put on it later is lost: the wires deliver a prefix of what was sent.
- A waiting writer of the registry's lock does not hold readers back in the model, as it does in Go; this only adds runs.
- A panic of the handler's call ends its exchange without a response and is outside `Gate.HttpReplyIsOwn`.
- The record closure is one log entry; that it feeds `StatsStore.Record` and `InsertRequestLog` with the same values is not modelled.
- A response status that `WriteHeader` itself rejects, the headers and text of refusals and of the info page, and log output.
- `UpsertTunnelStatus`, which only tests call and which makes a tunnel without a rule; `actual_state`, `desired_state` and agent status, which are separate unsynchronised writes and need not agree with the registry.
- OIDC, sessions, domain list, command line, admin pages, local process state and documentation.
