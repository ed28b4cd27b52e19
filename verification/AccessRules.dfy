/** Access rules: how store.go merges a partial update with the stored rule, and
    what any history of updates leaves behind. */
module AccessRules {
  import opened Text
  import Headers

  const PUBLIC := "public"
  const BASIC := "basic_auth"
  const SHARED := "shared_secret_header"

  datatype Rule = Rule(mode: string, username: string, passwordHash: string,
                       headerName: string, secretHash: string, allowed: seq<string>)

  datatype Input = Input(mode: string, username: string, password: string,
                         headerName: string, secret: string, allowed: seq<string>)

  datatype Outcome = Accepted(rule: Rule) | Rejected(error: string)

  /** What the rules code calls and the model does not look into: whether a CIDR
      parses, and the digest of a secret. */
  datatype Oracle = Oracle(parses: string -> bool, digest: string -> string)

  /** A hexadecimal digest is never the empty string. */
  ghost predicate Digests(o: Oracle) {
    forall s :: o.digest(s) != ""
  }

  ghost predicate Injective(o: Oracle) {
    forall a, b :: o.digest(a) == o.digest(b) ==> a == b
  }

  function HashSecret(o: Oracle, raw: string): string {
    o.digest(Trim(raw))
  }

  // ---------------------------------------------------------------- httpCanonicalHeaderKey

  function Capitalised(p: string): string {
    if p == "" then "" else [Upper(p[0])] + p[1..]
  }

  function AllCapitalised(parts: seq<string>): (r: seq<string>)
    ensures |r| == |parts|
    ensures forall i :: 0 <= i < |parts| ==> r[i] == Capitalised(parts[i])
  {
    if parts == [] then [] else [Capitalised(parts[0])] + AllCapitalised(parts[1..])
  }

  /** Character by character: upper case at the start of each part. */
  function Cased(s: string, first: bool): string {
    if s == "" then ""
    else [if first then Upper(s[0]) else s[0]] + Cased(s[1..], s[0] == '-')
  }

  /** The parts of s joined again, with the first one capitalised or left alone and
      the others capitalised. */
  function Rejoined(parts: seq<string>, first: bool): string
    requires parts != []
  {
    Join([if first then Capitalised(parts[0]) else parts[0]] + AllCapitalised(parts[1..]), "-")
  }

  lemma {:induction false} RejoinedIsCased(s: string, first: bool)
    ensures Rejoined(Split(s, '-'), first) == Cased(s, first)
    decreases |s|
  {
    if s != "" {
      var rest := Split(s[1..], '-');
      RejoinedIsCased(s[1..], s[0] == '-');
      if s[0] == '-' {
        RejoinedDash(rest);
        assert Split(s, '-') == [""] + rest;
      } else {
        RejoinedChar(s[0], rest, first);
      }
    }
  }

  lemma RejoinedDash(rest: seq<string>)
    requires rest != []
    ensures Rejoined([""] + rest, true) == Rejoined([""] + rest, false) == "-" + Rejoined(rest, true)
  {
    var all := AllCapitalised(rest);
    assert ([""] + rest)[1..] == rest && ([""] + all)[1..] == all;
    assert all == [Capitalised(rest[0])] + AllCapitalised(rest[1..]);
  }

  lemma RejoinedChar(c: char, rest: seq<string>, first: bool)
    requires rest != []
    ensures Rejoined([[c] + rest[0]] + rest[1..], first) == [if first then Upper(c) else c] + Rejoined(rest, false)
  {
    var parts := [[c] + rest[0]] + rest[1..];
    assert parts[1..] == rest[1..] && parts[0][1..] == rest[0];
    JoinHead([if first then Upper(c) else c], rest[0], AllCapitalised(rest[1..]));
  }

  lemma JoinHead(a: string, b: string, tail: seq<string>)
    ensures Join([a + b] + tail, "-") == a + Join([b] + tail, "-")
  {
    assert ([a + b] + tail)[1..] == tail == ([b] + tail)[1..];
    if tail != [] {
      assert (a + b) + "-" + Join(tail, "-") == a + (b + "-" + Join(tail, "-"));
    }
  }

  lemma {:induction false} CasedAt(s: string, first: bool)
    ensures |Cased(s, first)| == |s|
    ensures forall i :: 0 <= i < |s| ==>
      Cased(s, first)[i] == if (i == 0 && first) || (i > 0 && s[i - 1] == '-') then Upper(s[i]) else s[i]
    decreases |s|
  {
    if s != "" {
      CasedAt(s[1..], s[0] == '-');
      forall i | 0 < i < |s|
        ensures Cased(s, first)[i] == if s[i - 1] == '-' then Upper(s[i]) else s[i]
      {
        assert s[i] == s[1..][i - 1];
      }
    }
  }

  lemma LowerUpper(c: char)
    ensures Upper(Lower(c)) == Upper(c) && (Lower(c) == '-' <==> c == '-')
  {}

  /** Lower-casing, splitting, capitalising the parts and joining gives the canonical
      form that net/http files headers under. */
  lemma PartsAreCanonical(v: string)
    ensures Join(AllCapitalised(Split(ToLower(v), '-')), "-") == Headers.Canonical(v)
  {
    var low := ToLower(v);
    var parts := Split(low, '-');
    assert AllCapitalised(parts) == [Capitalised(parts[0])] + AllCapitalised(parts[1..]);
    RejoinedIsCased(low, true);
    CasedAt(low, true);
    forall i | 0 <= i < |v| ensures Cased(low, true)[i] == Headers.Canonical(v)[i] {
      LowerUpper(v[i]);
      assert low[i] == Lower(v[i]);
      if i > 0 {
        LowerUpper(v[i - 1]);
        assert low[i - 1] == Lower(v[i - 1]);
      }
    }
    assert Cased(low, true) == Headers.Canonical(v);
  }

  method CapitaliseParts(parts: seq<string>) returns (r: seq<string>)
    ensures r == AllCapitalised(parts)
  {
    r := parts;
    for i := 0 to |parts|
      invariant |r| == |parts|
      invariant forall k :: 0 <= k < |parts| ==> r[k] == if k < i then Capitalised(parts[k]) else parts[k]
    {
      var p := parts[i];
      if p != "" {
        var first := ToUpper(p[..1]);
        assert first == [Upper(p[0])];
        r := r[i := first + p[1..]];
      }
    }
  }

  method CanonicalHeaderKey(v: string) returns (key: string)
    ensures key == Headers.Canonical(Trim(v))
  {
    var parts := CapitaliseParts(Split(ToLower(Trim(v)), '-'));
    key := Join(parts, "-");
    PartsAreCanonical(Trim(v));
  }

  // ---------------------------------------------------------------- one update

  function RequestedMode(input: Input, existing: Option<Rule>): string {
    var mode := Trim(ToLower(input.mode));
    if mode != "" then mode
    else if existing.Some? && existing.value.mode != "" then existing.value.mode
    else PUBLIC
  }

  predicate ValidMode(mode: string) {
    mode == PUBLIC || mode == BASIC || mode == SHARED
  }

  /** The CIDRs an update stores: trimmed, without the blank ones, in order. */
  function Cleaned(cidrs: seq<string>): (r: seq<string>)
    ensures forall c :: c in r ==> c != "" && Trim(c) == c
  {
    if cidrs == [] then []
    else
      var rest := Cleaned(cidrs[..|cidrs| - 1]);
      var last := Trim(cidrs[|cidrs| - 1]);
      TrimIdempotent(cidrs[|cidrs| - 1]);
      if last == "" then rest else rest + [last]
  }

  /** One CIDR is kept trimmed unless it is blank, and a list is cleaned part by part. */
  lemma {:induction false} CleanedIs(a: seq<string>, b: seq<string>, c: string)
    ensures Cleaned([c]) == if Blank(c) then [] else [Trim(c)]
    ensures Cleaned(a + b) == Cleaned(a) + Cleaned(b)
    decreases |b|
  {
    assert [c][..0] == [];
    if b == [] {
      assert a + b == a;
    } else {
      CleanedIs(a, b[..|b| - 1], c);
      assert (a + b)[..|a + b| - 1] == a + b[..|b| - 1];
    }
  }

  ghost predicate AllParse(o: Oracle, cidrs: seq<string>) {
    forall i :: 0 <= i < |cidrs| ==> o.parses(cidrs[i])
  }

  /** The given value, or else the stored one. */
  function Kept(given: string, stored: string): string {
    if given != "" then given else stored
  }

  function Stored(existing: Option<Rule>): Rule {
    if existing.Some? then existing.value else Rule("", "", "", "", "", [])
  }

  /** The rule an update leads to, or None when it is refused. */
  ghost function Merged(o: Oracle, input: Input, existing: Option<Rule>): Option<Rule> {
    var mode := RequestedMode(input, existing);
    var allowed := Cleaned(input.allowed);
    var was := Stored(existing);
    var username := Kept(Trim(input.username), was.username);
    var passwordHash := if Blank(input.password) then was.passwordHash else HashSecret(o, input.password);
    var headerName := Kept(Headers.Canonical(Trim(input.headerName)), was.headerName);
    var secretHash := if Blank(input.secret) then was.secretHash else HashSecret(o, input.secret);
    if !ValidMode(mode) || !AllParse(o, allowed) then None
    else if mode == PUBLIC then Some(Rule(mode, "", "", "", "", allowed))
    else if mode == BASIC then
      if username == "" || passwordHash == "" then None
      else Some(Rule(mode, username, passwordHash, "", "", allowed))
    else
      if headerName == "" || secretHash == "" then None
      else Some(Rule(mode, "", "", headerName, secretHash, allowed))
  }

  /** The first CIDR that does not parse. */
  function FirstBad(o: Oracle, cidrs: seq<string>): (bad: Option<string>)
    ensures bad == None <==> forall i :: 0 <= i < |cidrs| ==> o.parses(cidrs[i])
  {
    if cidrs == [] then None
    else
      var before := FirstBad(o, cidrs[..|cidrs| - 1]);
      if before.Some? then before
      else if o.parses(cidrs[|cidrs| - 1]) then None
      else Some(cidrs[|cidrs| - 1])
  }

  /** It does not parse, and all before it do. */
  lemma {:induction false} FirstBadIs(o: Oracle, cidrs: seq<string>, bad: string)
    ensures FirstBad(o, cidrs) == Some(bad) <==>
      exists i :: 0 <= i < |cidrs| && cidrs[i] == bad && !o.parses(bad) && AllParse(o, cidrs[..i])
    decreases |cidrs|
  {
    if cidrs != [] {
      var init := cidrs[..|cidrs| - 1];
      FirstBadIs(o, init, bad);
      forall i | 0 <= i < |cidrs| ensures cidrs[..i] == init[..i] {
      }
      if FirstBad(o, cidrs) == Some(bad) && FirstBad(o, init) == Some(bad) {
        var i :| 0 <= i < |init| && init[i] == bad && !o.parses(bad) && AllParse(o, init[..i]);
        assert cidrs[i] == bad;
      }
      if i :| 0 <= i < |cidrs| && cidrs[i] == bad && !o.parses(bad) && AllParse(o, cidrs[..i]) {
        if i < |init| {
          assert init[i] == bad;
        }
      }
    }
  }

  lemma {:induction false} FirstBadPrefix(o: Oracle, cidrs: seq<string>, n: nat)
    requires n <= |cidrs| && FirstBad(o, cidrs[..n]).Some?
    ensures FirstBad(o, cidrs) == FirstBad(o, cidrs[..n])
    decreases |cidrs|
  {
    if n < |cidrs| {
      var init := cidrs[..|cidrs| - 1];
      assert init[..n] == cidrs[..n];
      FirstBadPrefix(o, init, n);
    } else {
      assert cidrs[..n] == cidrs;
    }
  }

  /** The first CIDR the loop stops at is the first bad one. */
  lemma BadIsFirst(o: Oracle, cidrs: seq<string>, i: nat)
    requires i < |cidrs| && AllParse(o, Cleaned(cidrs[..i])) && Trim(cidrs[i]) != "" && !o.parses(Trim(cidrs[i]))
    ensures FirstBad(o, Cleaned(cidrs)) == Some(Trim(cidrs[i])) && !AllParse(o, Cleaned(cidrs))
  {
    var kept, all := Cleaned(cidrs[..i]), Cleaned(cidrs);
    var upTo := kept + [Trim(cidrs[i])];
    assert cidrs[..i + 1][..i] == cidrs[..i];
    CleanedPrefix(cidrs, i + 1);
    assert upTo[..|kept|] == kept && all[..|upTo|] == upTo;
    FirstBadPrefix(o, all, |upTo|);
    assert all[|kept|] == Trim(cidrs[i]);
  }

  method ParseAllowed(o: Oracle, cidrs: seq<string>) returns (allowed: Option<seq<string>>, bad: string)
    ensures allowed == if AllParse(o, Cleaned(cidrs)) then Some(Cleaned(cidrs)) else None
    ensures allowed.None? ==> FirstBad(o, Cleaned(cidrs)) == Some(bad)
  {
    var kept := [];
    assert cidrs[..|cidrs|] == cidrs;
    for i := 0 to |cidrs|
      invariant kept == Cleaned(cidrs[..i]) && AllParse(o, kept)
    {
      assert cidrs[..i + 1][..i] == cidrs[..i];
      var cidr := Trim(cidrs[i]);
      if cidr == "" {
        continue;
      }
      if !o.parses(cidr) {
        BadIsFirst(o, cidrs, i);
        return None, cidr;
      }
      kept := kept + [cidr];
    }
    return Some(kept), "";
  }

  lemma {:induction false} CleanedPrefix(cidrs: seq<string>, n: nat)
    requires n <= |cidrs|
    ensures Cleaned(cidrs[..n]) <= Cleaned(cidrs)
    decreases |cidrs|
  {
    if n < |cidrs| {
      var init := cidrs[..|cidrs| - 1];
      assert init[..n] == cidrs[..n];
      CleanedPrefix(init, n);
    } else {
      assert cidrs[..n] == cidrs;
    }
  }

  /** Why an update is refused: the mode first, then the first bad CIDR, then the
      name and the secret of the mode. */
  ghost function Reason(o: Oracle, input: Input, existing: Option<Rule>): string {
    var mode := RequestedMode(input, existing);
    var bad := FirstBad(o, Cleaned(input.allowed));
    var was := Stored(existing);
    if !ValidMode(mode) then "invalid auth mode"
    else if bad.Some? then "invalid cidr: " + bad.value
    else if mode == BASIC then
      if Kept(Trim(input.username), was.username) == "" then "basic auth username required"
      else "basic auth password required"
    else
      if Kept(Headers.Canonical(Trim(input.headerName)), was.headerName) == "" then "shared secret header name required"
      else "shared secret value required"
  }

  /** What an update comes to: the merged rule, or the reason it is refused for. */
  ghost function Verdict(o: Oracle, input: Input, existing: Option<Rule>): Outcome {
    match Merged(o, input, existing)
    case Some(rule) => Accepted(rule)
    case None => Rejected(Reason(o, input, existing))
  }

  /** The mode an update asks for: the trimmed lower-case one it names, else the one
      stored, else public. */
  lemma RequestedModeIs(input: Input, existing: Option<Rule>)
    ensures var mode := RequestedMode(input, existing);
      && (!Blank(ToLower(input.mode)) ==> mode == Trim(ToLower(input.mode)))
      && (Blank(ToLower(input.mode)) && existing.Some? && existing.value.mode != "" ==> mode == existing.value.mode)
      && (Blank(ToLower(input.mode)) && (existing.None? || existing.value.mode == "") ==> mode == "public")
  {}

  /** Each error has its own cause: an unknown mode, then the first CIDR that does not
      parse, then for its mode a name and then a secret that is neither given nor
      stored. Without a cause the update is accepted. */
  lemma RefusedBecause(o: Oracle, input: Input, existing: Option<Rule>)
    requires Digests(o)
    ensures var out := Verdict(o, input, existing); var mode := RequestedMode(input, existing);
      var known := mode in {"public", "basic_auth", "shared_secret_header"};
      var bad := FirstBad(o, Cleaned(input.allowed));
      var was := if existing.Some? then existing.value else Rule("", "", "", "", "", []);
      && (!known ==> out == Rejected("invalid auth mode"))
      && (known && bad.Some? ==> out == Rejected("invalid cidr: " + bad.value))
      && (known && bad.None? ==>
            && (mode == "public" ==> out.Accepted?)
            && (mode == "basic_auth" ==>
                  Requires(out, Blank(input.username) && was.username == "", "basic auth username required",
                           Blank(input.password) && was.passwordHash == "", "basic auth password required"))
            && (mode == "shared_secret_header" ==>
                  Requires(out, Blank(input.headerName) && was.headerName == "", "shared secret header name required",
                           Blank(input.secret) && was.secretHash == "", "shared secret value required")))
  {
    CanonicalBlank(Trim(input.headerName));
  }

  /** Two things that may be missing, the first of which decides. */
  predicate Requires(out: Outcome, noName: bool, nameError: string, noSecret: bool, secretError: string) {
    if noName then out == Rejected(nameError)
    else if noSecret then out == Rejected(secretError)
    else out.Accepted?
  }

  /** validateAccessRuleInput. */
  method Validate(o: Oracle, input: Input, existing: Option<Rule>) returns (out: Outcome)
    ensures out == Verdict(o, input, existing)
  {
    var mode := Trim(ToLower(input.mode));
    if mode == "" {
      if existing.Some? && existing.value.mode != "" {
        mode := existing.value.mode;
      } else {
        mode := PUBLIC;
      }
    }
    if mode != PUBLIC && mode != BASIC && mode != SHARED {
      return Rejected("invalid auth mode");
    }
    var allowed, bad := ParseAllowed(o, input.allowed);
    if allowed.None? {
      return Rejected("invalid cidr: " + bad);
    }
    if mode == PUBLIC {
      return Accepted(Rule(mode, "", "", "", "", allowed.value));
    }
    if mode == BASIC {
      out := ValidateBasic(o, input, existing, allowed.value);
    } else {
      out := ValidateShared(o, input, existing, allowed.value);
    }
  }

  method ValidateBasic(o: Oracle, input: Input, existing: Option<Rule>, allowed: seq<string>) returns (out: Outcome)
    requires RequestedMode(input, existing) == BASIC
    requires allowed == Cleaned(input.allowed) && AllParse(o, allowed)
    ensures out == Verdict(o, input, existing)
  {
    var username := Trim(input.username);
    if username == "" && existing.Some? {
      username := existing.value.username;
    }
    if username == "" {
      return Rejected("basic auth username required");
    }
    var passwordHash := "";
    if Trim(input.password) != "" {
      passwordHash := HashSecret(o, input.password);
    } else if existing.Some? && existing.value.passwordHash != "" {
      passwordHash := existing.value.passwordHash;
    }
    if passwordHash == "" {
      return Rejected("basic auth password required");
    }
    return Accepted(Rule(BASIC, username, passwordHash, "", "", allowed));
  }

  method ValidateShared(o: Oracle, input: Input, existing: Option<Rule>, allowed: seq<string>) returns (out: Outcome)
    requires RequestedMode(input, existing) == SHARED
    requires allowed == Cleaned(input.allowed) && AllParse(o, allowed)
    ensures out == Verdict(o, input, existing)
  {
    TrimIdempotent(input.headerName);
    var headerName := CanonicalHeaderKey(Trim(input.headerName));
    if headerName == "" && existing.Some? {
      headerName := existing.value.headerName;
    }
    if headerName == "" {
      return Rejected("shared secret header name required");
    }
    var secretHash := "";
    if Trim(input.secret) != "" {
      secretHash := HashSecret(o, input.secret);
    } else if existing.Some? && existing.value.secretHash != "" {
      secretHash := existing.value.secretHash;
    }
    if secretHash == "" {
      return Rejected("shared secret value required");
    }
    return Accepted(Rule(SHARED, "", "", headerName, secretHash, allowed));
  }

  // ---------------------------------------------------------------- verification of a request

  predicate VerifyBasicAuth(o: Oracle, rule: Rule, username: string, password: string) {
    rule.mode != BASIC || (Trim(rule.username) == Trim(username) && rule.passwordHash == HashSecret(o, password))
  }

  predicate VerifySharedSecret(o: Oracle, rule: Rule, value: string) {
    rule.mode != SHARED || rule.secretHash == HashSecret(o, value)
  }

  // ---------------------------------------------------------------- histories of updates

  /** The rule CreateTunnel writes. */
  const INITIAL := Rule(PUBLIC, "", "", "", "", [])

  /** The rule after a run of updates; a refused update changes nothing. */
  ghost function RuleAfter(o: Oracle, run: seq<Input>): Rule {
    if run == [] then INITIAL
    else
      var before := RuleAfter(o, run[..|run| - 1]);
      var merged := Merged(o, run[|run| - 1], Some(before));
      if merged.Some? then merged.value else before
  }

  /** The updates of a run that were not refused. */
  ghost function Applied(o: Oracle, run: seq<Input>): seq<Input> {
    if run == [] then []
    else
      var init := run[..|run| - 1];
      if Merged(o, run[|run| - 1], Some(RuleAfter(o, init))).Some?
      then Applied(o, init) + [run[|run| - 1]] else Applied(o, init)
  }

  /** The last mode that was named, public if none was. */
  function ModeOf(applied: seq<Input>): string {
    if applied == [] then PUBLIC
    else Kept(Trim(ToLower(applied[|applied| - 1].mode)), ModeOf(applied[..|applied| - 1]))
  }

  ghost predicate LastMode(applied: seq<Input>, i: nat)
    requires i < |applied|
  {
    && !Blank(ToLower(applied[i].mode))
    && forall j :: i < j < |applied| ==> Blank(ToLower(applied[j].mode))
  }

  /** It is named by the last update that names one, trimmed and in lower case. */
  lemma {:induction false} ModeIs(applied: seq<Input>)
    ensures forall i :: 0 <= i < |applied| && LastMode(applied, i) ==> ModeOf(applied) == Trim(ToLower(applied[i].mode))
    ensures (forall i :: 0 <= i < |applied| ==> Blank(ToLower(applied[i].mode))) ==> ModeOf(applied) == "public"
    decreases |applied|
  {
    if applied != [] {
      var init := applied[..|applied| - 1];
      ModeIs(init);
      forall i | 0 <= i < |init| && LastMode(applied, i) ensures LastMode(init, i) {
        assert forall j :: i < j < |init| ==> init[j] == applied[j];
      }
    }
  }

  /** The updates since the rule last entered its mode. */
  function Stint(applied: seq<Input>): seq<Input> {
    if applied == [] then []
    else
      var init := applied[..|applied| - 1];
      (if ModeOf(applied) == ModeOf(init) then Stint(init) else []) + [applied[|applied| - 1]]
  }

  datatype Field = Username | Password | HeaderName | Secret

  function Given(input: Input, field: Field): string {
    Trim(match field
         case Username => input.username
         case Password => input.password
         case HeaderName => input.headerName
         case Secret => input.secret)
  }

  /** The trimmed last non-blank value of a field. */
  function LastGiven(inputs: seq<Input>, field: Field): string {
    if inputs == [] then ""
    else Kept(Given(inputs[|inputs| - 1], field), LastGiven(inputs[..|inputs| - 1], field))
  }

  /** Which part of an update each field is. */
  lemma GivenIs(input: Input)
    ensures Given(input, Username) == Trim(input.username) && Given(input, Password) == Trim(input.password)
    ensures Given(input, HeaderName) == Trim(input.headerName) && Given(input, Secret) == Trim(input.secret)
  {}

  ghost predicate LastWith(inputs: seq<Input>, field: Field, i: nat)
    requires i < |inputs|
  {
    Given(inputs[i], field) != "" && forall j :: i < j < |inputs| ==> Given(inputs[j], field) == ""
  }

  /** The last update that gives the field decides it. */
  lemma {:induction false} LastGivenIs(inputs: seq<Input>, field: Field)
    ensures forall i :: 0 <= i < |inputs| && LastWith(inputs, field, i) ==>
      LastGiven(inputs, field) == Given(inputs[i], field)
    ensures (forall i :: 0 <= i < |inputs| ==> Given(inputs[i], field) == "") ==> LastGiven(inputs, field) == ""
    decreases |inputs|
  {
    if inputs != [] {
      var init := inputs[..|inputs| - 1];
      LastGivenIs(init, field);
      forall i | 0 <= i < |init| && LastWith(inputs, field, i) ensures LastWith(init, field, i) {
        assert forall j :: i < j < |init| ==> init[j] == inputs[j];
      }
    }
  }

  /** The update at n entered the mode, which has been the same ever since. */
  ghost predicate EnteredAt(applied: seq<Input>, n: nat)
    requires n < |applied|
  {
    && (n == 0 || !SameModeAt(applied, n))
    && forall m :: n < m <= |applied| ==> SameModeAt(applied, m)
  }

  ghost predicate SameModeAt(applied: seq<Input>, n: nat)
    requires n <= |applied|
  {
    ModeOf(applied[..n]) == ModeOf(applied)
  }

  /** A stint begins with the update that entered the mode. */
  lemma {:induction false} StintIs(applied: seq<Input>, n: nat)
    requires n < |applied| && EnteredAt(applied, n)
    ensures Stint(applied) == applied[n..]
    decreases |applied|
  {
    if n < |applied| - 1 {
      EnteredBefore(applied, n);
      StintIs(applied[..|applied| - 1], n);
      StintGoesOn(applied, n);
    } else {
      StintAlone(applied);
    }
  }

  lemma {:induction false} StintGoesOn(applied: seq<Input>, n: nat)
    requires n < |applied| - 1 && SameModeAt(applied, |applied| - 1)
    requires Stint(applied[..|applied| - 1]) == applied[..|applied| - 1][n..]
    ensures Stint(applied) == applied[n..]
  {
    assert applied == applied[..|applied| - 1] + [applied[|applied| - 1]];
    StintLonger(applied[..|applied| - 1], applied[|applied| - 1], n);
  }

  lemma {:induction false} StintLonger(init: seq<Input>, last: Input, n: nat)
    requires n < |init| && SameModeAt(init + [last], |init|) && Stint(init) == init[n..]
    ensures Stint(init + [last]) == (init + [last])[n..]
  {
    StintSnoc(init + [last], init, last);
  }

  lemma {:induction false} StintAlone(applied: seq<Input>)
    requires applied != [] && EnteredAt(applied, |applied| - 1)
    ensures Stint(applied) == applied[|applied| - 1..]
  {
    StintSnoc(applied, applied[..|applied| - 1], applied[|applied| - 1]);
  }

  lemma {:induction false} StintSnoc(applied: seq<Input>, init: seq<Input>, last: Input)
    requires applied == init + [last]
    ensures Stint(applied) == if SameModeAt(applied, |init|) then Stint(init) + [last] else [last]
  {
    assert applied[..|init|] == init;
  }

  lemma {:induction false} EnteredBefore(applied: seq<Input>, n: nat)
    requires n < |applied| - 1 && EnteredAt(applied, n)
    ensures var init := applied[..|applied| - 1]; EnteredAt(init, n) && ModeOf(init) == ModeOf(applied)
  {
    var init := applied[..|applied| - 1];
    assert SameModeAt(applied, |init|);
    forall m: nat | m <= |init| ensures SameModeAt(init, m) <==> SameModeAt(applied, m) {
      assert init[..m] == applied[..m];
    }
  }

  function LastAllowed(applied: seq<Input>): seq<string> {
    if applied == [] then [] else Cleaned(applied[|applied| - 1].allowed)
  }

  /** The rule that the updates of a history describe. */
  function Described(o: Oracle, applied: seq<Input>): Rule {
    var mode, stint := ModeOf(applied), Stint(applied);
    if mode == BASIC then
      Rule(mode, LastGiven(stint, Username), o.digest(LastGiven(stint, Password)), "", "", LastAllowed(applied))
    else if mode == SHARED then
      Rule(mode, "", "", Headers.Canonical(LastGiven(stint, HeaderName)), o.digest(LastGiven(stint, Secret)),
           LastAllowed(applied))
    else
      Rule(mode, "", "", "", "", LastAllowed(applied))
  }

  /** A history is complete when its mode is known and its stint has given both
      credentials that mode needs. */
  predicate Complete(applied: seq<Input>) {
    var mode, stint := ModeOf(applied), Stint(applied);
    && ValidMode(mode)
    && (mode == BASIC ==> LastGiven(stint, Username) != "" && LastGiven(stint, Password) != "")
    && (mode == SHARED ==> LastGiven(stint, HeaderName) != "" && LastGiven(stint, Secret) != "")
  }

  lemma SnocStint(applied: seq<Input>, input: Input)
    ensures var more := applied + [input];
      && ModeOf(more) == Kept(Trim(ToLower(input.mode)), ModeOf(applied))
      && (forall f :: LastGiven(Stint(more), f) == Next(applied, input, f))
      && LastAllowed(more) == Cleaned(input.allowed)
  {
    var more := applied + [input];
    assert more[..|applied|] == applied;
    forall f ensures LastGiven(Stint(more), f) == Next(applied, input, f) {
      var before := if ModeOf(more) == ModeOf(applied) then Stint(applied) else [];
      assert Stint(more) == before + [input] && (before + [input])[..|before|] == before;
    }
  }

  /** The credential an update leaves, given the one stored before it. */
  function Next(applied: seq<Input>, input: Input, f: Field): string {
    Kept(Given(input, f), if ModeOf(applied + [input]) == ModeOf(applied) then LastGiven(Stint(applied), f) else "")
  }

  /** One update of a described rule is accepted exactly when the history stays
      complete and its CIDRs parse, and then leads to the described rule. */
  lemma {:induction false} MergeDescribed(o: Oracle, applied: seq<Input>, input: Input)
    requires Digests(o) && Complete(applied)
    ensures var more := applied + [input];
      Merged(o, input, Some(Described(o, applied)))
      == if Complete(more) && AllParse(o, Cleaned(input.allowed)) then Some(Described(o, more)) else None
  {
    SnocStint(applied, input);
    var more := applied + [input];
    assert RequestedMode(input, Some(Described(o, applied))) == ModeOf(more);
    if ModeOf(more) == BASIC {
      MergeDescribedBasic(o, applied, input);
    } else if ModeOf(more) == SHARED {
      MergeDescribedShared(o, applied, input);
    }
  }

  lemma {:induction false} MergeDescribedBasic(o: Oracle, applied: seq<Input>, input: Input)
    requires Digests(o) && Complete(applied) && ModeOf(applied + [input]) == BASIC
    ensures var u := Next(applied, input, Username); var p := Next(applied, input, Password);
      Merged(o, input, Some(Described(o, applied)))
      == if AllParse(o, Cleaned(input.allowed)) && u != "" && p != ""
         then Some(Rule(BASIC, u, o.digest(p), "", "", Cleaned(input.allowed))) else None
  {
    SnocStint(applied, input);
    MergeBasic(o, input, Described(o, applied), Next(applied, input, Username), Next(applied, input, Password));
  }

  lemma {:induction false} HeaderNameKept(o: Oracle, applied: seq<Input>, input: Input)
    requires ModeOf(applied + [input]) == SHARED
    ensures Headers.Canonical(Next(applied, input, HeaderName))
         == Kept(Headers.Canonical(Trim(input.headerName)), Described(o, applied).headerName)
  {
    var last := if ModeOf(applied) == SHARED then LastGiven(Stint(applied), HeaderName) else "";
    KeptCanonical(Trim(input.headerName), last);
  }

  lemma {:induction false} SecretKept(o: Oracle, applied: seq<Input>, input: Input)
    requires Complete(applied) && ModeOf(applied + [input]) == SHARED
    ensures Digest(o, Next(applied, input, Secret))
         == if Blank(input.secret) then Described(o, applied).secretHash else HashSecret(o, input.secret)
  {}

  lemma {:induction false} MergeDescribedShared(o: Oracle, applied: seq<Input>, input: Input)
    requires Digests(o) && Complete(applied) && ModeOf(applied + [input]) == SHARED
    ensures var h := Next(applied, input, HeaderName); var v := Next(applied, input, Secret);
      Merged(o, input, Some(Described(o, applied)))
      == if AllParse(o, Cleaned(input.allowed)) && h != "" && v != ""
         then Some(Rule(SHARED, "", "", Headers.Canonical(h), o.digest(v), Cleaned(input.allowed))) else None
  {
    HeaderNameKept(o, applied, input);
    SecretKept(o, applied, input);
    ModeRequested(o, applied, input);
    MergeShared(o, input, Described(o, applied), Next(applied, input, HeaderName), Next(applied, input, Secret));
  }

  lemma {:induction false} ModeRequested(o: Oracle, applied: seq<Input>, input: Input)
    requires Complete(applied)
    ensures RequestedMode(input, Some(Described(o, applied))) == ModeOf(applied + [input])
  {
    SnocStint(applied, input);
  }

  function Digest(o: Oracle, secret: string): string {
    if secret == "" then "" else o.digest(secret)
  }

  lemma MergeBasic(o: Oracle, input: Input, was: Rule, username: string, password: string)
    requires Digests(o) && RequestedMode(input, Some(was)) == BASIC
    requires username == Kept(Trim(input.username), was.username)
    requires Digest(o, password) == if Blank(input.password) then was.passwordHash else HashSecret(o, input.password)
    ensures Merged(o, input, Some(was))
         == if AllParse(o, Cleaned(input.allowed)) && username != "" && password != ""
            then Some(Rule(BASIC, username, o.digest(password), "", "", Cleaned(input.allowed))) else None
  {}

  lemma MergeShared(o: Oracle, input: Input, was: Rule, name: string, secret: string)
    requires Digests(o) && RequestedMode(input, Some(was)) == SHARED
    requires Headers.Canonical(name) == Kept(Headers.Canonical(Trim(input.headerName)), was.headerName)
    requires Digest(o, secret) == if Blank(input.secret) then was.secretHash else HashSecret(o, input.secret)
    ensures Merged(o, input, Some(was))
         == if AllParse(o, Cleaned(input.allowed)) && name != "" && secret != ""
            then Some(Rule(SHARED, "", "", Headers.Canonical(name), o.digest(secret), Cleaned(input.allowed))) else None
  {
    CanonicalBlank(name);
  }

  lemma KeptCanonical(a: string, b: string)
    ensures Kept(Headers.Canonical(a), Headers.Canonical(b)) == Headers.Canonical(Kept(a, b))
    ensures Headers.Canonical(Kept(a, b)) == "" <==> a == "" && b == ""
  {
    CanonicalBlank(a);
    CanonicalBlank(b);
  }

  lemma CanonicalBlank(k: string)
    ensures Headers.Canonical(k) == "" <==> k == ""
  {}

  /** Credential history: after any run of updates the stored rule is the one its
      accepted updates describe, in the normal form of its mode. */
  lemma {:induction false} RuleIsDescribed(o: Oracle, run: seq<Input>)
    requires Digests(o)
    ensures RuleAfter(o, run) == Described(o, Applied(o, run))
    ensures Complete(Applied(o, run)) && AllParse(o, RuleAfter(o, run).allowed)
    decreases |run|
  {
    if run != [] {
      var init := run[..|run| - 1];
      RuleIsDescribed(o, init);
      MergeDescribed(o, Applied(o, init), run[|run| - 1]);
    }
  }

  /** An update is accepted exactly when its mode is known, its CIDRs parse, and the
      mode is public, or unchanged, or comes with both of its credentials. */
  lemma {:induction false} AcceptedWhen(o: Oracle, run: seq<Input>, input: Input)
    requires Digests(o)
    ensures var rule := RuleAfter(o, run); var mode := RequestedMode(input, Some(rule));
      Merged(o, input, Some(rule)).Some? <==>
        && ValidMode(mode)
        && AllParse(o, Cleaned(input.allowed))
        && (|| mode == PUBLIC || mode == rule.mode
            || (mode == BASIC && !Blank(input.username) && !Blank(input.password))
            || (mode == SHARED && !Blank(input.headerName) && !Blank(input.secret)))
  {
    RuleIsDescribed(o, run);
    CanonicalBlank(Trim(input.headerName));
    CanonicalBlank(LastGiven(Stint(Applied(o, run)), HeaderName));
  }

  /** Which credentials a stored rule accepts: those of its history. */
  lemma {:induction false} CredentialHistory(o: Oracle, run: seq<Input>, username: string, password: string,
                                             value: string)
    requires Digests(o) && Injective(o)
    ensures var rule := RuleAfter(o, run); var applied := Applied(o, run); var stint := Stint(applied);
      && rule.mode == ModeOf(applied)
      && (VerifyBasicAuth(o, rule, username, password) <==>
            (rule.mode == "basic_auth" ==>
               Trim(username) == LastGiven(stint, Username) && Trim(password) == LastGiven(stint, Password)))
      && (VerifySharedSecret(o, rule, value) <==>
            (rule.mode == "shared_secret_header" ==> Trim(value) == LastGiven(stint, Secret)))
      && (rule.mode == "shared_secret_header" ==> rule.headerName == Headers.Canonical(LastGiven(stint, HeaderName)))
  {
    RuleIsDescribed(o, run);
    LastGivenTrimmed(Stint(Applied(o, run)), Username);
  }

  lemma {:induction false} LastGivenTrimmed(inputs: seq<Input>, field: Field)
    ensures Trim(LastGiven(inputs, field)) == LastGiven(inputs, field)
    decreases |inputs|
  {
    if inputs != [] {
      LastGivenTrimmed(inputs[..|inputs| - 1], field);
      var last := inputs[|inputs| - 1];
      match field
      case Username => TrimIdempotent(last.username);
      case Password => TrimIdempotent(last.password);
      case HeaderName => TrimIdempotent(last.headerName);
      case Secret => TrimIdempotent(last.secret);
    }
  }
}
