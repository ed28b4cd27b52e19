/** How an HTTP header map crosses the wire: http.Header (name to list of
    values) is flattened to a map of joined values on one side and rebuilt
    with Header.Set on the other (grpc_tunnel.go, connector.go). */
module Headers {
  import opened Text

  type Header = map<string, seq<string>>
  type WireHeader = map<string, string>

  /** textproto.CanonicalMIMEHeaderKey on a valid token. */
  function Canonical(k: string): (r: string)
    ensures |r| == |k|
  {
    seq(|k|, i requires 0 <= i < |k| =>
      if i == 0 || k[i - 1] == '-' then Upper(k[i]) else Lower(k[i]))
  }

  ghost predicate CanonicalKeys<V>(m: map<string, V>) {
    forall k :: k in m ==> Canonical(k) == k
  }

  /** Where a part of the name begins. */
  predicate Begins(k: string, i: nat)
    requires i < |k|
  {
    i == 0 || k[i - 1] == '-'
  }

  /** The same letter, not in lower case where a part begins, nor in upper case elsewhere. */
  ghost predicate CanonicalLetter(c: char, k: string, i: nat)
    requires i < |k|
  {
    SameLetter(c, k[i]) && if Begins(k, i) then !('a' <= c <= 'z') else !('A' <= c <= 'Z')
  }

  /** The canonical name has such a letter at each place, and is the only one. */
  lemma CanonicalIs(k: string, r: string)
    ensures r == Canonical(k) <==> |r| == |k| && forall i :: 0 <= i < |k| ==> CanonicalLetter(r[i], k, i)
  {
    if |r| == |k| {
      forall i | 0 <= i < |k| ensures CanonicalLetter(r[i], k, i) <==> r[i] == Canonical(k)[i] {
        OneCase(r[i], k[i]);
      }
    }
  }

  lemma OneCase(c: char, d: char)
    ensures SameLetter(c, d) && !('a' <= c <= 'z') <==> c == Upper(d)
    ensures SameLetter(c, d) && !('A' <= c <= 'Z') <==> c == Lower(d)
  {}

  lemma CanonicalIdempotent(k: string)
    ensures Canonical(Canonical(k)) == Canonical(k)
  {
  }

  /** The header a wire map stands for when its keys are canonical. */
  function Expanded(w: WireHeader): Header {
    map k | k in w :: [w[k]]
  }

  /** What rebuilding a header from a wire map with Header.Set can give: one value
      under each canonical key, from some entry whose key canonicalises to it. When
      two keys collide the visiting order decides, so there may be several. */
  predicate Expands(w: WireHeader, h: Header) {
    && h.Keys == (set k | k in w :: Canonical(k))
    && forall c :: c in h ==> exists k :: k in w && Canonical(k) == c && h[c] == [w[k]]
  }

  /** Without collisions there is one. */
  lemma ExpandsCanonical(w: WireHeader, h: Header)
    requires CanonicalKeys(w)
    ensures Expands(w, h) <==> h == Expanded(w)
  {
    assert (set k | k in w :: Canonical(k)) == w.Keys;
  }

  lemma {:induction false} ExpansionExists(w: WireHeader) returns (h: Header)
    ensures Expands(w, h)
    decreases |w|
  {
    if w == map[] {
      h := map[];
    } else {
      var k :| k in w;
      h := ExpansionExists(w - {k});
      assert forall c :: c in h ==> exists j :: j in w - {k} && j in w && Canonical(j) == c && h[c] == [w[j]];
      h := h[Canonical(k) := [w[k]]];
    }
  }

  lemma ExpandsKeys(w: WireHeader, h: Header)
    requires Expands(w, h)
    ensures CanonicalKeys(h) && forall k :: k in h ==> |h[k]| == 1
  {
    forall c | c in h ensures Canonical(c) == c {
      var k :| k in w && Canonical(k) == c;
      CanonicalIdempotent(k);
    }
  }

  /** The wire map of a header: one joined value for each non-empty list. */
  function Flattened(h: Header): WireHeader {
    map k | k in h && |h[k]| > 0 :: Join(h[k], ", ")
  }

  /** Value after value, with a comma and a space between any two. */
  lemma FlattenedIs(h: Header, k: string)
    ensures k in Flattened(h) <==> k in h && h[k] != []
    ensures k in h && |h[k]| == 1 ==> Flattened(h)[k] == h[k][0]
    ensures k in h && |h[k]| > 1 ==> Flattened(h)[k] == h[k][0] + ", " + Flattened(h[k := h[k][1..]])[k]
  {}

  /** The flattening loop of EnqueueRequest and of the client's reply: whatever
      order the map is visited in, the result is the same. */
  method Flatten(h: Header) returns (w: WireHeader)
    ensures w == Flattened(h)
  {
    w := map[];
    var todo := h.Keys;
    while todo != {}
      invariant todo <= h.Keys
      invariant w == map k | k in h && k !in todo && |h[k]| > 0 :: Join(h[k], ", ")
      decreases todo
    {
      var k :| k in todo;
      if |h[k]| > 0 {
        w := w[k := Join(h[k], ", ")];
      }
      todo := todo - {k};
    }
  }

  /** The rebuilding loop, in any visiting order. */
  method Expand(w: WireHeader) returns (h: Header)
    ensures Expands(w, h)
  {
    h := map[];
    var todo := w.Keys;
    while todo != {}
      invariant todo <= w.Keys
      invariant forall k :: k in w && k !in todo ==> Canonical(k) in h
      invariant forall c :: c in h ==>
        exists k :: k in w && k !in todo && Canonical(k) == c && h[c] == [w[k]]
      decreases |todo|
    {
      var k :| k in todo;
      h := h[Canonical(k) := [w[k]]];
      todo := todo - {k};
    }
  }

  /** The elements of one field value: split at commas, trim each part. */
  function Elements(v: string): seq<string> {
    TrimAll(Split(v, ','))
  }

  function TrimAll(parts: seq<string>): (r: seq<string>)
    ensures |r| == |parts|
  {
    seq(|parts|, i requires 0 <= i < |parts| => Trim(parts[i]))
  }

  function AllElements(vs: seq<string>): seq<string> {
    if vs == [] then [] else Elements(vs[0]) + AllElements(vs[1..])
  }

  lemma {:induction false} SplitLeadingSpace(v: string)
    ensures Split(" " + v, ',') == [" " + Split(v, ',')[0]] + Split(v, ',')[1..]
  {
    assert (" " + v)[1..] == v;
  }

  lemma ElementsIgnoreLeadingSpace(v: string)
    ensures Elements(" " + v) == Elements(v)
  {
    SplitLeadingSpace(v);
    var head := Split(v, ',')[0];
    assert (" " + head)[1..] == head;
    assert Trim(" " + head) == Trim(head);
  }

  lemma ElementsOfCommaPair(a: string, b: string)
    ensures Elements(a + ", " + b) == Elements(a) + Elements(b)
  {
    assert a + ", " + b == a + [','] + (" " + b);
    SplitAppend(a, " " + b, ',');
    ElementsIgnoreLeadingSpace(b);
    assert TrimAll(Split(a, ',') + Split(" " + b, ','))
        == TrimAll(Split(a, ',')) + TrimAll(Split(" " + b, ','));
  }

  /** Joining loses nothing a list-valued field means: splitting the joined
      value at commas yields the elements of the original values in order
      (RFC 9110, section 5.3). */
  lemma {:induction false} JoinKeepsElements(vs: seq<string>)
    requires |vs| > 0
    ensures Elements(Join(vs, ", ")) == AllElements(vs)
  {
    if |vs| == 1 {
      assert AllElements(vs) == Elements(vs[0]) + AllElements(vs[1..]);
    } else {
      JoinKeepsElements(vs[1..]);
      ElementsOfCommaPair(vs[0], Join(vs[1..], ", "));
    }
  }

  ghost predicate SameElements(h: Header, g: Header) {
    && (forall k :: k in g <==> (k in h && |h[k]| > 0))
    && (forall k :: k in g ==> |g[k]| == 1 && Elements(g[k][0]) == AllElements(h[k]))
  }

  /** With canonical keys, one crossing keeps the element list of every non-empty
      field and makes each field single-valued, whatever the visiting orders; a second
      crossing changes nothing. */
  lemma CrossingIsStable(h: Header, g: Header)
    requires CanonicalKeys(h) && Expands(Flattened(h), g)
    ensures CanonicalKeys(g) && SameElements(h, g)
    ensures Flattened(g) == Flattened(h)
    ensures forall again :: Expands(Flattened(g), again) ==> again == g
  {
    ExpandsCanonical(Flattened(h), g);
    CrossingKeepsElements(h);
    FlattenExpanded(Flattened(h));
    forall again | Expands(Flattened(g), again) ensures again == g {
      ExpandsCanonical(Flattened(h), again);
    }
  }

  lemma FlattenExpanded(w: WireHeader)
    ensures Flattened(Expanded(w)) == w
  {
  }

  lemma CrossingKeepsElements(h: Header)
    ensures SameElements(h, Expanded(Flattened(h)))
  {
    forall k | k in Flattened(h)
      ensures Elements(Flattened(h)[k]) == AllElements(h[k])
    {
      JoinKeepsElements(h[k]);
    }
  }

  // ---------------------------------------------------------------- what joining loses

  /** A value with no comma and no white space at its ends is its own element list. */
  predicate Plain(v: string) {
    ',' !in v && Trim(v) == v
  }

  lemma {:induction false} SplitPlain(v: string)
    ensures (|Split(v, ',')| == 1 <==> ',' !in v) && (',' !in v ==> Split(v, ',') == [v])
    decreases |v|
  {
    if v != "" {
      SplitPlain(v[1..]);
      assert v == [v[0]] + v[1..];
    }
  }

  lemma PlainElements(v: string)
    ensures Elements(v) == [v] <==> Plain(v)
  {
    SplitPlain(v);
    if ',' !in v {
      assert TrimAll([v]) == [Trim(v)];
    }
  }

  lemma {:induction false} ElementsOutnumber(vs: seq<string>)
    ensures |AllElements(vs)| >= |vs|
    decreases |vs|
  {
    if vs != [] {
      ElementsOutnumber(vs[1..]);
    }
  }

  lemma {:induction false} AllPlain(vs: seq<string>)
    ensures AllElements(vs) == vs <==> forall i :: 0 <= i < |vs| ==> Plain(vs[i])
    decreases |vs|
  {
    if vs != [] {
      var rest := vs[1..];
      AllPlain(rest);
      PlainElements(vs[0]);
      ElementsOutnumber(rest);
      assert vs == [vs[0]] + rest;
      if AllElements(vs) == vs {
        assert |Elements(vs[0])| == 1;
        assert AllElements(rest) == AllElements(vs)[1..];
      }
    }
  }

  /** The list of values can be read back from the joined value by splitting exactly
      when no value holds a comma or has white space at either end. */
  lemma RecoverableWhen(vs: seq<string>)
    requires |vs| > 0
    ensures Elements(Join(vs, ", ")) == vs <==> forall i :: 0 <= i < |vs| ==> Plain(vs[i])
  {
    JoinKeepsElements(vs);
    AllPlain(vs);
  }

  /** Where a field's lines must not be combined, as RFC 9110 says of Set-Cookie, no
      way of reading can bring them back: whatever the field and its two or more values,
      the header with those lines and the one with the joined value as its only line
      differ and cross as the same wire map. */
  lemma LinesAreLost(h: Header, k: string, vs: seq<string>)
    requires |vs| >= 2
    ensures h[k := vs] != h[k := [Join(vs, ", ")]]
    ensures Flattened(h[k := vs]) == Flattened(h[k := [Join(vs, ", ")]])
  {
    assert h[k := vs][k] == vs && |h[k := [Join(vs, ", ")]][k]| == 1;
  }
}
