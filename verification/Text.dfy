/** Small shared vocabulary: optional values, byte strings, and the string
    helpers of the Go standard library that the repository leans on.
    Text is modelled as ASCII. */
module Text {

  datatype Option<+T> = None | Some(value: T)

  newtype Byte = x: int | 0 <= x < 256
  type Bytes = seq<Byte>

  function Ascii(s: string): (b: Bytes)
    ensures |b| == |s| && forall i :: 0 <= i < |s| && s[i] as int < 128 ==> b[i] as int == s[i] as int
  {
    seq(|s|, i requires 0 <= i < |s| => (s[i] as int % 256) as Byte)
  }

  predicate IsSpace(c: char) {
    c == ' ' || '\t' <= c <= '\r'
  }

  /** strings.TrimSpace: the longest part with no white space at either end. */
  function Trim(s: string): (r: string)
    ensures |r| <= |s|
    ensures r == [] || (!IsSpace(r[0]) && !IsSpace(r[|r| - 1]))
    decreases |s|
  {
    if s == [] then []
    else if IsSpace(s[0]) then Trim(s[1..])
    else if IsSpace(s[|s| - 1]) then Trim(s[..|s| - 1])
    else s
  }

  /** The six ASCII white space characters. */
  lemma WhiteSpace(c: char)
    ensures IsSpace(c) <==> c in {' ', '\t', '\n', '\U{0B}', '\U{0C}', '\r'}
  {}

  ghost predicate AllSpace(s: string) {
    forall i :: 0 <= i < |s| ==> IsSpace(s[i])
  }

  /** r is what is left of s between white space, and has none at its ends. */
  ghost predicate Trimmed(s: string, r: string) {
    && (r == "" || (!IsSpace(r[0]) && !IsSpace(r[|r| - 1])))
    && exists i, j :: 0 <= i <= j <= |s| && Between(s, i, j, r)
  }

  ghost predicate Between(s: string, i: nat, j: nat, r: string)
    requires i <= j <= |s|
  {
    r == s[i..j] && AllSpace(s[..i]) && AllSpace(s[j..])
  }

  /** Trimming gives the one such text. */
  lemma TrimIs(s: string, r: string)
    ensures Trim(s) == r <==> Trimmed(s, r)
  {
    TrimIsTrimmed(s);
    if Trimmed(s, r) {
      var i, j :| 0 <= i <= j <= |s| && Between(s, i, j, r);
      TrimBetween(s, i, j, r);
    }
  }

  lemma {:induction false} TrimIsTrimmed(s: string)
    ensures Trimmed(s, Trim(s))
    decreases |s|
  {
    if s == "" {
      assert Between(s, 0, 0, "");
    } else if IsSpace(s[0]) {
      TrimIsTrimmed(s[1..]);
      var i, j :| 0 <= i <= j <= |s[1..]| && Between(s[1..], i, j, Trim(s));
      BetweenAfterSpace(s, i, j, Trim(s));
    } else if IsSpace(s[|s| - 1]) {
      TrimIsTrimmed(s[..|s| - 1]);
      var i, j :| 0 <= i <= j <= |s| - 1 && Between(s[..|s| - 1], i, j, Trim(s));
      BetweenBeforeSpace(s, i, j, Trim(s));
    } else {
      assert Between(s, 0, |s|, s);
    }
  }

  lemma BetweenAfterSpace(s: string, i: nat, j: nat, r: string)
    requires s != "" && IsSpace(s[0]) && i <= j <= |s| - 1 && Between(s[1..], i, j, r)
    ensures Between(s, i + 1, j + 1, r)
  {
    assert s[..i + 1] == [s[0]] + s[1..][..i] && s[j + 1..] == s[1..][j..];
  }

  lemma BetweenBeforeSpace(s: string, i: nat, j: nat, r: string)
    requires s != "" && IsSpace(s[|s| - 1]) && i <= j <= |s| - 1 && Between(s[..|s| - 1], i, j, r)
    ensures Between(s, i, j, r)
  {
    var init := s[..|s| - 1];
    assert s[..i] == init[..i] && s[j..] == init[j..] + [s[|s| - 1]];
  }

  lemma {:induction false} TrimBetween(s: string, i: nat, j: nat, r: string)
    requires i <= j <= |s| && Between(s, i, j, r)
    requires r == "" || (!IsSpace(r[0]) && !IsSpace(r[|r| - 1]))
    ensures Trim(s) == r
    decreases |s|
  {
    if i > 0 {
      assert IsSpace(s[..i][0]) && s[1..][i - 1..j - 1] == r;
      assert s[1..][..i - 1] == s[..i][1..] && s[1..][j - 1..] == s[j..];
      TrimBetween(s[1..], i - 1, j - 1, r);
    } else if j < |s| {
      var init := s[..|s| - 1];
      assert IsSpace(s[j..][|s| - 1 - j]);
      if r == "" {
        assert s == s[j..];
        assert s[1..] == s[j..][1..];
        assert Between(s[1..], 0, 0, "");
        assert IsSpace(s[j..][0]);
        TrimBetween(s[1..], 0, 0, "");
      } else {
        assert init[..j] == r && init[j..] == s[j..][..|s| - 1 - j];
        assert r[0] == s[0];
        TrimBetween(init, 0, j, r);
      }
    } else {
      assert r == s;
    }
  }

  lemma TrimIdempotent(s: string)
    ensures Trim(Trim(s)) == Trim(s)
  {
  }

  predicate Blank(s: string) {
    Trim(s) == []
  }

  function Lower(c: char): char {
    if 'A' <= c <= 'Z' then (c as int + 32) as char else c
  }

  function Upper(c: char): char {
    if 'a' <= c <= 'z' then (c as int - 32) as char else c
  }

  function ToLower(s: string): (r: string)
    ensures |r| == |s|
  {
    seq(|s|, i requires 0 <= i < |s| => Lower(s[i]))
  }

  function ToUpper(s: string): (r: string)
    ensures |r| == |s|
  {
    seq(|s|, i requires 0 <= i < |s| => Upper(s[i]))
  }

  const UPPER_CASE := "ABCDEFGHIJKLMNOPQRSTUVWXYZ"
  const LOWER_CASE := "abcdefghijklmnopqrstuvwxyz"

  /** The two alphabets are mapped letter by letter, and nothing else is changed. */
  lemma CaseTable(c: char)
    ensures forall i :: 0 <= i < 26 ==> Lower(UPPER_CASE[i]) == LOWER_CASE[i] && Upper(LOWER_CASE[i]) == UPPER_CASE[i]
    ensures !('A' <= c <= 'Z') ==> Lower(c) == c
    ensures !('a' <= c <= 'z') ==> Upper(c) == c
  {}

  /** The same text up to the case of ASCII letters, whose codes differ by 32. */
  ghost predicate SameLetters(a: string, b: string) {
    |a| == |b| && forall i :: 0 <= i < |a| ==> SameLetter(a[i], b[i])
  }

  ghost predicate SameLetter(c: char, d: char) {
    || c == d
    || ('a' <= c <= 'z' && c as int == d as int + 32)
    || ('a' <= d <= 'z' && d as int == c as int + 32)
  }

  lemma SameLowerCase(a: string, b: string)
    ensures ToLower(a) == ToLower(b) <==> SameLetters(a, b)
    ensures ToUpper(a) == ToUpper(b) <==> SameLetters(a, b)
  {
    forall c, d ensures Lower(c) == Lower(d) <==> SameLetter(c, d) {
    }
    forall c, d ensures Upper(c) == Upper(d) <==> SameLetter(c, d) {
    }
    if SameLetters(a, b) {
      forall i | 0 <= i < |a| ensures ToLower(a)[i] == ToLower(b)[i] && ToUpper(a)[i] == ToUpper(b)[i] {
        assert SameLetter(a[i], b[i]);
      }
    }
    if ToLower(a) == ToLower(b) {
      forall i | 0 <= i < |a| ensures SameLetter(a[i], b[i]) {
        assert ToLower(a)[i] == ToLower(b)[i];
      }
    }
    if ToUpper(a) == ToUpper(b) {
      forall i | 0 <= i < |a| ensures SameLetter(a[i], b[i]) {
        assert ToUpper(a)[i] == ToUpper(b)[i];
      }
    }
  }

  /** strings.Split on one separator character: always at least one part. */
  function Split(s: string, sep: char): (parts: seq<string>)
    ensures |parts| >= 1
  {
    if s == [] then [""]
    else if s[0] == sep then [""] + Split(s[1..], sep)
    else
      var rest := Split(s[1..], sep);
      [[s[0]] + rest[0]] + rest[1..]
  }

  /** strings.Join. */
  function Join(parts: seq<string>, sep: string): string {
    if |parts| == 0 then ""
    else if |parts| == 1 then parts[0]
    else parts[0] + sep + Join(parts[1..], sep)
  }

  /** Splitting is undone by joining, and leaves no separator in a part. */
  lemma {:induction false} SplitJoin(s: string, sep: char)
    ensures Join(Split(s, sep), [sep]) == s
    ensures forall i :: 0 <= i < |Split(s, sep)| ==> sep !in Split(s, sep)[i]
    decreases |s|
  {
    if s != "" {
      SplitJoin(s[1..], sep);
      var rest := Split(s[1..], sep);
      if s[0] == sep {
        assert ([""] + rest)[1..] == rest;
        assert "" + [sep] + Join(rest, [sep]) == s;
      } else {
        var parts := [[s[0]] + rest[0]] + rest[1..];
        assert parts[1..] == rest[1..];
        if |rest| > 1 {
          assert Join(parts, [sep]) == [s[0]] + rest[0] + [sep] + Join(rest[1..], [sep]);
          assert [s[0]] + (rest[0] + [sep] + Join(rest[1..], [sep])) == s;
        }
      }
    }
  }

  /** The first part is all before the first separator. */
  lemma {:induction false} SplitHead(s: string, sep: char)
    ensures var head := Split(s, sep)[0];
      head <= s && sep !in head && (head == s || s[|head|] == sep)
    decreases |s|
  {
    if s != "" && s[0] != sep {
      SplitHead(s[1..], sep);
      assert s == [s[0]] + s[1..];
    }
  }

  lemma {:induction false} SplitAppend(a: string, b: string, sep: char)
    ensures Split(a + [sep] + b, sep) == Split(a, sep) + Split(b, sep)
  {
    if a == [] {
      assert (a + [sep] + b)[1..] == b;
    } else {
      assert (a + [sep] + b)[1..] == a[1..] + [sep] + b;
      SplitAppend(a[1..], b, sep);
    }
  }

  // ---------------------------------------------------------------- bounded reads

  const MAX_INT64: int := 0x7fff_ffff_ffff_ffff

  /** A configured size: the environment's value when it parses and is positive,
      64 MiB otherwise; so never zero, and at most the largest 64-bit number. */
  type Limit = n: int | 0 < n <= MAX_INT64 witness 1

  /** What a reader yields: some bytes and then the end or an error. */
  datatype Source = Source(bytes: Bytes, broken: bool)

  /** io.ReadAll(io.LimitReader(s, limit+1)) with limit+1 in 64 bits: one byte past
      the limit tells an oversized body from one of exactly the limit, but at the
      largest limit the sum wraps to a negative number and nothing is read. */
  function ReadPast(s: Source, limit: Limit): (r: Source)
    ensures r.bytes <= s.bytes
    ensures limit < MAX_INT64 ==>
              && (|r.bytes| > limit <==> |s.bytes| > limit)
              && (|s.bytes| <= limit ==> r == s)
              && (|s.bytes| > limit ==> !r.broken)
    ensures limit == MAX_INT64 ==> r == Source([], false)
  {
    var n := if limit == MAX_INT64 then -MAX_INT64 - 1 else limit + 1;
    if n <= 0 then Source([], false)
    else if |s.bytes| >= n then Source(s.bytes[..n], false)
    else s
  }
}
