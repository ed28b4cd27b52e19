/** Sequences of ids: first occurrences, and order with respect to another sequence. */
module Order {

  ghost predicate Distinct<T>(q: seq<T>) {
    forall i, j :: 0 <= i < j < |q| ==> q[i] != q[j]
  }

  /** The sequence without the later copies of an element. */
  ghost function Firsts<T>(q: seq<T>): seq<T> {
    if q == [] then []
    else
      var init, last := q[..|q| - 1], q[|q| - 1];
      if last in init then Firsts(init) else Firsts(init) + [last]
  }

  lemma FirstsSnoc<T>(q: seq<T>, x: T)
    ensures Firsts(q + [x]) == if x in q then Firsts(q) else Firsts(q) + [x]
  {
    assert (q + [x])[..|q|] == q;
  }

  lemma {:induction false} FirstsMembers<T>(q: seq<T>)
    ensures forall x :: x in Firsts(q) <==> x in q
    ensures Distinct(Firsts(q))
    decreases |q|
  {
    if q != [] {
      FirstsMembers(q[..|q| - 1]);
      assert q == q[..|q| - 1] + [q[|q| - 1]];
    }
  }

  lemma {:induction false} FirstsDistinct<T>(q: seq<T>)
    ensures Firsts(q) == q <==> Distinct(q)
    decreases |q|
  {
    FirstsMembers(q);
    if q != [] && Distinct(q) {
      FirstsDistinct(q[..|q| - 1]);
    }
  }

  /** Cutting a tail off a sequence cuts a tail off its first occurrences. */
  lemma {:induction false} FirstsPrefix<T>(q: seq<T>, n: nat)
    requires n <= |q|
    ensures Firsts(q[..n]) <= Firsts(q)
    decreases |q|
  {
    if n < |q| {
      var init := q[..|q| - 1];
      assert init[..n] == q[..n];
      FirstsPrefix(init, n);
    } else {
      assert q[..n] == q;
    }
  }

  ghost predicate Before<T>(order: seq<T>, x: T, y: T) {
    exists p, q :: 0 <= p < q < |order| && order[p] == x && order[q] == y
  }

  /** The elements of q come from `order`, and in that order. */
  ghost predicate Ordered<T>(q: seq<T>, order: seq<T>) {
    && (forall i :: 0 <= i < |q| ==> q[i] in order)
    && (forall i, j :: 0 <= i < j < |q| ==> Before(order, q[i], q[j]))
  }

  /** A new last element. */
  lemma OrderedSnoc<T>(q: seq<T>, order: seq<T>, x: T)
    requires Ordered(q, order)
    ensures Ordered(q + [x], order + [x])
  {
    var line, more := q + [x], order + [x];
    forall i, j | 0 <= i < j < |line| ensures Before(more, line[i], line[j]) {
      if j < |q| {
        assert Before(order, q[i], q[j]);
        var a, b :| 0 <= a < b < |order| && order[a] == q[i] && order[b] == q[j];
        assert more[a] == line[i] && more[b] == line[j];
      } else {
        assert q[i] in order;
        var a :| 0 <= a < |order| && order[a] == q[i];
        assert more[a] == line[i] && more[|order|] == line[j];
      }
    }
  }

  /** Leaving elements out. */
  lemma OrderedDrop<T>(a: seq<T>, b: seq<T>, c: seq<T>, order: seq<T>)
    requires Ordered(a + b + c, order)
    ensures Ordered(a + c, order)
  {
    var whole, left := a + b + c, a + c;
    forall i | 0 <= i < |left|
      ensures left[i] in order
    {
      assert left[i] == whole[if i < |a| then i else i + |b|];
    }
    forall i, j | 0 <= i < j < |left| ensures Before(order, left[i], left[j]) {
      assert left[i] == whole[if i < |a| then i else i + |b|];
      assert left[j] == whole[if j < |a| then j else j + |b|];
    }
  }

  lemma OrderedPrefix<T>(q: seq<T>, n: nat, order: seq<T>)
    requires Ordered(q, order) && n <= |q|
    ensures Ordered(q[..n], order)
  {
  }

  lemma OrderedDistinct<T>(q: seq<T>, order: seq<T>)
    requires Ordered(q, order) && Distinct(order)
    ensures Distinct(q)
  {
    forall i, j | 0 <= i < j < |q| ensures q[i] != q[j] {
      assert Before(order, q[i], q[j]);
    }
  }
}
