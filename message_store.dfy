/**
 * The persistent queue behind the delivery service, kept as an in-memory sequence of
 * rows in insertion order. The database adapter itself is not part of this model:
 * its `delete(piece)` is taken to remove every row whose stored piece equals the
 * argument, and to do nothing when no row matches.
 */
module MessageStore {

  /** One queued message: the columns `prefix`, `piece`, `form` and `xml` of a queue row. */
  datatype Row = Row(prefix: string, piece: string, form: string, xml: string)

  /** The rows of `q`, in order, whose piece is not one of `pieces`. */
  function Without(q: seq<Row>, pieces: set<string>): (r: seq<Row>)
    ensures |r| <= |q|
    ensures forall x :: x in r <==> x in q && x.piece !in pieces
  {
    if q == [] then []
    else (if q[0].piece in pieces then [] else [q[0]]) + Without(q[1..], pieces)
  }

  /** `delete(piece)`: retirement is keyed by the piece text, not by a row number. */
  function Delete(q: seq<Row>, piece: string): (r: seq<Row>)
    ensures forall x :: x in r <==> x in q && x.piece != piece
  {
    Without(q, {piece})
  }

  /** Deleting a piece keeps every copy of the other rows and no copy of a row holding it. */
  lemma DeleteCounts(q: seq<Row>, piece: string)
    ensures forall x :: multiset(Delete(q, piece))[x] == if x.piece == piece then 0 else multiset(q)[x]
  {
    WithoutCounts(q, {piece});
  }

  /** `a` occurs in `b` with its elements in the same relative order. */
  predicate IsSubsequence(a: seq<Row>, b: seq<Row>)
    decreases |b|
  {
    a == [] || (b != [] && if a[0] == b[0] then IsSubsequence(a[1..], b[1..]) else IsSubsequence(a, b[1..]))
  }

  /** Filtering keeps every copy of a surviving row and no copy of a removed one. */
  lemma {:induction false} WithoutCounts(q: seq<Row>, pieces: set<string>)
    ensures forall x :: multiset(Without(q, pieces))[x] == if x.piece in pieces then 0 else multiset(q)[x]
  {
    if q != [] {
      WithoutCounts(q[1..], pieces);
      assert q == [q[0]] + q[1..];
    }
  }

  lemma {:induction false} WithoutNothing(q: seq<Row>)
    ensures Without(q, {}) == q
  {
    if q != [] {
      WithoutNothing(q[1..]);
    }
  }

  /** Filtering twice is filtering once by the union: the basis of every retirement argument. */
  lemma {:induction false} WithoutWithout(q: seq<Row>, a: set<string>, b: set<string>)
    ensures Without(Without(q, a), b) == Without(q, a + b)
  {
    if q != [] {
      WithoutWithout(q[1..], a, b);
      var head := if q[0].piece in a then [] else [q[0]];
      assert Without(q, a) == head + Without(q[1..], a);
      if q[0].piece in a {
        assert Without(q, a) == Without(q[1..], a);
      } else {
        assert Without(q, a)[0] == q[0];
        assert Without(q, a)[1..] == Without(q[1..], a);
      }
    }
  }

  /** Filtering out the piece of every row leaves nothing. */
  lemma {:induction false} WithoutEverything(q: seq<Row>, pieces: set<string>)
    requires forall x :: x in q ==> x.piece in pieces
    ensures Without(q, pieces) == []
  {
    if q != [] {
      WithoutEverything(q[1..], pieces);
    }
  }

  /** Retiring a piece twice is the same as retiring it once. */
  lemma DeleteIdempotent(q: seq<Row>, piece: string)
    ensures Delete(Delete(q, piece), piece) == Delete(q, piece)
  {
    WithoutWithout(q, {piece}, {piece});
    assert {piece} + {piece} == {piece};
  }

  /** Retiring a piece that no row holds leaves the queue as it was. */
  lemma {:induction false} DeleteAbsent(q: seq<Row>, piece: string)
    requires forall x :: x in q ==> x.piece != piece
    ensures Delete(q, piece) == q
  {
    if q != [] {
      DeleteAbsent(q[1..], piece);
      assert Without(q, {piece}) == [q[0]] + Without(q[1..], {piece});
    }
  }

  /** Filtering keeps the surviving rows in their original (insertion) order. */
  lemma {:induction false} WithoutIsSubsequence(q: seq<Row>, pieces: set<string>)
    ensures IsSubsequence(Without(q, pieces), q)
  {
    if q != [] {
      WithoutIsSubsequence(q[1..], pieces);
      var r := Without(q, pieces);
      if q[0].piece in pieces {
        assert r == Without(q[1..], pieces);
        assert r != [] ==> r[0] in r && r[0] != q[0];
      } else {
        assert r[0] == q[0] && r[1..] == Without(q[1..], pieces);
      }
    }
  }
}
