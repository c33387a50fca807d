/** One side of the book as a single flat queue: best price first, and in order
    of arrival within a price. This is the reference the price levels refine. */
module Queues {
  import opened Types

  function Sum(f: OrderData -> real, q: seq<OrderData>): real {
    if q == [] then 0.0 else f(q[0]) + Sum(f, q[1..])
  }

  function Ids(q: seq<OrderData>): set<OrderId> {
    set o | o in q :: o.id
  }

  ghost predicate Sorted(q: seq<OrderData>) {
    q == [] || ((forall o :: o in q[1..] ==> Rank(q[0]) <= Rank(o)) && Sorted(q[1..]))
  }

  ghost predicate Distinct(q: seq<OrderData>) {
    q == [] || (q[0].id !in Ids(q[1..]) && Distinct(q[1..]))
  }

  /** Time priority: an order goes behind every order of an equal or better price. */
  function Insert(q: seq<OrderData>, o: OrderData): seq<OrderData> {
    if q == [] || Rank(o) < Rank(q[0]) then [o] + q else [q[0]] + Insert(q[1..], o)
  }

  function Remove(q: seq<OrderData>, id: OrderId): seq<OrderData> {
    if q == [] then []
    else if q[0].id == id then q[1..]
    else [q[0]] + Remove(q[1..], id)
  }

  lemma {:induction false} SumConcat(f: OrderData -> real, a: seq<OrderData>, b: seq<OrderData>)
    ensures Sum(f, a + b) == Sum(f, a) + Sum(f, b)
  {
    if a == [] {
      assert a + b == b;
    } else {
      assert (a + b)[1..] == a[1..] + b;
      SumConcat(f, a[1..], b);
    }
  }

  lemma {:induction false} SumNonNegative(f: OrderData -> real, q: seq<OrderData>)
    requires forall o :: o in q ==> f(o) >= 0.0
    ensures Sum(f, q) >= 0.0
  {
    if q != [] {
      SumNonNegative(f, q[1..]);
    }
  }

  lemma {:induction false} SumAgree(f: OrderData -> real, g: OrderData -> real, q: seq<OrderData>)
    requires forall o :: o in q ==> f(o) == g(o)
    ensures Sum(f, q) == Sum(g, q)
  {
    if q != [] {
      SumAgree(f, g, q[1..]);
    }
  }

  /** Where an insertion lands: behind all equal or better prices, before all
      worse ones, every other order keeping its place. */
  lemma {:induction false} InsertPlaces(q: seq<OrderData>, o: OrderData) returns (k: nat)
    requires Sorted(q)
    ensures k <= |q| && Insert(q, o) == q[..k] + [o] + q[k..]
    ensures forall i :: 0 <= i < k ==> Rank(q[i]) <= Rank(o)
    ensures forall i :: k <= i < |q| ==> Rank(o) < Rank(q[i])
  {
    if q == [] || Rank(o) < Rank(q[0]) {
      k := 0;
    } else {
      var j := InsertPlaces(q[1..], o);
      k := j + 1;
      assert q[..k] == [q[0]] + q[1..][..j];
      assert q[k..] == q[1..][j..];
    }
  }

  lemma IdsCons(q: seq<OrderData>)
    requires q != []
    ensures Ids(q) == {q[0].id} + Ids(q[1..])
    ensures forall o :: o in q <==> o == q[0] || o in q[1..]
  {
    assert q == [q[0]] + q[1..];
    assert forall o :: o in q[1..] ==> o in q;
  }

  lemma {:induction false} InsertKeeps(q: seq<OrderData>, o: OrderData)
    requires Sorted(q)
    ensures Sorted(Insert(q, o))
    ensures forall x :: x in Insert(q, o) <==> x in q || x == o
    ensures Ids(Insert(q, o)) == Ids(q) + {o.id}
    ensures Distinct(q) && o.id !in Ids(q) ==> Distinct(Insert(q, o))
  {
    var r := Insert(q, o);
    IdsCons(r);
    if q == [] {
    } else if Rank(o) < Rank(q[0]) {
      IdsCons(q);
      assert r[1..] == q;
    } else {
      IdsCons(q);
      InsertKeeps(q[1..], o);
      assert r[1..] == Insert(q[1..], o);
    }
  }

  lemma {:induction false} SumInsert(f: OrderData -> real, q: seq<OrderData>, o: OrderData)
    ensures Sum(f, Insert(q, o)) == Sum(f, q) + f(o)
  {
    if !(q == [] || Rank(o) < Rank(q[0])) {
      SumInsert(f, q[1..], o);
      assert Insert(q, o)[1..] == Insert(q[1..], o);
    } else {
      assert ([o] + q)[1..] == q;
    }
  }

  /** Insertion skips a prefix of equal or better prices. */
  lemma {:induction false} InsertSkips(a: seq<OrderData>, b: seq<OrderData>, o: OrderData)
    requires forall x :: x in a ==> Rank(x) <= Rank(o)
    ensures Insert(a + b, o) == a + Insert(b, o)
  {
    if a == [] {
      assert a + b == b;
      assert a + Insert(b, o) == Insert(b, o);
    } else {
      assert (a + b)[0] == a[0];
      assert (a + b)[1..] == a[1..] + b;
      InsertSkips(a[1..], b, o);
      assert a == [a[0]] + a[1..];
    }
  }

  /** Where a removal happens. */
  lemma {:induction false} RemovePlaces(q: seq<OrderData>, id: OrderId) returns (k: nat)
    requires id in Ids(q)
    ensures k < |q| && q[k].id == id && Remove(q, id) == q[..k] + q[k + 1..]
    ensures forall i :: 0 <= i < k ==> q[i].id != id
  {
    if q[0].id == id {
      k := 0;
    } else {
      var j := RemovePlaces(q[1..], id);
      k := j + 1;
      TailCut(q, j);
      forall i | 0 <= i < k ensures q[i].id != id {
        assert i > 0 ==> q[i] == q[1..][i - 1];
      }
    }
  }

  lemma TailCut(q: seq<OrderData>, j: nat)
    requires j + 1 < |q|
    ensures q[1..][j] == q[j + 1]
    ensures [q[0]] + (q[1..][..j] + q[1..][j + 1..]) == q[..j + 1] + q[j + 2..]
  {
  }

  lemma {:induction false} RemoveKeeps(q: seq<OrderData>, id: OrderId)
    ensures Sorted(q) ==> Sorted(Remove(q, id))
    ensures Distinct(q) ==> Distinct(Remove(q, id)) && Ids(Remove(q, id)) == Ids(q) - {id}
    ensures forall x :: x in Remove(q, id) ==> x in q
  {
    if q != [] {
      IdsCons(q);
      if q[0].id != id {
        RemoveKeeps(q[1..], id);
        var r := Remove(q, id);
        IdsCons(r);
        assert r[1..] == Remove(q[1..], id);
      }
    }
  }

  function Find(q: seq<OrderData>, id: OrderId): (o: OrderData)
    requires id in Ids(q)
    ensures o in q && o.id == id
  {
    if q[0].id == id then q[0] else Find(q[1..], id)
  }

  lemma {:induction false} SumRemove(f: OrderData -> real, q: seq<OrderData>, id: OrderId)
    requires id in Ids(q)
    ensures Sum(f, Remove(q, id)) == Sum(f, q) - f(Find(q, id))
  {
    if q[0].id != id {
      SumRemove(f, q[1..], id);
      assert Remove(q, id)[1..] == Remove(q[1..], id);
    }
  }

  /** A member is found under its own id when ids are distinct. */
  lemma {:induction false} FindMember(q: seq<OrderData>, o: OrderData)
    requires Distinct(q) && o in q
    ensures o.id in Ids(q) && Find(q, o.id) == o
  {
    IdsCons(q);
    if o != q[0] {
      FindMember(q[1..], o);
    }
  }

  /** Removing what was just inserted restores the queue exactly. */
  lemma {:induction false} RemoveUndoesInsert(q: seq<OrderData>, o: OrderData)
    requires o.id !in Ids(q)
    ensures Remove(Insert(q, o), o.id) == q
  {
    if !(q == [] || Rank(o) < Rank(q[0])) {
      assert q[0].id in Ids(q);
      assert Insert(q, o)[1..] == Insert(q[1..], o);
      RemoveUndoesInsert(q[1..], o);
    }
  }
}
