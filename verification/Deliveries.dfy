/** Sequences of values handed to consumers, for both kinds of producer. */
module Deliveries {

  /** Consumer `t` moved value `v` out of the slot of index `i`. */
  datatype Delivery<V> = Delivery(t: nat, i: nat, v: V)

  /**
   * Each delivery is of an index not delivered before, with the value enqueued there, to a consumer not yet past it.
   */
  ghost predicate Right<V>(places: seq<nat>, out: map<nat, V>, zenq: seq<V>, ys: seq<Delivery<V>>) {
    forall a :: 0 <= a < |ys| ==>
      && ys[a].i !in out && ys[a].i < |zenq| && ys[a].v == zenq[ys[a].i]
      && ys[a].t < |places| && places[ys[a].t] <= ys[a].i
  }

  /** No index twice, and in increasing order for each consumer. */
  ghost predicate Increasing<V>(ys: seq<Delivery<V>>) {
    forall a, b :: 0 <= a < b < |ys| ==> ys[a].i != ys[b].i && (ys[a].t == ys[b].t ==> ys[a].i < ys[b].i)
  }

  /** The deliveries are just what turns `out` into `zout`. */
  ghost predicate Covers<V>(out: map<nat, V>, zout: map<nat, V>, ys: seq<Delivery<V>>) {
    && (forall x :: x in zout ==> x in out || exists a :: 0 <= a < |ys| && ys[a].i == x)
    && (forall x :: x in out ==> x in zout)
    && (forall a :: 0 <= a < |ys| ==> ys[a].i in zout)
  }

  ghost predicate InOrder<V>(places: seq<nat>, out: map<nat, V>, zenq: seq<V>, zout: map<nat, V>,
      ys: seq<Delivery<V>>) {
    Right(places, out, zenq, ys) && Increasing(ys) && Covers(out, zout, ys)
  }

  lemma NoneDelivered<V>(places: seq<nat>, out: map<nat, V>, enq: seq<V>)
    ensures InOrder(places, out, enq, out, [])
  {
  }

  lemma PlacesLower<V>(p: seq<nat>, q: seq<nat>, out: map<nat, V>, zenq: seq<V>, zout: map<nat, V>,
      ys: seq<Delivery<V>>)
    requires InOrder(q, out, zenq, zout, ys) && |p| == |q| && forall t :: 0 <= t < |q| ==> p[t] <= q[t]
    ensures InOrder(p, out, zenq, zout, ys)
  {
  }

  lemma RightOne<V>(p: seq<nat>, q: seq<nat>, out: map<nat, V>, nout: map<nat, V>, enq: seq<V>, zenq: seq<V>,
      y: Delivery<V>, ys: seq<Delivery<V>>)
    requires Right(q, nout, zenq, ys) && |p| == |q| && forall t :: 0 <= t < |q| ==> p[t] <= q[t]
    requires y.t < |p| && y.i == p[y.t] < q[y.t] && y.i !in out && y.i < |enq| && enq <= zenq && y.v == enq[y.i]
    requires nout == out[y.i := y.v]
    ensures Right(p, out, zenq, [y] + ys)
  {
  }

  lemma IncreasingOne<V>(q: seq<nat>, nout: map<nat, V>, zenq: seq<V>, y: Delivery<V>, ys: seq<Delivery<V>>)
    requires Right(q, nout, zenq, ys) && Increasing(ys) && y.t < |q| && y.i < q[y.t] && y.i in nout
    ensures Increasing([y] + ys)
  {
  }

  lemma CoversOne<V>(out: map<nat, V>, nout: map<nat, V>, zout: map<nat, V>, y: Delivery<V>, ys: seq<Delivery<V>>)
    requires Covers(nout, zout, ys) && nout == out[y.i := y.v]
    ensures Covers(out, zout, [y] + ys)
  {
    var w := [y] + ys;
    forall x | x in zout
      ensures x in out || exists a :: 0 <= a < |w| && w[a].i == x
    {
      if x !in nout {
        var a :| 0 <= a < |ys| && ys[a].i == x;
        assert w[a + 1].i == x;
      } else if x == y.i {
        assert w[0].i == x;
      }
    }
  }

  lemma DeliverOne<V>(p: seq<nat>, q: seq<nat>, out: map<nat, V>, nout: map<nat, V>, enq: seq<V>, zenq: seq<V>,
      zout: map<nat, V>, y: Delivery<V>, ys: seq<Delivery<V>>)
    requires InOrder(q, nout, zenq, zout, ys) && |p| == |q| && forall t :: 0 <= t < |q| ==> p[t] <= q[t]
    requires y.t < |p| && y.i == p[y.t] < q[y.t] && y.i !in out && y.i < |enq| && enq <= zenq && y.v == enq[y.i]
    requires nout == out[y.i := y.v]
    ensures InOrder(p, out, zenq, zout, [y] + ys)
  {
    hide Right, Increasing, Covers;
    RightOne(p, q, out, nout, enq, zenq, y, ys);
    IncreasingOne(q, nout, zenq, y, ys);
    CoversOne(out, nout, zout, y, ys);
  }
}
