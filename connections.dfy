/** The registry of connected push-channel subscribers (`ConnectionManager`).
    A subscriber is an opaque handle compared by equality; the outcome of each
    `send_json` is supplied as one boolean per attempted delivery. */
module Connections {
  import opened Sequences

  /** One delivery attempt: `message` sent to subscriber `to`. */
  datatype Send<S, M> = Send(to: S, message: M)

  /** The registry after one delivery attempt to `ws`: unchanged when it
      succeeded, `ws` disconnected when it failed. */
  function AfterSend<S(==)>(conns: seq<S>, ws: S, ok: bool): (r: seq<S>)
    ensures ok ==> r == conns
    ensures !ok && ws !in conns ==> r == conns
    ensures !ok && ws in conns ==> |r| == |conns| - 1
  {
    if ok then conns else Discard(conns, ws)
  }

  /** The registry after walking `snapshot` in order and disconnecting every
      subscriber whose delivery failed (`delivered[i]` is false). */
  function Broadcasted<S(==)>(conns: seq<S>, snapshot: seq<S>, delivered: seq<bool>): (r: seq<S>)
    requires |delivered| == |snapshot|
    ensures |conns| - |snapshot| <= |r| <= |conns|
    ensures |conns| - |snapshot| <= |r| <= |conns|
    decreases |snapshot|
  {
    if snapshot == [] then conns
    else
      Broadcasted(AfterSend(conns, snapshot[0], delivered[0]), snapshot[1..], delivered[1..])
  }

  /** The subscribers of `snapshot` whose delivery failed, in order. */
  function Failed<S>(snapshot: seq<S>, delivered: seq<bool>): (r: seq<S>)
    requires |delivered| == |snapshot|
    ensures |r| <= |snapshot|
    decreases |snapshot|
  {
    if snapshot == [] then []
    else (if delivered[0] then [] else [snapshot[0]]) + Failed(snapshot[1..], delivered[1..])
  }

  /** The subscribers of `snapshot` whose delivery succeeded, in order. */
  function Survivors<S>(snapshot: seq<S>, delivered: seq<bool>): (r: seq<S>)
    requires |delivered| == |snapshot|
    ensures |r| <= |snapshot|
    decreases |snapshot|
  {
    if snapshot == [] then []
    else (if delivered[0] then [snapshot[0]] else []) + Survivors(snapshot[1..], delivered[1..])
  }

  /** Every attempted delivery either succeeds or fails: the survivors and the
      failures together are the snapshot. */
  lemma {:induction false} OutcomesPartition<S>(snapshot: seq<S>, delivered: seq<bool>)
    requires |delivered| == |snapshot|
    ensures multiset(Survivors(snapshot, delivered)) + multiset(Failed(snapshot, delivered))
         == multiset(snapshot)
    decreases |snapshot|
  {
    if snapshot != [] {
      var h, tail, d := snapshot[0], snapshot[1..], delivered[1..];
      OutcomesPartition(tail, d);
      var kept, lost := multiset(Survivors(tail, d)), multiset(Failed(tail, d));
      assert multiset(snapshot) == multiset{h} + multiset(tail) by {
        assert snapshot == [h] + tail;
      }
      if delivered[0] {
        assert multiset(Survivors(snapshot, delivered)) == multiset{h} + kept by {
          assert Survivors(snapshot, delivered) == [h] + Survivors(tail, d);
        }
        assert Failed(snapshot, delivered) == Failed(tail, d);
      } else {
        assert Survivors(snapshot, delivered) == Survivors(tail, d);
        assert multiset(Failed(snapshot, delivered)) == multiset{h} + lost by {
          assert Failed(snapshot, delivered) == [h] + Failed(tail, d);
        }
      }
    }
  }

  /** Whatever the registry holds, a broadcast takes away exactly one entry per
      failed delivery of a subscriber still present, and adds nothing. */
  lemma {:induction false} BroadcastRemovesFailed<S>(conns: seq<S>, snapshot: seq<S>, delivered: seq<bool>)
    requires |delivered| == |snapshot|
    ensures multiset(Broadcasted(conns, snapshot, delivered))
         == multiset(conns) - multiset(Failed(snapshot, delivered))
    decreases |snapshot|
  {
    if snapshot != [] {
      var h, tail, d := snapshot[0], snapshot[1..], delivered[1..];
      var next := AfterSend(conns, h, delivered[0]);
      BroadcastRemovesFailed(next, tail, d);
      assert Broadcasted(conns, snapshot, delivered) == Broadcasted(next, tail, d);
      if delivered[0] {
        assert Failed(snapshot, delivered) == Failed(tail, d);
      } else {
        assert Failed(snapshot, delivered) == [h] + Failed(tail, d);
        DiscardMultiset(conns, h);
        SubtractInTurn(multiset(conns), h, multiset(Failed(tail, d)));
      }
    }
  }

  /** Taking away `h` and then `rest` is taking away both at once. */
  lemma SubtractInTurn<S>(m: multiset<S>, h: S, rest: multiset<S>)
    ensures (m - multiset{h}) - rest == m - (multiset{h} + rest)
  {
  }

  /** A broadcast never adds a subscriber. */
  lemma BroadcastAddsNothing<S>(conns: seq<S>, snapshot: seq<S>, delivered: seq<bool>)
    requires |delivered| == |snapshot|
    ensures multiset(Broadcasted(conns, snapshot, delivered)) <= multiset(conns)
  {
    BroadcastRemovesFailed(conns, snapshot, delivered);
  }

  /** Generalisation used for BroadcastKeepsSurvivors: the part already walked
      (`kept`) stays in front, the rest is filtered by the delivery outcomes. */
  lemma {:induction false} BroadcastFilters<S>(kept: seq<S>, rest: seq<S>, delivered: seq<bool>)
    requires |delivered| == |rest|
    requires NoDup(kept + rest)
    ensures Broadcasted(kept + rest, rest, delivered) == kept + Survivors(rest, delivered)
    decreases |rest|, 1
  {
    if rest != [] {
      if delivered[0] {
        BroadcastKeeps(kept, rest, delivered);
      } else {
        BroadcastDrops(kept, rest, delivered);
      }
    }
  }

  /** BroadcastFilters when the first delivery succeeds. */
  lemma {:induction false} BroadcastKeeps<S>(kept: seq<S>, rest: seq<S>, delivered: seq<bool>)
    requires |delivered| == |rest| && rest != [] && delivered[0]
    requires NoDup(kept + rest)
    ensures Broadcasted(kept + rest, rest, delivered) == kept + Survivors(rest, delivered)
    decreases |rest|, 0
  {
    var h, tail, d := rest[0], rest[1..], delivered[1..];
    var all := kept + rest;
    var front := kept + [h];
    assert all == front + tail;
    BroadcastFilters(front, tail, d);
    assert Broadcasted(all, rest, delivered) == Broadcasted(front + tail, tail, d);
    assert Survivors(rest, delivered) == [h] + Survivors(tail, d);
    assert front + Survivors(tail, d) == kept + ([h] + Survivors(tail, d));
  }

  /** BroadcastFilters when the first delivery fails. */
  lemma {:induction false} BroadcastDrops<S>(kept: seq<S>, rest: seq<S>, delivered: seq<bool>)
    requires |delivered| == |rest| && rest != [] && !delivered[0]
    requires NoDup(kept + rest)
    ensures Broadcasted(kept + rest, rest, delivered) == kept + Survivors(rest, delivered)
    decreases |rest|, 0
  {
    var h, tail, d := rest[0], rest[1..], delivered[1..];
    var all := kept + rest;
    var left := kept + tail;
    assert Discard(all, h) == left && NoDup(left) by {
      assert all == kept + [h] + tail;
      NoDupSplit(kept, h, tail);
      RemoveFirstAt(kept, h, tail);
      RemoveFirstNoDup(all, h);
    }
    assert Broadcasted(all, rest, delivered) == Broadcasted(left, tail, d);
    assert Survivors(rest, delivered) == Survivors(tail, d);
    BroadcastFilters(kept, tail, d);
  }

  /** On a registry holding each subscriber once, a broadcast leaves exactly the
      subscribers whose delivery succeeded, in their original relative order. */
  lemma BroadcastKeepsSurvivors<S>(conns: seq<S>, delivered: seq<bool>)
    requires |delivered| == |conns|
    requires NoDup(conns)
    ensures Broadcasted(conns, conns, delivered) == Survivors(conns, delivered)
  {
    assert [] + conns == conns;
    BroadcastFilters([], conns, delivered);
  }

  class ConnectionManager<S(==)> {
    var activeConnections: seq<S>

    constructor ()
      ensures activeConnections == []
    {
      activeConnections := [];
    }

    /** `connect`: once the handshake is done (not modelled), the subscriber
        goes at the end and every earlier entry stays where it was. */
    method Connect(ws: S)
      modifies this
      ensures activeConnections == old(activeConnections) + [ws]
    {
      activeConnections := activeConnections + [ws];
    }

    /** `disconnect`: removes the first occurrence if present, silently does nothing otherwise. */
    method Disconnect(ws: S)
      modifies this
      ensures activeConnections == Discard(old(activeConnections), ws)
    {
      if ws in activeConnections {
        activeConnections := RemoveFirst(activeConnections, ws);
      }
      assert activeConnections == Discard(old(activeConnections), ws);
    }

    /** `broadcast`: walks a copy of the registry, attempts delivery to every
        subscriber of the copy in order, and disconnects those whose delivery
        failed. `delivered[i]` is the outcome of the i-th attempt; `sends`
        lists the attempts made. */
    method Broadcast<M>(message: M, delivered: seq<bool>) returns (sends: seq<Send<S, M>>)
      requires |delivered| == |activeConnections|
      modifies this
      ensures |sends| == |old(activeConnections)|
      ensures forall i :: 0 <= i < |sends| ==> sends[i] == Send(old(activeConnections)[i], message)
      ensures activeConnections == Broadcasted(old(activeConnections), old(activeConnections), delivered)
    {
      var snapshot := activeConnections;
      sends := [];
      var i := 0;
      while i < |snapshot|
        invariant 0 <= i <= |snapshot|
        invariant |sends| == i
        invariant forall k :: 0 <= k < i ==> sends[k] == Send(snapshot[k], message)
        invariant Broadcasted(activeConnections, snapshot[i..], delivered[i..])
               == Broadcasted(snapshot, snapshot, delivered)
      {
        sends := sends + [Send(snapshot[i], message)];
        assert snapshot[i..][1..] == snapshot[i + 1..];
        assert delivered[i..][1..] == delivered[i + 1..];
        if !delivered[i] {
          Disconnect(snapshot[i]);
        }
        i := i + 1;
      }
    }
  }
}
