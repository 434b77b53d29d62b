/**
 * The `offline_messages` table: messages routed to a recipient with no
 * session, kept in insertion order with the time they were stored.
 */
module OfflineQueue {
  import opened Protocol

  /** One row: recipient, sender, message text and storage timestamp. */
  datatype Queued = Queued(recipient: string, sender: string, body: string, ts: nat)

  /** Rows were stored at strictly increasing times. */
  predicate Ordered(q: seq<Queued>) {
    forall i, j :: 0 <= i < j < |q| ==> q[i].ts < q[j].ts
  }

  /** No row is stamped later than the clock. */
  predicate StampedBy(q: seq<Queued>, clock: nat) {
    forall i :: 0 <= i < |q| ==> q[i].ts <= clock
  }

  /** `SELECT ... WHERE recipient = ?`, in table order. */
  function Pending(q: seq<Queued>, user: string): seq<Queued> {
    if q == [] then []
    else (if q[0].recipient == user then [q[0]] else []) + Pending(q[1..], user)
  }

  /** The table after `DELETE ... WHERE recipient = ?`. */
  function Without(q: seq<Queued>, user: string): seq<Queued> {
    if q == [] then []
    else (if q[0].recipient != user then [q[0]] else []) + Without(q[1..], user)
  }

  /** The `msg` packets the drain builds, addressed to `user`, carrying the stored timestamps. */
  function DrainEnvelopes(ms: seq<Queued>, user: string): (es: seq<Envelope>)
    ensures |es| == |ms|
    ensures forall k :: 0 <= k < |ms| ==> es[k] == Chat(ms[k].sender, user, ms[k].body, ms[k].ts)
  {
    if ms == [] then [] else [Chat(ms[0].sender, user, ms[0].body, ms[0].ts)] + DrainEnvelopes(ms[1..], user)
  }

  /** Every pending row is a row of the table addressed to `user`. */
  lemma {:induction false} PendingRows(q: seq<Queued>, user: string)
    ensures forall m :: m in Pending(q, user) <==> m in q && m.recipient == user
  {
    if q != [] {
      PendingRows(q[1..], user);
      assert q == [q[0]] + q[1..];
    }
  }

  /**
   * In a table stored in time order, a recipient's rows come out in ascending
   * timestamp order, so table order is the `ORDER BY timestamp ASC` order.
   */
  lemma {:induction false} PendingOrdered(q: seq<Queued>, user: string)
    requires Ordered(q)
    ensures Ordered(Pending(q, user))
  {
    if q != [] {
      PendingOrdered(q[1..], user);
      PendingRows(q[1..], user);
      var p := Pending(q, user);
      if q[0].recipient == user {
        forall j | 0 < j < |p| ensures q[0].ts < p[j].ts {
          assert p[j] in Pending(q[1..], user);
          var k :| 0 <= k < |q[1..]| && q[1..][k] == p[j];
        }
      }
    }
  }

  /** Deleting rows keeps the rest in time order and within the clock. */
  lemma {:induction false} WithoutOrdered(q: seq<Queued>, user: string, clock: nat)
    requires Ordered(q) && StampedBy(q, clock)
    ensures Ordered(Without(q, user)) && StampedBy(Without(q, user), clock)
    ensures forall m :: m in Without(q, user) <==> m in q && m.recipient != user
  {
    if q != [] {
      WithoutOrdered(q[1..], user, clock);
      assert q == [q[0]] + q[1..];
      var w := Without(q, user);
      if q[0].recipient != user {
        forall j | 0 < j < |w| ensures q[0].ts < w[j].ts {
          assert w[j] in Without(q[1..], user);
          var k :| 0 <= k < |q[1..]| && q[1..][k] == w[j];
        }
      }
    }
  }

  /** The drain and the delete partition the table: no row is lost or duplicated. */
  lemma {:induction false} PendingPartition(q: seq<Queued>, user: string)
    ensures multiset(q) == multiset(Pending(q, user)) + multiset(Without(q, user))
  {
    if q != [] {
      PendingPartition(q[1..], user);
      assert q == [q[0]] + q[1..];
    }
  }

  /**
   * After the delete, `user` has nothing pending and every other recipient's
   * rows are exactly as before.
   */
  lemma {:induction false} PendingAfterDelete(q: seq<Queued>, user: string, other: string)
    ensures Pending(Without(q, user), other) == if other == user then [] else Pending(q, other)
  {
    if q != [] {
      PendingAfterDelete(q[1..], user, other);
      var w := Without(q[1..], user);
      if q[0].recipient != user {
        assert Without(q, user) == [q[0]] + w;
        assert ([q[0]] + w)[1..] == w;
      } else {
        assert Without(q, user) == w;
        assert Pending(q, other) == Pending(q[1..], other) || other == user;
      }
    }
  }

  /** With nothing pending for `user`, the delete leaves the table as it was. */
  lemma {:induction false} DeleteNothing(q: seq<Queued>, user: string)
    requires Pending(q, user) == []
    ensures Without(q, user) == q
  {
    if q != [] {
      DeleteNothing(q[1..], user);
    }
  }

  /** Storing a row adds it at the end of its recipient's pending rows and nowhere else. */
  lemma {:induction false} PendingAppend(q: seq<Queued>, m: Queued, user: string)
    ensures Pending(q + [m], user) == Pending(q, user) + (if m.recipient == user then [m] else [])
  {
    if q != [] {
      PendingAppend(q[1..], m, user);
      assert (q + [m])[1..] == q[1..] + [m];
    }
  }

  /**
   * The drain writes `msg` packets addressed to `user`, one per pending row,
   * in strictly ascending timestamp order.
   */
  lemma DrainAscending(q: seq<Queued>, user: string)
    requires Ordered(q)
    ensures var es := DrainEnvelopes(Pending(q, user), user);
      && |es| == |Pending(q, user)|
      && (forall i :: 0 <= i < |es| ==> es[i].Chat? && es[i].recipient == user)
      && (forall i, j :: 0 <= i < j < |es| ==> es[i].timestamp < es[j].timestamp)
  {
    PendingOrdered(q, user);
  }
}
