/**
 * What the server writes to sockets. Every `send_with_delimiter` call that
 * reaches an open socket appends one delivery to a single log; a
 * connection's outbox is the log seen from that connection.
 */
module Wire {
  import opened Protocol
  import opened Registry

  datatype Delivery = Delivery(conn: ConnId, env: Envelope)

  /** The envelopes written to one connection, in the order they were written. */
  function Outbox(w: seq<Delivery>, conn: ConnId): seq<Envelope> {
    if w == [] then []
    else (if w[0].conn == conn then [w[0].env] else []) + Outbox(w[1..], conn)
  }

  /** `for sock in clients.values(): send(sock, env)`, in dictionary order. */
  function Fanout(r: Sessions, env: Envelope): seq<Delivery> {
    if r == [] then [] else [Delivery(r[0].conn, env)] + Fanout(r[1..], env)
  }

  /** A run of envelopes all written to one connection. */
  function Deliver(conn: ConnId, es: seq<Envelope>): seq<Delivery> {
    if es == [] then [] else [Delivery(conn, es[0])] + Deliver(conn, es[1..])
  }

  function Repeat(env: Envelope, n: nat): seq<Envelope> {
    if n == 0 then [] else [env] + Repeat(env, n - 1)
  }

  /**
   * How far a fan-out over `r` gets: the sessions before the first one whose
   * socket the server has already closed. Writing to a closed socket raises
   * an error that `send_with_delimiter` does not catch, which ends the loop.
   */
  function LivePrefix(r: Sessions, closed: set<ConnId>): (k: nat)
    ensures k <= |r|
    ensures forall i :: 0 <= i < k ==> r[i].conn !in closed
    ensures k < |r| ==> r[k].conn in closed
  {
    if r == [] || r[0].conn in closed then 0 else 1 + LivePrefix(r[1..], closed)
  }

  /** Every session's socket is open, so a fan-out reaches all of them. */
  predicate AllOpen(r: Sessions, closed: set<ConnId>) {
    LivePrefix(r, closed) == |r|
  }

  /** The `user_list` payload: every registered name, marked online exactly when it is a registry key. */
  function Directory(users: set<string>, r: Sessions): map<string, Presence> {
    map u | u in users :: if u in Keys(r) then Online else Offline
  }

  /** The user list covers the whole directory and says "online" exactly for names with a session. */
  lemma DirectoryPresence(users: set<string>, r: Sessions, u: string)
    ensures u in Directory(users, r) <==> u in users
    ensures u in users ==> (Directory(users, r)[u] == Online <==> Lookup(r, u).Some?)
  {
    LookupKeys(r, u);
  }

  /** Outboxes of a concatenated log are concatenated outboxes. */
  lemma {:induction false} OutboxAppend(a: seq<Delivery>, b: seq<Delivery>, conn: ConnId)
    ensures Outbox(a + b, conn) == Outbox(a, conn) + Outbox(b, conn)
  {
    if a != [] {
      OutboxAppend(a[1..], b, conn);
      assert (a + b)[0] == a[0];
      assert (a + b)[1..] == a[1..] + b;
    } else {
      assert a + b == b;
    }
  }

  /** A fan-out gives each connection one copy of the envelope per session it holds. */
  lemma {:induction false} OutboxFanout(r: Sessions, env: Envelope, conn: ConnId)
    ensures Outbox(Fanout(r, env), conn) == Repeat(env, Holders(r, conn))
  {
    if r != [] {
      OutboxFanout(r[1..], env, conn);
      assert Fanout(r, env)[1..] == Fanout(r[1..], env);
    }
  }

  /** A run written to one connection is that connection's alone. */
  lemma {:induction false} OutboxDeliver(conn: ConnId, es: seq<Envelope>, other: ConnId)
    ensures Outbox(Deliver(conn, es), other) == if other == conn then es else []
  {
    if es != [] {
      OutboxDeliver(conn, es[1..], other);
      assert Deliver(conn, es)[1..] == Deliver(conn, es[1..]);
      assert es == [es[0]] + es[1..];
    }
  }

  /** The fan-out writes to every session, in dictionary order, exactly once each. */
  lemma {:induction false} FanoutAt(r: Sessions, env: Envelope)
    ensures |Fanout(r, env)| == |r|
    ensures forall i :: 0 <= i < |r| ==> Fanout(r, env)[i] == Delivery(r[i].conn, env)
  {
    if r != [] {
      FanoutAt(r[1..], env);
    }
  }

  /** Extending a partial fan-out by one more session. */
  lemma {:induction false} FanoutSnoc(r: Sessions, i: nat, env: Envelope)
    requires i < |r|
    ensures Fanout(r[..i + 1], env) == Fanout(r[..i], env) + [Delivery(r[i].conn, env)]
  {
    if i > 0 {
      FanoutSnoc(r[1..], i - 1, env);
      assert r[..i + 1][1..] == r[1..][..i];
      assert r[..i][1..] == r[1..][..i - 1];
    }
  }

  /** Extending a partial run by one more envelope. */
  lemma {:induction false} DeliverSnoc(conn: ConnId, es: seq<Envelope>, i: nat)
    requires i < |es|
    ensures Deliver(conn, es[..i + 1]) == Deliver(conn, es[..i]) + [Delivery(conn, es[i])]
  {
    if i > 0 {
      DeliverSnoc(conn, es[1..], i - 1);
      assert es[..i + 1][1..] == es[1..][..i];
      assert es[..i][1..] == es[1..][..i - 1];
    }
  }
}
