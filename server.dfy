/**
 * The relay server: the shared state of `Server` (user table, session
 * registry, offline table, clock and what has been written to sockets) and
 * the per-connection handler that reads frames and dispatches commands.
 * Each method runs atomically; the lock, threads and sockets are not modelled.
 */
module ChatServer {
  import opened Wrappers
  import opened Protocol
  import opened Framing
  import opened Registry
  import opened OfflineQueue
  import opened Wire
  import opened Steps

  class Server {
    /** The `users` table: username to password digest. */
    var users: map<string, Digest>
    /** `self.clients`, in insertion order. */
    var clients: Sessions
    /** The `offline_messages` table, in insertion order. */
    var queue: seq<Queued>
    /** The last value `datetime.now()` returned. */
    var clock: nat
    /** Every envelope written to a socket, in order. */
    var wire: seq<Delivery>
    /** Sockets on which `close()` has been called. */
    var closed: set<ConnId>

    /** The fields as one value. */
    function State(): World
      reads this
    {
      World(users, clients, queue, clock, wire, closed)
    }

    ghost predicate Valid()
      reads this
    {
      Good(State())
    }

    /**
     * `__init__`: the `users` and `offline_messages` tables are whatever the
     * database file already holds (rows written by earlier runs, stamped no
     * later than the clock now reads); nobody is logged in yet.
     */
    constructor (users0: map<string, Digest>, queue0: seq<Queued>, clock0: nat)
      requires Ordered(queue0) && StampedBy(queue0, clock0)
      ensures Valid()
      ensures users == users0 && queue == queue0 && clock == clock0
      ensures clients == [] && wire == [] && closed == {}
    {
      users, clients, queue, clock := users0, [], queue0, clock0;
      wire, closed := [], {};
    }

    /**
     * `send_with_delimiter`. A write to an open socket is recorded (a peer that
     * has gone away makes it fail, and that failure is swallowed). A write to a
     * socket the server closed raises an error the helper does not catch.
     */
    method Send(conn: ConnId, env: Envelope) returns (raised: bool)
      modifies this`wire
      ensures raised == (conn in closed)
      ensures wire == if raised then old(wire) else old(wire) + [Delivery(conn, env)]
      ensures Out(State(), raised) == Emit(old(State()), conn, env)
    {
      raised := conn in closed;
      if !raised {
        wire := wire + [Delivery(conn, env)];
      }
    }

    /** `datetime.now()`: every reading is later than the one before. */
    method Now() returns (t: nat)
      modifies this`clock
      ensures clock == old(clock) + 1 && t == clock
    {
      clock := clock + 1;
      t := clock;
    }

    /** `client_socket.close()`. */
    method CloseConn(conn: ConnId)
      modifies this`closed
      ensures closed == old(closed) + {conn}
    {
      closed := closed + {conn};
    }

    /**
     * One envelope to every session, in registry order, stopping at the first
     * socket that raises.
     */
    method Broadcast(env: Envelope) returns (raised: bool)
      modifies this`wire
      ensures wire == old(wire) + Fanout(clients[..LivePrefix(clients, closed)], env)
      ensures raised <==> !AllOpen(clients, closed)
      ensures Out(State(), raised) == Spread(old(State()), env)
    {
      ghost var start := State();
      raised := false;
      var i: nat := 0;
      while i < |clients|
        invariant i <= LivePrefix(clients, closed)
        invariant !raised
        invariant wire == old(wire) + Fanout(clients[..i], env)
        invariant State() == start.(wire := wire)
      {
        raised := Send(clients[i].conn, env);
        if raised {
          assert i == LivePrefix(clients, closed);
          return;
        }
        FanoutSnoc(clients, i, env);
        i := i + 1;
      }
      assert clients[..i] == clients;
    }

    /** `_broadcast_status`: the update goes to every session, the subject's own included. */
    method BroadcastStatus(user: string, status: Presence) returns (raised: bool)
      modifies this`wire
      ensures wire == old(wire) + Fanout(clients[..LivePrefix(clients, closed)], StatusUpdate(user, status))
      ensures raised <==> !AllOpen(clients, closed)
      ensures Out(State(), raised) == Spread(old(State()), StatusUpdate(user, status))
    {
      raised := Broadcast(StatusUpdate(user, status));
    }

    /** `_send_user_list`: the whole directory with presence, to every session. */
    method SendUserList() returns (raised: bool)
      modifies this`wire
      ensures wire == old(wire) + Fanout(clients[..LivePrefix(clients, closed)], UserList(Directory(users.Keys, clients)))
      ensures raised <==> !AllOpen(clients, closed)
      ensures Out(State(), raised) == Spread(old(State()), ListEnvelope(old(State())))
    {
      raised := Broadcast(UserList(Directory(users.Keys, clients)));
    }

    /**
     * `_register`: a new name is stored with its digest and acknowledged; an
     * existing name is refused and its credential kept. The registry is not touched.
     */
    method Register(conn: ConnId, username: string, password: string)
      requires Valid() && conn !in closed
      modifies this`users, this`wire
      ensures Valid()
      ensures username in old(users) ==>
        && users == old(users)
        && wire == old(wire) + [Delivery(conn, AuthReply(Error, DuplicateText))]
      ensures username !in old(users) ==>
        && users == old(users)[username := Hash(password)]
        && wire == old(wire) + [Delivery(conn, AuthReply(Ok, RegisteredText))]
      ensures Out(State(), false) == RegisterStep(old(State()), conn, username, password)
    {
      var raised;
      if username in users {
        raised := Send(conn, AuthReply(Error, DuplicateText));
      } else {
        users := users[username := Hash(password)];
        raised := Send(conn, AuthReply(Ok, RegisteredText));
      }
    }

    /** `_store_offline_message`: one row, stamped with a fresh reading of the clock. */
    method StoreOfflineMessage(recipient: string, sender: string, body: string)
      requires Valid()
      modifies this`clock, this`queue
      ensures Valid()
      ensures clock == old(clock) + 1
      ensures queue == old(queue) + [Queued(recipient, sender, body, clock)]
    {
      var t := Now();
      queue := queue + [Queued(recipient, sender, body, t)];
    }

    /**
     * `_route_message`: stamp the message; hand it to the recipient's socket if
     * the recipient has a session, otherwise store it. A delivered message is
     * never stored, whether or not the write succeeds.
     */
    method RouteMessage(sender: string, recipient: string, body: string) returns (raised: bool)
      requires Valid()
      modifies this`clock, this`wire, this`queue
      ensures Valid()
      ensures Lookup(clients, recipient).Some? ==>
        var conn := Lookup(clients, recipient).value;
        && clock == old(clock) + 1
        && queue == old(queue)
        && raised == (conn in closed)
        && wire == if raised then old(wire) else old(wire) + [Delivery(conn, Chat(sender, recipient, body, clock))]
      ensures Lookup(clients, recipient).None? ==>
        && !raised
        && clock == old(clock) + 2
        && wire == old(wire)
        && queue == old(queue) + [Queued(recipient, sender, body, clock)]
      ensures Out(State(), raised) == RouteStep(old(State()), sender, recipient, body)
    {
      var stamp := Now();
      var target := Lookup(clients, recipient);
      if target.Some? {
        raised := Send(target.value, Chat(sender, recipient, body, stamp));
      } else {
        StoreOfflineMessage(recipient, sender, body);
        raised := false;
      }
    }

    /** `_notify_typing`: forwarded to a recipient with a session, dropped otherwise; never stored. */
    method NotifyTyping(sender: string, recipient: string, state: string) returns (raised: bool)
      modifies this`wire
      ensures queue == old(queue)
      ensures Lookup(clients, recipient).None? ==> !raised && wire == old(wire)
      ensures Lookup(clients, recipient).Some? ==>
        var conn := Lookup(clients, recipient).value;
        && raised == (conn in closed)
        && wire == if raised then old(wire) else old(wire) + [Delivery(conn, TypingNotice(sender, recipient, state))]
      ensures Out(State(), raised) == TypingStep(old(State()), sender, recipient, state)
    {
      var target := Lookup(clients, recipient);
      raised := false;
      if target.Some? {
        raised := Send(target.value, TypingNotice(sender, recipient, state));
      }
    }

    /**
     * `_send_offline_messages`: when rows wait for `username` and it has a
     * session, write them to that socket in timestamp order, then delete them.
     * An error on the first write leaves the rows in the table.
     */
    method SendOfflineMessages(username: string) returns (raised: bool)
      requires Valid()
      modifies this`wire, this`queue
      ensures Valid()
      ensures Pending(old(queue), username) == [] || Lookup(clients, username).None? ==>
        !raised && wire == old(wire) && queue == old(queue)
      ensures Pending(old(queue), username) != [] && Lookup(clients, username).Some? ==>
        var conn := Lookup(clients, username).value;
        && raised == (conn in closed)
        && (raised ==> wire == old(wire) && queue == old(queue))
        && (!raised ==>
              && wire == old(wire) + Deliver(conn, DrainEnvelopes(Pending(old(queue), username), username))
              && queue == Without(old(queue), username))
      ensures Out(State(), raised) == DrainStep(old(State()), username)
    {
      raised := false;
      var messages := Pending(queue, username);
      if messages != [] {
        var target := Lookup(clients, username);
        if target.Some? {
          var conn := target.value;
          var envs := DrainEnvelopes(messages, username);
          var i: nat := 0;
          while i < |envs|
            invariant i <= |envs|
            invariant !raised && queue == old(queue)
            invariant i > 0 ==> conn !in closed
            invariant wire == old(wire) + Deliver(conn, envs[..i])
          {
            raised := Send(conn, envs[i]);
            if raised {
              assert envs[..i] == [];
              return;
            }
            DeliverSnoc(conn, envs, i);
            i := i + 1;
          }
          assert envs[..i] == envs;
          WithoutOrdered(queue, username, clock);
          queue := Without(queue, username);
        }
      }
    }

    /**
     * `_login`. With the right password: install this socket under the name
     * (replacing any earlier one), acknowledge, announce the name online to
     * every session, send everyone the user list, then drain the name's
     * offline rows. With a wrong password: refuse, and change nothing else.
     */
    method Login(conn: ConnId, username: string, password: string) returns (user: Option<string>, raised: bool)
      requires Valid() && conn !in closed
      modifies this`clients, this`wire, this`queue
      ensures Valid()
      ensures !Authentic(users, username, password) ==>
        && user == None && !raised
        && clients == old(clients) && queue == old(queue)
        && wire == old(wire) + [Delivery(conn, AuthReply(Error, BadCredentialsText))]
      ensures Authentic(users, username, password) ==> clients == Put(old(clients), username, conn)
      ensures Authentic(users, username, password) && AllOpen(clients, closed) ==>
        && user == Some(username) && !raised
        && queue == Without(old(queue), username)
        && wire == old(wire) + [Delivery(conn, AuthReply(Ok, LoggedInText))]
                 + Fanout(clients, StatusUpdate(username, Online))
                 + Fanout(clients, UserList(Directory(users.Keys, clients)))
                 + Deliver(conn, DrainEnvelopes(Pending(old(queue), username), username))
      ensures Authentic(users, username, password) && !AllOpen(clients, closed) ==>
        && raised && queue == old(queue)
        && wire == old(wire) + [Delivery(conn, AuthReply(Ok, LoggedInText))]
                 + Fanout(clients[..LivePrefix(clients, closed)], StatusUpdate(username, Online))
      ensures Out(State(), raised) == LoginStep(old(State()), conn, username, password)
      ensures user == if !raised && Authentic(users, username, password) then Some(username) else None
    {
      if Authentic(users, username, password) {
        PutKeys(clients, username, conn);
        PutLookup(clients, username, conn, username);
        clients := Put(clients, username, conn);
        raised := Send(conn, AuthReply(Ok, LoggedInText));
        assert clients[..|clients|] == clients;
        raised := BroadcastStatus(username, Online);
        if !raised {
          raised := SendUserList();
        }
        if !raised {
          ghost var pending := Pending(queue, username);
          raised := SendOfflineMessages(username);
          if pending == [] {
            DeleteNothing(old(queue), username);
          }
        }
        user := if raised then None else Some(username);
      } else {
        raised := Send(conn, AuthReply(Error, BadCredentialsText));
        user := None;
      }
    }
  }

  /** The state of one `handle_client` thread. */
  class Handler {
    /** The socket this handler serves. */
    const conn: ConnId
    /** The name this connection last logged in under, if the last login succeeded. */
    var user: Option<string>
    /** Received text not yet terminated by a newline. */
    var buffer: string

    ghost predicate Valid()
      reads this
    {
      Delimiter !in buffer
    }

    constructor (conn: ConnId)
      ensures Valid()
      ensures this.conn == conn && user == None && buffer == ""
    {
      this.conn := conn;
      user := None;
      buffer := "";
    }

    /**
     * One decoded request: `register` and `login` are served in any state;
     * `get_users`, `msg` and `typing` only while `user` is truthy; anything
     * else is ignored. A login's result replaces `user`, unless it raised.
     * What that means is proved about `Step` (`StepGate`, `StepRegister`,
     * `StepLogin`, `StepServed`).
     */
    method Dispatch(srv: Server, req: Request) returns (raised: bool)
      requires srv.Valid() && conn !in srv.closed
      modifies this`user, srv`users, srv`clients, srv`queue, srv`clock, srv`wire
      ensures srv.Valid()
      ensures Turn(srv.State(), user, raised) == Step(old(srv.State()), conn, old(user), req)
    {
      raised := false;
      match req
      case Register(username, password) =>
        srv.Register(conn, username, password);
      case Login(username, password) =>
        var result;
        result, raised := srv.Login(conn, username, password);
        if !raised {
          user := result;
        }
      case GetUsers =>
        if Truthy(user) {
          raised := srv.SendUserList();
        }
      case Msg(sender, recipient, body) =>
        if Truthy(user) {
          raised := srv.RouteMessage(sender, recipient, body);
        }
      case Typing(sender, recipient, state) =>
        if Truthy(user) {
          raised := srv.NotifyTyping(sender, recipient, state);
        }
      case Other =>
    }

    /**
     * Decode one frame and dispatch it. Text that does not decode raises
     * `ValueError`, which ends the connection; so does a dispatch that raises.
     */
    method HandleFrame(srv: Server, line: string, parse: string -> Decoded) returns (ended: bool)
      requires srv.Valid() && conn !in srv.closed
      modifies this`user, srv`users, srv`clients, srv`queue, srv`clock, srv`wire
      ensures srv.Valid()
      ensures Turn(srv.State(), user, ended) == Handle(old(srv.State()), conn, old(user), parse(line))
    {
      var decoded := parse(line);
      if decoded.Malformed? {
        return true;
      }
      ended := Dispatch(srv, decoded.request);
    }

    /**
     * The inner loop: while the buffer holds a newline, cut off the first
     * frame and handle it, stopping after the first frame that ends the
     * connection. The server and `user` end up as `Run` over the decoded
     * frames says.
     */
    method ProcessBuffer(srv: Server, parse: string -> Decoded) returns (ended: bool, consumed: nat)
      requires srv.Valid() && conn !in srv.closed
      modifies this`user, this`buffer, srv`users, srv`clients, srv`queue, srv`clock, srv`wire
      ensures srv.Valid()
      ensures Handled(srv.State(), user, ended, consumed)
           == Run(old(srv.State()), conn, old(user), DecodeAll(parse, SplitFrames(old(buffer)).0))
      ensures Remains(old(buffer), ended, consumed, buffer)
      ensures !ended ==> Valid()
    {
      ghost var frames := SplitFrames(buffer).0;
      ghost var rest := SplitFrames(buffer).1;
      ghost var decoded := DecodeAll(parse, frames);
      ghost var start := srv.State();
      ghost var user0 := user;
      ended, consumed := false, 0;
      while !ended && Delimiter in buffer
        invariant srv.Valid() && conn !in srv.closed
        invariant consumed <= |frames|
        invariant SplitFrames(buffer).0 == frames[consumed..]
        invariant SplitFrames(buffer).1 == rest
        invariant !ended ==>
          var h := Run(srv.State(), conn, user, decoded[consumed..]);
          Run(start, conn, user0, decoded) == h.(consumed := h.consumed + consumed)
        invariant ended ==> Run(start, conn, user0, decoded) == Handled(srv.State(), user, true, consumed)
        decreases |buffer|
      {
        NextFrame(frames, consumed, rest, buffer);
        var i := FirstDelimiter(buffer);
        var line := buffer[..i];
        buffer := buffer[i + 1..];
        assert decoded[consumed..][0] == parse(line);
        assert decoded[consumed..][1..] == decoded[consumed + 1..];
        consumed := consumed + 1;
        ended := HandleFrame(srv, line, parse);
      }
      if !ended {
        assert decoded[consumed..] == [];
      }
      SplitFramesJoin(buffer);
    }

    /**
     * One pass of the outer receive loop on the text of one `recv`. An empty
     * read ends the connection without touching anything. Otherwise the text
     * is appended to the buffer and its frames are handled. When the result
     * says the connection ended, the caller runs `Finish`.
     */
    method Receive(srv: Server, data: string, parse: string -> Decoded) returns (ended: bool, consumed: nat)
      requires Valid() && srv.Valid() && conn !in srv.closed
      modifies this`user, this`buffer, srv`users, srv`clients, srv`queue, srv`clock, srv`wire
      ensures srv.Valid() && conn !in srv.closed
      ensures data == "" ==>
        ended && consumed == 0 && buffer == old(buffer) && user == old(user) && srv.State() == old(srv.State())
      ensures data != "" ==>
        && Handled(srv.State(), user, ended, consumed)
           == Run(old(srv.State()), conn, old(user), DecodeAll(parse, SplitFrames(old(buffer) + data).0))
        && Remains(old(buffer) + data, ended, consumed, buffer)
      ensures !ended ==> Valid()
    {
      if data == "" {
        return true, 0;
      }
      buffer := buffer + data;
      ended, consumed := ProcessBuffer(srv, parse);
    }

    /**
     * The `finally` block. A handler with a truthy `user` deletes that name from
     * the registry, whichever socket it now maps to, announces it offline to
     * the remaining sessions and sends them the user list. Then the socket is
     * closed, unless one of those writes raised first.
     */
    method Finish(srv: Server)
      requires srv.Valid()
      modifies srv`clients, srv`wire, srv`closed
      ensures srv.Valid()
      ensures !Truthy(user) ==>
        && srv.clients == old(srv.clients) && srv.wire == old(srv.wire)
        && srv.closed == old(srv.closed) + {conn}
      ensures Truthy(user) ==> srv.clients == Remove(old(srv.clients), user.value)
      ensures Truthy(user) && AllOpen(srv.clients, old(srv.closed)) ==>
        && srv.closed == old(srv.closed) + {conn}
        && srv.wire == old(srv.wire) + Fanout(srv.clients, StatusUpdate(user.value, Offline))
                     + Fanout(srv.clients, UserList(Directory(srv.users.Keys, srv.clients)))
      ensures Truthy(user) && !AllOpen(srv.clients, old(srv.closed)) ==>
        && srv.closed == old(srv.closed)
        && srv.wire == old(srv.wire) + Fanout(srv.clients[..LivePrefix(srv.clients, srv.closed)], StatusUpdate(user.value, Offline))
      ensures srv.State() == FinishStep(old(srv.State()), conn, user)
    {
      if Truthy(user) {
        RemoveKeys(srv.clients, user.value);
        srv.clients := Remove(srv.clients, user.value);
        assert srv.clients[..|srv.clients|] == srv.clients;
        var raised := srv.BroadcastStatus(user.value, Offline);
        if !raised {
          raised := srv.SendUserList();
        }
        if raised {
          return;
        }
      }
      srv.CloseConn(conn);
    }
  }

  /** Each frame run through the decoder. */
  function DecodeAll(parse: string -> Decoded, frames: seq<string>): (ds: seq<Decoded>)
    ensures |ds| == |frames|
    ensures forall k :: 0 <= k < |frames| ==> ds[k] == parse(frames[k])
  {
    if frames == [] then [] else [parse(frames[0])] + DecodeAll(parse, frames[1..])
  }

  /**
   * What is left of a buffer that held `start` once `consumed` of its frames
   * were cut off: the remaining frames, each still terminated, and the
   * unterminated tail; if the connection goes on, every frame was cut off and
   * only the tail is kept.
   */
  ghost predicate Remains(start: string, ended: bool, consumed: nat, buffer: string) {
    var frames, rest := SplitFrames(start).0, SplitFrames(start).1;
    && consumed <= |frames|
    && buffer == Join(frames[consumed..]) + rest
    && (!ended ==> consumed == |frames| && buffer == rest)
  }

  /**
   * What a successful login writes to the new session's own socket: the
   * acknowledgement, one status update and one user list per session that
   * socket holds (at least this one), then the drained messages.
   */
  lemma LoginOutbox(w: seq<Delivery>, r: Sessions, username: string, conn: ConnId,
                    ok: Envelope, online: Envelope, list: Envelope, queued: seq<Envelope>)
    requires Lookup(r, username) == Some(conn)
    ensures Holders(r, conn) >= 1
    ensures Outbox(w + [Delivery(conn, ok)] + Fanout(r, online) + Fanout(r, list) + Deliver(conn, queued), conn)
         == Outbox(w, conn) + [ok] + Repeat(online, Holders(r, conn)) + Repeat(list, Holders(r, conn)) + queued
  {
    LookupHolder(r, username, conn);
    var a := w + [Delivery(conn, ok)];
    var b := a + Fanout(r, online);
    var c := b + Fanout(r, list);
    OutboxAppend(w, [Delivery(conn, ok)], conn);
    assert Outbox([Delivery(conn, ok)], conn) == [ok];
    OutboxAppend(a, Fanout(r, online), conn);
    OutboxFanout(r, online, conn);
    OutboxAppend(b, Fanout(r, list), conn);
    OutboxFanout(r, list, conn);
    OutboxAppend(c, Deliver(conn, queued), conn);
    OutboxDeliver(conn, queued, conn);
  }
}
