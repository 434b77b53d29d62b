/**
 * A client of the server's specifications: alice messages bob while bob is
 * offline, and bob receives the stored message when he logs in. Alice serves
 * on connection 1, bob on connection 2.
 */
module Scenario {
  import opened Wrappers
  import opened Protocol
  import opened Registry
  import opened OfflineQueue
  import opened Wire
  import opened Steps
  import opened ChatServer

  /** alice registers on connection 1 and bob on connection 2. */
  method BothRegister() returns (srv: Server)
    ensures fresh(srv) && srv.Valid()
    ensures srv.users == map["alice" := Hash("pw1"), "bob" := Hash("pw2")]
    ensures srv.clients == [] && srv.queue == [] && srv.closed == {} && srv.clock == 0
    ensures srv.wire == [Delivery(1, AuthReply(Ok, RegisteredText)), Delivery(2, AuthReply(Ok, RegisteredText))]
  {
    srv := new Server(map[], [], 0);
    srv.Register(1, "alice", "pw1");
    srv.Register(2, "bob", "pw2");
  }

  /** alice logs in and writes to bob, who has no session: the message is stored. */
  method AliceWritesToOfflineBob() returns (srv: Server)
    ensures fresh(srv) && srv.Valid()
    ensures srv.users == map["alice" := Hash("pw1"), "bob" := Hash("pw2")]
    ensures srv.clients == [Session("alice", 1)] && srv.closed == {}
    ensures srv.queue == [Queued("bob", "alice", "hi", 2)]
    ensures Outbox(srv.wire, 2) == [AuthReply(Ok, RegisteredText)]
  {
    srv := BothRegister();
    ghost var w := srv.wire;
    var user, raised := srv.Login(1, "alice", "pw1");
    assert Authentic(srv.users, "alice", "pw1");
    assert srv.clients == [Session("alice", 1)];
    assert AllOpen(srv.clients, srv.closed);
    assert user == Some("alice");
    assert DrainEnvelopes(Pending([], "alice"), "alice") == [];
    LoginRepliesSkipBob(w, UserList(Directory(srv.users.Keys, srv.clients)));

    raised := srv.RouteMessage("alice", "bob", "hi");
    assert Lookup(srv.clients, "bob") == None;
  }

  /** alice's login replies go to connection 1 only, so bob's socket still holds just his registration reply. */
  lemma LoginRepliesSkipBob(w: seq<Delivery>, list: Envelope)
    requires w == [Delivery(1, AuthReply(Ok, RegisteredText)), Delivery(2, AuthReply(Ok, RegisteredText))]
    ensures Outbox(w + [Delivery(1, AuthReply(Ok, LoggedInText))]
                   + Fanout([Session("alice", 1)], StatusUpdate("alice", Online))
                   + Fanout([Session("alice", 1)], list) + Deliver(1, []), 2)
            == [AuthReply(Ok, RegisteredText)]
  {
    var mine := [Delivery(1, AuthReply(Ok, LoggedInText)), Delivery(1, StatusUpdate("alice", Online)), Delivery(1, list)];
    assert Fanout([Session("alice", 1)], StatusUpdate("alice", Online)) == [mine[1]];
    assert Fanout([Session("alice", 1)], list) == [mine[2]];
    assert w + [mine[0]] + [mine[1]] + [mine[2]] + Deliver(1, []) == w + mine;
    OutboxAppend(w, mine, 2);
    assert Outbox(w[1..], 2) == [AuthReply(Ok, RegisteredText)];
    assert Outbox(mine[2..], 2) == [];
    assert Outbox(mine[1..], 2) == [];
  }

  /**
   * Bob logs in: his socket gets the login acknowledgement, his own status
   * update, a user list with both online, then alice's stored message; the
   * table is left empty.
   */
  method BobLogsIn() {
    var srv := AliceWritesToOfflineBob();
    ghost var before := srv.wire;
    var user, raised := srv.Login(2, "bob", "pw2");
    assert Authentic(srv.users, "bob", "pw2");
    assert srv.clients == [Session("alice", 1), Session("bob", 2)];
    assert AllOpen(srv.clients, srv.closed);
    assert user == Some("bob") && srv.queue == [];
    BobsOutbox(before, srv.users);
    assert Outbox(srv.wire, 2) == [AuthReply(Ok, RegisteredText), AuthReply(Ok, LoggedInText),
                                   StatusUpdate("bob", Online), UserList(map["alice" := Online, "bob" := Online]),
                                   Chat("alice", "bob", "hi", 2)];
  }

  /** What bob's login writes to his own socket, with alice online and one message stored for him. */
  lemma BobsOutbox(before: seq<Delivery>, users: map<string, Digest>)
    requires Outbox(before, 2) == [AuthReply(Ok, RegisteredText)]
    requires users.Keys == {"alice", "bob"}
    ensures var clients := [Session("alice", 1), Session("bob", 2)];
      Outbox(before + [Delivery(2, AuthReply(Ok, LoggedInText))]
             + Fanout(clients, StatusUpdate("bob", Online))
             + Fanout(clients, UserList(Directory(users.Keys, clients)))
             + Deliver(2, DrainEnvelopes(Pending([Queued("bob", "alice", "hi", 2)], "bob"), "bob")), 2)
      == [AuthReply(Ok, RegisteredText), AuthReply(Ok, LoggedInText), StatusUpdate("bob", Online),
          UserList(map["alice" := Online, "bob" := Online]), Chat("alice", "bob", "hi", 2)]
  {
    var clients := [Session("alice", 1), Session("bob", 2)];
    var online := map["alice" := Online, "bob" := Online];
    assert Pending([Queued("bob", "alice", "hi", 2)], "bob") == [Queued("bob", "alice", "hi", 2)];
    assert Directory(users.Keys, clients) == online;
    assert DrainEnvelopes([Queued("bob", "alice", "hi", 2)], "bob") == [Chat("alice", "bob", "hi", 2)];
    assert Holders(clients[1..], 2) == 1;
    assert Repeat(StatusUpdate("bob", Online), 1) == [StatusUpdate("bob", Online)];
    assert Repeat(UserList(online), 1) == [UserList(online)];
    LoginOutbox(before, clients, "bob", 2, AuthReply(Ok, LoggedInText), StatusUpdate("bob", Online),
                UserList(online), [Chat("alice", "bob", "hi", 2)]);
  }

  /**
   * A failed login after a successful one clears the handler's `user`, so the
   * handler's exit leaves alice's session in the registry, bound to a socket
   * that is now closed.
   */
  method AliceLeavesStaleSession() returns (srv: Server)
    ensures fresh(srv) && srv.Valid()
    ensures srv.users == map["alice" := Hash("pw")]
    ensures srv.clients == [Session("alice", 1)] && srv.closed == {1}
  {
    srv := new Server(map[], [], 0);
    srv.Register(1, "alice", "pw");
    var alice := new Handler(1);
    ghost var w := srv.State();
    var raised := alice.Dispatch(srv, Login("alice", "pw"));
    StepLogin(w, 1, None, "alice", "pw");
    assert Authentic(w.users, "alice", "pw");
    assert srv.clients == [Session("alice", 1)];
    assert !raised && alice.user == Some("alice");
    w := srv.State();
    raised := alice.Dispatch(srv, Login("alice", "wrong"));
    StepLogin(w, 1, Some("alice"), "alice", "wrong");
    assert !Authentic(w.users, "alice", "wrong");
    assert !raised && alice.user == None;
    alice.Finish(srv);
  }

  /**
   * bob's login after that installs his session but raises while announcing
   * it to alice's closed socket, and his handler is left without a user.
   */
  method LoginAfterStaleSessionRaises() {
    var srv := AliceLeavesStaleSession();
    srv.Register(2, "bob", "pw2");
    var bob := new Handler(2);
    ghost var w := srv.State();
    var raised := bob.Dispatch(srv, Login("bob", "pw2"));
    StepLogin(w, 2, None, "bob", "pw2");
    assert Authentic(srv.users, "bob", "pw2");
    assert srv.clients == [Session("alice", 1), Session("bob", 2)];
    assert LivePrefix(srv.clients, srv.closed) == 0;
    assert raised && bob.user == None;
  }
}
