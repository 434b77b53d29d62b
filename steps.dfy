/**
 * The server's behaviour as functions on values: what each command does to
 * the shared state and whether it raises, and what a run of decoded frames
 * does to it. The methods of `ChatServer` are proved to compute exactly these.
 */
module Steps {
  import opened Wrappers
  import opened Protocol
  import opened Registry
  import opened OfflineQueue
  import opened Wire

  /** The shared state of the server, as a value. */
  datatype World = World(users: map<string, Digest>, clients: Sessions, queue: seq<Queued>,
                         clock: nat, wire: seq<Delivery>, closed: set<ConnId>)

  /** The state after one server operation, and whether it raised. */
  datatype Out = Out(world: World, raised: bool)

  /** The state after a handler serves one frame, the handler's `user` then, and whether the frame raised. */
  datatype Turn = Turn(world: World, user: Option<string>, raised: bool)

  /**
   * Where a handler's frame loop leaves things: the state, its `user`,
   * whether the connection ended, and how many frames were cut off.
   */
  datatype Handled = Handled(world: World, user: Option<string>, ended: bool, consumed: nat)

  /** Python truthiness of the handler's `user`: `None` and the empty name are both false. */
  predicate Truthy(user: Option<string>) {
    user.Some? && user.value != ""
  }

  /**
   * What every state the server reaches satisfies: one session per name, only
   * registered names have sessions, and the offline table is in time order
   * with no row stamped after the clock.
   */
  predicate Good(w: World) {
    && UniqueKeys(w.clients)
    && Keys(w.clients) <= w.users.Keys
    && Ordered(w.queue)
    && StampedBy(w.queue, w.clock)
  }

  /** `send_with_delimiter` to one socket. */
  function Emit(w: World, conn: ConnId, env: Envelope): Out {
    if conn in w.closed then Out(w, true)
    else Out(w.(wire := w.wire + [Delivery(conn, env)]), false)
  }

  /** One envelope to every session, in registry order, up to the first closed socket. */
  function Spread(w: World, env: Envelope): Out {
    Out(w.(wire := w.wire + Fanout(w.clients[..LivePrefix(w.clients, w.closed)], env)),
        !AllOpen(w.clients, w.closed))
  }

  /** The `user_list` envelope for the current state. */
  function ListEnvelope(w: World): Envelope {
    UserList(Directory(w.users.Keys, w.clients))
  }

  function RegisterStep(w: World, conn: ConnId, username: string, password: string): Out {
    if username in w.users then Emit(w, conn, AuthReply(Error, DuplicateText))
    else Emit(w.(users := w.users[username := Hash(password)]), conn, AuthReply(Ok, RegisteredText))
  }

  function DrainStep(w: World, username: string): Out {
    var ms := Pending(w.queue, username);
    var target := Lookup(w.clients, username);
    if ms == [] || target.None? then Out(w, false)
    else if target.value in w.closed then Out(w, true)
    else Out(w.(wire := w.wire + Deliver(target.value, DrainEnvelopes(ms, username)),
                queue := Without(w.queue, username)), false)
  }

  function LoginStep(w: World, conn: ConnId, username: string, password: string): Out {
    if !Authentic(w.users, username, password) then
      Emit(w, conn, AuthReply(Error, BadCredentialsText))
    else
      var acked := Emit(w.(clients := Put(w.clients, username, conn)), conn, AuthReply(Ok, LoggedInText));
      if acked.raised then acked
      else
        var announced := Spread(acked.world, StatusUpdate(username, Online));
        if announced.raised then announced
        else
          var listed := Spread(announced.world, ListEnvelope(announced.world));
          if listed.raised then listed
          else DrainStep(listed.world, username)
  }

  function RouteStep(w: World, sender: string, recipient: string, body: string): Out {
    var stamp := w.clock + 1;
    var target := Lookup(w.clients, recipient);
    if target.Some? then Emit(w.(clock := stamp), target.value, Chat(sender, recipient, body, stamp))
    else Out(w.(clock := stamp + 1, queue := w.queue + [Queued(recipient, sender, body, stamp + 1)]), false)
  }

  function TypingStep(w: World, sender: string, recipient: string, state: string): Out {
    var target := Lookup(w.clients, recipient);
    if target.Some? then Emit(w, target.value, TypingNotice(sender, recipient, state))
    else Out(w, false)
  }

  /** One decoded request served by the handler of `conn` whose `user` is `user`. */
  function Step(w: World, conn: ConnId, user: Option<string>, req: Request): Turn {
    match req
    case Register(username, password) =>
      var o := RegisterStep(w, conn, username, password);
      Turn(o.world, user, o.raised)
    case Login(username, password) =>
      var o := LoginStep(w, conn, username, password);
      Turn(o.world, if o.raised then user else if Authentic(w.users, username, password) then Some(username) else None, o.raised)
    case GetUsers =>
      if Truthy(user) then var o := Spread(w, ListEnvelope(w)); Turn(o.world, user, o.raised)
      else Turn(w, user, false)
    case Msg(sender, recipient, body) =>
      if Truthy(user) then var o := RouteStep(w, sender, recipient, body); Turn(o.world, user, o.raised)
      else Turn(w, user, false)
    case Typing(sender, recipient, state) =>
      if Truthy(user) then var o := TypingStep(w, sender, recipient, state); Turn(o.world, user, o.raised)
      else Turn(w, user, false)
    case Other =>
      Turn(w, user, false)
  }

  /** One frame: text that does not decode raises `ValueError` and changes nothing. */
  function Handle(w: World, conn: ConnId, user: Option<string>, d: Decoded): Turn {
    if d.Malformed? then Turn(w, user, true) else Step(w, conn, user, d.request)
  }

  /** The frame loop over decoded frames, stopping after the first frame that raises. */
  function Run(w: World, conn: ConnId, user: Option<string>, ds: seq<Decoded>): Handled
    decreases |ds|
  {
    if ds == [] then Handled(w, user, false, 0)
    else
      var t := Handle(w, conn, user, ds[0]);
      if t.raised then Handled(t.world, t.user, true, 1)
      else
        var h := Run(t.world, conn, t.user, ds[1..]);
        h.(consumed := h.consumed + 1)
  }

  /**
   * The handler's `finally` block: a truthy user's name leaves the registry and
   * is announced offline, then the list is sent; the socket is closed unless
   * one of those writes raised, which leaves the block before `close`.
   */
  function FinishStep(w: World, conn: ConnId, user: Option<string>): World {
    if !Truthy(user) then w.(closed := w.closed + {conn})
    else
      var announced := Spread(w.(clients := Remove(w.clients, user.value)), StatusUpdate(user.value, Offline));
      if announced.raised then announced.world
      else
        var listed := Spread(announced.world, ListEnvelope(announced.world));
        if listed.raised then listed.world
        else listed.world.(closed := listed.world.closed + {conn})
  }

  /** A successful login keeps the state good: the session goes to a registered name, and the drain keeps the table ordered. */
  lemma LoginGood(w: World, conn: ConnId, username: string, password: string)
    requires Good(w)
    ensures Good(LoginStep(w, conn, username, password).world)
  {
    if Authentic(w.users, username, password) {
      PutKeys(w.clients, username, conn);
      var acked := Emit(w.(clients := Put(w.clients, username, conn)), conn, AuthReply(Ok, LoggedInText));
      assert Good(acked.world);
      if !acked.raised {
        var announced := Spread(acked.world, StatusUpdate(username, Online));
        assert Good(announced.world);
        if !announced.raised {
          var listed := Spread(announced.world, ListEnvelope(announced.world));
          assert Good(listed.world);
          if !listed.raised {
            WithoutOrdered(listed.world.queue, username, listed.world.clock);
          }
        }
      }
    }
  }

  /** Storing a message stamps it after every row already in the table. */
  lemma RouteGood(w: World, sender: string, recipient: string, body: string)
    requires Good(w)
    ensures Good(RouteStep(w, sender, recipient, body).world)
  {
    if Lookup(w.clients, recipient).None? {
      var q := w.queue + [Queued(recipient, sender, body, w.clock + 2)];
      assert forall i :: 0 <= i < |w.queue| ==> q[i] == w.queue[i];
    }
  }

  /** Every command keeps the state good. */
  lemma StepGood(w: World, conn: ConnId, user: Option<string>, req: Request)
    requires Good(w)
    ensures Good(Step(w, conn, user, req).world)
  {
    match req
    case Login(username, password) =>
      LoginGood(w, conn, username, password);
    case Msg(sender, recipient, body) =>
      if Truthy(user) {
        RouteGood(w, sender, recipient, body);
      }
    case _ =>
  }

  /**
   * `v` follows `w`: no stored credential is removed or changed, no socket
   * closed, the log of writes only grows and the clock never goes back.
   */
  predicate Follows(w: World, v: World) {
    && (forall u :: u in w.users ==> u in v.users && v.users[u] == w.users[u])
    && v.closed == w.closed
    && w.wire <= v.wire
    && w.clock <= v.clock
  }

  lemma LoginFollows(w: World, conn: ConnId, username: string, password: string)
    ensures Follows(w, LoginStep(w, conn, username, password).world)
  {
    if Authentic(w.users, username, password) {
      var acked := Emit(w.(clients := Put(w.clients, username, conn)), conn, AuthReply(Ok, LoggedInText));
      assert Follows(w, acked.world);
      if !acked.raised {
        var announced := Spread(acked.world, StatusUpdate(username, Online));
        assert Follows(w, announced.world);
        if !announced.raised {
          var listed := Spread(announced.world, ListEnvelope(announced.world));
          assert Follows(w, listed.world);
          if !listed.raised {
            var drained := DrainStep(listed.world, username);
            assert listed.world.wire <= drained.world.wire;
          }
        }
      }
    }
  }

  /** Every command's state follows the one before it. */
  lemma StepFollows(w: World, conn: ConnId, user: Option<string>, req: Request)
    ensures Follows(w, Step(w, conn, user, req).world)
  {
    if req.Login? {
      LoginFollows(w, conn, req.username, req.password);
    }
  }

  /** Without a truthy user only `register` and `login` do anything; an unknown command never does. */
  lemma StepGate(w: World, conn: ConnId, user: Option<string>, req: Request)
    requires req.Other? || (!req.Register? && !req.Login? && !Truthy(user))
    ensures Step(w, conn, user, req) == Turn(w, user, false)
  {
  }

  /**
   * `register` is served in any state: a new name is stored with its digest
   * and acknowledged, a taken name is refused and its credential kept, and
   * neither touches the registry, the offline table or the handler's user.
   */
  lemma StepRegister(w: World, conn: ConnId, user: Option<string>, username: string, password: string)
    requires conn !in w.closed
    ensures var t := Step(w, conn, user, Register(username, password));
      && !t.raised && t.user == user
      && t.world.clients == w.clients && t.world.queue == w.queue && t.world.clock == w.clock
      && (username in w.users ==>
            && t.world.users == w.users
            && t.world.wire == w.wire + [Delivery(conn, AuthReply(Error, DuplicateText))])
      && (username !in w.users ==>
            && t.world.users == w.users[username := Hash(password)]
            && t.world.wire == w.wire + [Delivery(conn, AuthReply(Ok, RegisteredText))])
  {
  }

  /**
   * `login` is served in any state. The right password installs this socket
   * under the name and makes it the handler's user, unless announcing it hits
   * a closed socket; that raises and leaves the handler's user as it was. A
   * wrong password clears the handler's user and changes nothing else.
   */
  lemma StepLogin(w: World, conn: ConnId, user: Option<string>, username: string, password: string)
    requires conn !in w.closed
    ensures var t := Step(w, conn, user, Login(username, password));
      && t.world.users == w.users
      && t.world.clients == (if Authentic(w.users, username, password) then Put(w.clients, username, conn) else w.clients)
      && (t.raised <==> Authentic(w.users, username, password) && !AllOpen(t.world.clients, w.closed))
      && t.user == (if t.raised then user else if Authentic(w.users, username, password) then Some(username) else None)
  {
    if Authentic(w.users, username, password) {
      var clients := Put(w.clients, username, conn);
      PutLookup(w.clients, username, conn, username);
      if AllOpen(clients, w.closed) {
        assert Lookup(clients, username) == Some(conn);
      }
    }
  }

  /**
   * With a truthy user, `get_users` sends the user list to every session and
   * raises exactly when one of their sockets is closed; `msg` is routed and
   * `typing` forwarded to the recipient's socket, raising exactly when that
   * socket is closed, and a `msg` for a name with no session is stored instead.
   */
  lemma StepServed(w: World, conn: ConnId, user: Option<string>, req: Request)
    requires Truthy(user) && (req.GetUsers? || req.Msg? || req.Typing?)
    ensures var t := Step(w, conn, user, req);
      && t.user == user && t.world.users == w.users && t.world.clients == w.clients
      && (req.GetUsers? ==>
            && t.world.queue == w.queue
            && (t.raised <==> !AllOpen(w.clients, w.closed))
            && t.world.wire == w.wire + Fanout(w.clients[..LivePrefix(w.clients, w.closed)], ListEnvelope(w)))
      && (req.Msg? && Lookup(w.clients, req.recipient).Some? ==>
            var target := Lookup(w.clients, req.recipient).value;
            && t.world.queue == w.queue
            && (t.raised <==> target in w.closed)
            && t.world.wire == if t.raised then w.wire
                               else w.wire + [Delivery(target, Chat(req.sender, req.recipient, req.body, w.clock + 1))])
      && (req.Msg? && Lookup(w.clients, req.recipient).None? ==>
            && !t.raised && t.world.wire == w.wire
            && t.world.queue == w.queue + [Queued(req.recipient, req.sender, req.body, w.clock + 2)])
      && (req.Typing? ==>
            && t.world.queue == w.queue
            && (Lookup(w.clients, req.recipient).None? ==> !t.raised && t.world.wire == w.wire)
            && (Lookup(w.clients, req.recipient).Some? ==>
                  var target := Lookup(w.clients, req.recipient).value;
                  && (t.raised <==> target in w.closed)
                  && t.world.wire == if t.raised then w.wire
                                     else w.wire + [Delivery(target, TypingNotice(req.sender, req.recipient, req.status))]))
  {
  }

  /**
   * The frame loop cuts off frames in order and stops only after a frame that
   * raised: every frame before that one decoded, the last one did not decode
   * or is a command that can raise, a frame that does not decode is the last
   * one handled, and a connection that goes on has handled every frame.
   */
  lemma {:induction false} RunShape(w: World, conn: ConnId, user: Option<string>, ds: seq<Decoded>)
    ensures var h := Run(w, conn, user, ds);
      && h.consumed <= |ds|
      && (!h.ended ==> h.consumed == |ds|)
      && (h.ended ==> 1 <= h.consumed && ds[h.consumed - 1] != Parsed(Other))
      && (forall k :: 0 <= k < h.consumed - 1 ==> ds[k].Parsed?)
      && (forall k :: 0 <= k < |ds| && ds[k].Malformed? ==> h.ended && h.consumed <= k + 1)
    decreases |ds|
  {
    if ds != [] {
      var t := Handle(w, conn, user, ds[0]);
      if !t.raised {
        RunShape(t.world, conn, t.user, ds[1..]);
        var h := Run(t.world, conn, t.user, ds[1..]);
        assert forall k :: 1 <= k < |ds| ==> ds[k] == ds[1..][k - 1];
      }
    }
  }

  /** Frames after one that does not decode are never handled. */
  lemma {:induction false} RunStopsAtMalformed(w: World, conn: ConnId, user: Option<string>, ds: seq<Decoded>, k: nat)
    requires k < |ds| && ds[k].Malformed?
    ensures Run(w, conn, user, ds) == Run(w, conn, user, ds[..k + 1])
    decreases |ds|
  {
    var t := Handle(w, conn, user, ds[0]);
    if k > 0 && !t.raised {
      assert ds[1..][k - 1] == ds[k];
      RunStopsAtMalformed(t.world, conn, t.user, ds[1..], k - 1);
      assert ds[..k + 1][1..] == ds[1..][..k];
    }
  }

  /** However many frames a connection sends, the state stays good. */
  lemma {:induction false} RunGood(w: World, conn: ConnId, user: Option<string>, ds: seq<Decoded>)
    requires Good(w)
    ensures Good(Run(w, conn, user, ds).world)
    decreases |ds|
  {
    if ds != [] {
      var t := Handle(w, conn, user, ds[0]);
      if ds[0].Parsed? {
        StepGood(w, conn, user, ds[0].request);
      }
      if !t.raised {
        RunGood(t.world, conn, t.user, ds[1..]);
      }
    }
  }
}
