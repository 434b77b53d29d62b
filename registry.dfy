/**
 * The session registry: the server's dictionary from username to the socket
 * of the connection logged in under that name. A Python dict iterates in
 * insertion order, and re-assigning an existing key keeps its place, so the
 * registry is an ordered list of sessions with distinct usernames.
 */
module Registry {
  import opened Wrappers
  import opened Protocol

  datatype Session = Session(user: string, conn: ConnId)

  type Sessions = seq<Session>

  /** The keys of the dictionary: who is online. */
  function Keys(r: Sessions): set<string> {
    if r == [] then {} else {r[0].user} + Keys(r[1..])
  }

  /** No username appears twice, as in any dictionary. */
  predicate UniqueKeys(r: Sessions) {
    r == [] || (r[0].user !in Keys(r[1..]) && UniqueKeys(r[1..]))
  }

  /** `clients.get(user)`. */
  function Lookup(r: Sessions, user: string): Option<ConnId> {
    if r == [] then None
    else if r[0].user == user then Some(r[0].conn)
    else Lookup(r[1..], user)
  }

  /** `clients[user] = conn`: overwrite in place, or append a new key. */
  function Put(r: Sessions, user: string, conn: ConnId): Sessions {
    if r == [] then [Session(user, conn)]
    else if r[0].user == user then [Session(user, conn)] + r[1..]
    else [r[0]] + Put(r[1..], user, conn)
  }

  /** `del clients[user]` when the key is present; nothing otherwise. */
  function Remove(r: Sessions, user: string): Sessions {
    if r == [] then []
    else if r[0].user == user then Remove(r[1..], user)
    else [r[0]] + Remove(r[1..], user)
  }

  /** How many sessions are bound to one connection (one socket may log in under several names). */
  function Holders(r: Sessions, conn: ConnId): nat {
    if r == [] then 0 else (if r[0].conn == conn then 1 else 0) + Holders(r[1..], conn)
  }

  /** A name has a session exactly when it is a key. */
  lemma {:induction false} LookupKeys(r: Sessions, user: string)
    ensures Lookup(r, user).Some? <==> user in Keys(r)
  {
    if r != [] && r[0].user != user {
      LookupKeys(r[1..], user);
    }
  }

  /** After `clients[user] = conn` the name maps to this connection and every other name is untouched. */
  lemma {:induction false} PutLookup(r: Sessions, user: string, conn: ConnId, other: string)
    ensures Lookup(Put(r, user, conn), other) == if other == user then Some(conn) else Lookup(r, other)
  {
    if r != [] && r[0].user != user {
      PutLookup(r[1..], user, conn, other);
    }
  }

  /**
   * Assignment adds the key, keeps the dictionary a dictionary, and leaves its
   * length unchanged when the key was already there (the entry is replaced, not moved).
   */
  lemma {:induction false} PutKeys(r: Sessions, user: string, conn: ConnId)
    ensures Keys(Put(r, user, conn)) == Keys(r) + {user}
    ensures UniqueKeys(r) ==> UniqueKeys(Put(r, user, conn))
    ensures |Put(r, user, conn)| == if user in Keys(r) then |r| else |r| + 1
  {
    if r != [] {
      if r[0].user == user {
        assert Put(r, user, conn)[1..] == r[1..];
      } else {
        PutKeys(r[1..], user, conn);
        assert Put(r, user, conn)[1..] == Put(r[1..], user, conn);
      }
    }
  }

  /** After `del clients[user]` the name is gone and every other name keeps its connection. */
  lemma {:induction false} RemoveLookup(r: Sessions, user: string, other: string)
    ensures Lookup(Remove(r, user), other) == if other == user then None else Lookup(r, other)
  {
    if r != [] {
      RemoveLookup(r[1..], user, other);
      if r[0].user != user {
        assert Remove(r, user)[1..] == Remove(r[1..], user);
      }
    }
  }

  /** Deletion removes exactly one key and keeps the dictionary a dictionary. */
  lemma {:induction false} RemoveKeys(r: Sessions, user: string)
    ensures Keys(Remove(r, user)) == Keys(r) - {user}
    ensures UniqueKeys(r) ==> UniqueKeys(Remove(r, user))
  {
    if r != [] {
      RemoveKeys(r[1..], user);
      if r[0].user != user {
        assert Remove(r, user)[1..] == Remove(r[1..], user);
      }
    }
  }

  /** A connection some name maps to holds at least one session. */
  lemma {:induction false} LookupHolder(r: Sessions, user: string, conn: ConnId)
    requires Lookup(r, user) == Some(conn)
    ensures Holders(r, conn) >= 1
  {
    if r[0].user != user {
      LookupHolder(r[1..], user, conn);
    }
  }
}
