/**
 * The line protocol of the chat relay: what a client may ask for (requests),
 * what the server writes back (envelopes), and the fixed reply texts.
 * JSON encoding is not modelled: a frame is decoded into a `Decoded` value.
 */
module Protocol {

  /** A connection (the socket a handler thread serves), named by a number. */
  type ConnId = nat

  /** The stored credential. SHA-256 is replaced by an injective stand-in. */
  datatype Digest = Digest(secret: string)

  function Hash(password: string): Digest {
    Digest(password)
  }

  /** One request frame after `json.loads`, dispatched on its "command" field. */
  datatype Request =
    | Register(username: string, password: string)
    | Login(username: string, password: string)
    | GetUsers
    | Msg(sender: string, recipient: string, body: string)         // "from", "to", "body"
    | Typing(sender: string, recipient: string, status: string)    // "from", "to", "status"
    | Other                                                        // any other or missing command

  /** The outcome of decoding one frame: a request, or text `loads` rejects. */
  datatype Decoded = Parsed(request: Request) | Malformed

  datatype Status = Ok | Error

  datatype Presence = Online | Offline

  /** Everything the server writes to a socket, one JSON object per line. */
  datatype Envelope =
    | AuthReply(status: Status, message: string)                  // {"status", "message"}
    | UserList(users: map<string, Presence>)                       // "user_list"
    | StatusUpdate(user: string, presence: Presence)               // "status_update"
    | Chat(sender: string, recipient: string, body: string, timestamp: nat)  // "msg"
    | TypingNotice(sender: string, recipient: string, state: string)        // forwarded "typing"

  const RegisteredText := "Registrado com sucesso!"
  const DuplicateText := "Usuário já existe."
  const LoggedInText := "Login bem-sucedido!"
  const BadCredentialsText := "Usuário ou senha inválidos."

  /** The login query: a row with this username and this password's digest exists. */
  predicate Authentic(users: map<string, Digest>, username: string, password: string) {
    username in users && users[username] == Hash(password)
  }
}
