/** The login server's side: what one packet does to one connection and to the tickets table. */
module LoginProtocol {
  import opened Common
  import opened Tickets

  datatype State = Unknown | Connected | GameGuardOK | LoginOK | ServerListSent | ServerSelected {
    function Rank(): nat {
      match this
      case Unknown => 0
      case Connected => 1
      case GameGuardOK => 2
      case LoginOK => 3
      case ServerListSent => 4
      case ServerSelected => 5
    }

    predicate LoggedIn() {
      Rank() >= LoginOK.Rank()
    }
  }

  /** A connection; `closing` holds once a reply was queued after which the socket is shut down. */
  datatype Conn = Conn(state: State, open: bool, closing: bool, sessionId: u32, accountId: u32, loginTicket: u32)

  function Accepted(sessionId: u32): Conn {
    Conn(Connected, true, false, sessionId, 0, 0)
  }

  /** The packets by opcode, with the fields they carry. */
  datatype Request =
    | GameGuard(sessionId: u32)                             // 0x07
    | Credentials(size: u32)                                // 0x0B
    | ServerList(account: u32, ticket: u32)                 // 0x05
    | SelectServer(account: u32, ticket: u32, server: byte) // 0x02
    | Reconnect(account: u32, ticket: u32)                  // 0x08
    | Other(opcode: byte)

  /** What the packet meets outside: decryption, the accounts database (0: refused), random numbers,
      the number of registered servers, whether the server has room, how a query to the tickets ends. */
  datatype World = World(decrypts: bool, authenticated: u32, random32: u32, random64: u64,
                         servers: nat, available: bool, commit: Commit)

  datatype Reply =
    | GameGuardAccepted(sessionId: u32)
    | LoginFailed(reason: byte)
    | LoginSucceeded(account: u32, ticket: u32)
    | ServersListed(count: nat)
    | PlayFailed(reason: byte)
    | Play(worldTicket: u64, server: byte)
    | ReconnectAccepted(account: u32, ticket: u32)

  datatype Result = Result(conn: Conn, rows: Table, event: Option<Event>, reply: Option<Reply>)

  function Close(c: Conn, rows: Table): Result {
    Result(c.(open := false), rows, None, None)
  }

  function Fail(c: Conn, rows: Table, reason: byte): Result {
    Result(c.(closing := true), rows, None, Some(LoginFailed(reason)))
  }

  function Step(id: nat, c: Conn, rows: Table, p: Request, w: World): Result {
    if !c.open then Result(c, rows, None, None)
    else match p
      case GameGuard(sessionId) =>
        if c.state != Connected then Close(c, rows)
        else if sessionId != c.sessionId then Fail(c, rows, 1)
        else Result(c.(state := GameGuardOK), rows, None, Some(GameGuardAccepted(c.sessionId)))
      case Credentials(size) =>
        if c.state != GameGuardOK then Close(c, rows)
        else if size < 132 || !w.decrypts then Fail(c, rows, 1)
        else if w.authenticated == 0 then Fail(c, rows, 2)
        else Result(c.(state := LoginOK, accountId := w.authenticated, loginTicket := w.random32), rows,
                    Some(PasswordAccepted(id, w.authenticated)), Some(LoginSucceeded(w.authenticated, w.random32)))
      case ServerList(account, ticket) =>
        if c.state != LoginOK || account != c.accountId || ticket != c.loginTicket then Close(c, rows)
        else if w.servers == 0 then Fail(c, rows, 6)
        else Result(c.(state := ServerListSent), rows, None, Some(ServersListed(w.servers)))
      case SelectServer(account, ticket, server) =>
        if c.state != ServerListSent || account != c.accountId || ticket != c.loginTicket then Close(c, rows)
        else if !w.available then Result(c, rows, None, Some(PlayFailed(15)))
        else if w.commit.Refused? then Fail(c, rows, 1)
        else
          var stored := Upsert(rows, c.accountId, Row(c.loginTicket, w.random64, server));
          var event := TicketsSet(id, c.accountId, c.loginTicket, w.random64, server, w.commit.Done?);
          if w.commit.InDoubt? then Fail(c, stored, 1).(event := Some(event))
          else Result(c.(state := ServerSelected), stored, Some(event), Some(Play(w.random64, server)))
      case Reconnect(account, ticket) =>
        if c.state != Connected || !w.commit.Done? || !HoldsLogin(rows, account, ticket) then Close(c, rows)
        else Result(c.(state := LoginOK, accountId := account, loginTicket := ticket), rows,
                    Some(Reconnected(id, account, ticket)), Some(ReconnectAccepted(account, ticket)))
      case Other(_) => Result(c, rows, None, None)
  }

  class LoginConnection {
    var state: State
    var open: bool
    var closing: bool
    var sessionId: u32
    var accountId: u32
    var loginTicket: u32

    ghost function View(): Conn
      reads this
    {
      Conn(state, open, closing, sessionId, accountId, loginTicket)
    }

    /** An accepted connection after `OnConnect`, with the session id it drew. */
    constructor (session: u32)
      ensures View() == Accepted(session)
    {
      state, open, closing := Connected, true, false;
      sessionId, accountId, loginTicket := session, 0, 0;
    }

    method CloseConnection()
      modifies this`open
      ensures !open
    {
      if open {
        open := false;
      }
    }

    /** Queues a reply; with `closeAfterSend` the connection is shut down once it is sent. */
    method SendPacket(r: Reply, closeAfterSend: bool) returns (reply: Option<Reply>)
      modifies this`closing
      ensures reply == if open then Some(r) else None
      ensures closing == (old(closing) || (open && closeAfterSend))
    {
      reply := None;
      if open {
        reply := Some(r);
        closing := closing || closeAfterSend;
      }
    }
  }

  class LoginPacketProcessor {
    const tickets: TicketsDAO

    constructor (dao: TicketsDAO)
      ensures tickets == dao
    {
      tickets := dao;
    }

    method ProcessPacket(id: nat, c: LoginConnection, p: Request, w: World)
      returns (event: Option<Event>, reply: Option<Reply>)
      modifies c, tickets
      ensures Result(c.View(), tickets.rows, event, reply) == Step(id, old(c.View()), old(tickets.rows), p, w)
    {
      event, reply := None, None;
      if !c.open { return; }
      match p {
        case GameGuard(sessionId) =>
          if c.state != Connected { c.CloseConnection(); return; }
          if sessionId != c.sessionId { reply := c.SendPacket(LoginFailed(1), true); return; }
          c.state := GameGuardOK;
          reply := c.SendPacket(GameGuardAccepted(c.sessionId), false);
        case Credentials(size) =>
          if c.state != GameGuardOK { c.CloseConnection(); return; }
          if size < 132 { reply := c.SendPacket(LoginFailed(1), true); return; }
          if !w.decrypts { reply := c.SendPacket(LoginFailed(1), true); return; }
          if w.authenticated == 0 { reply := c.SendPacket(LoginFailed(2), true); return; }
          c.accountId := w.authenticated;
          c.loginTicket := w.random32;
          c.state := LoginOK;
          event := Some(PasswordAccepted(id, w.authenticated));
          reply := c.SendPacket(LoginSucceeded(w.authenticated, w.random32), false);
        case ServerList(account, ticket) =>
          if c.state != LoginOK { c.CloseConnection(); return; }
          if account != c.accountId || ticket != c.loginTicket { c.CloseConnection(); return; }
          if w.servers == 0 { reply := c.SendPacket(LoginFailed(6), true); return; }
          reply := c.SendPacket(ServersListed(w.servers), false);
          c.state := ServerListSent;
        case SelectServer(account, ticket, server) =>
          if c.state != ServerListSent { c.CloseConnection(); return; }
          if account != c.accountId || ticket != c.loginTicket { c.CloseConnection(); return; }
          if !w.available { reply := c.SendPacket(PlayFailed(15), false); return; }
          var stored := tickets.SetTickets(c.accountId, c.loginTicket, w.random64, server, w.commit);
          if !w.commit.Refused? {
            event := Some(TicketsSet(id, c.accountId, c.loginTicket, w.random64, server, stored));
          }
          if !stored { reply := c.SendPacket(LoginFailed(1), true); return; }
          reply := c.SendPacket(Play(w.random64, server), false);
          c.state := ServerSelected;
        case Reconnect(account, ticket) =>
          if c.state != Connected { c.CloseConnection(); return; }
          var valid := tickets.ValidateLoginTicket(account, ticket, !w.commit.Done?);
          if !valid { c.CloseConnection(); return; }
          c.accountId := account;
          c.loginTicket := ticket;
          c.state := LoginOK;
          event := Some(Reconnected(id, account, ticket));
          reply := c.SendPacket(ReconnectAccepted(account, ticket), false);
        case Other(_) =>
      }
    }
  }
}
