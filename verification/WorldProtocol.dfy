/** The world server's side: what one packet does to one connection and to the tickets table. */
module WorldProtocol {
  import opened Common
  import opened Tickets

  datatype State = Unknown | Connected | Authenticated | Playing

  /** A connection to the world server `serverId`; `closing` as on the login side. */
  datatype Conn = Conn(state: State, open: bool, closing: bool, serverId: byte, accountId: u32)

  function Accepted(serverId: byte): Conn {
    Conn(Connected, true, false, serverId, 0)
  }

  datatype Request =
    | TimeSync(clientTime: u32)                                         // 0x81
    | Ping                                                              // 0x9F
    | SoftDisconnect                                                    // 0xF1
    | ServerInfo                                                        // 0xF3
    | Quit(logOut: bool)                                                // 0xF6
    | Authenticate(high: u32, low: u32, account: u32, loginTicket: u32) // 0x104, ticket halves as read
    | CharacterList(key: u32)                                           // 0x105
    | SelectServer                                                      // 0x12a
    | Other(opcode: u16)                                                // 0x12c and unknown opcodes

  datatype Reply =
    | Time(clientTime: u32)
    | Pong
    | Info(serverId: byte)
    | QuitAnswer
    | AuthenticationAnswer(accepted: bool)
    | Characters(key: u32)
    | NewLoginTicket(ticket: u32)

  datatype Result = Result(conn: Conn, rows: Table, event: Option<Event>, reply: Option<Reply>)

  /** The client sends the upper half of the ticket first. */
  function WorldTicket(high: u32, low: u32): u64 {
    low + 0x1_0000_0000 * high
  }

  function Say(c: Conn, rows: Table, r: Reply): Result {
    Result(c, rows, None, Some(r))
  }

  function Close(c: Conn, rows: Table): Result {
    Result(c.(open := false), rows, None, None)
  }

  function Step(id: nat, c: Conn, rows: Table, p: Request, random32: u32, commit: Commit): Result {
    if !c.open then Result(c, rows, None, None)
    else match p
      case TimeSync(t) => Say(c, rows, Time(t))
      case Ping => Say(c, rows, Pong)
      case SoftDisconnect => Close(c, rows)
      case ServerInfo => if c.state != Connected then Close(c, rows) else Say(c, rows, Info(c.serverId))
      case Quit(_) => Say(c, rows, QuitAnswer)
      case Authenticate(high, low, account, loginTicket) =>
        var ticket := WorldTicket(high, low);
        if c.state != Connected then Close(c, rows)
        else if !commit.Done? || !HoldsTriple(rows, account, loginTicket, ticket, c.serverId) then
          Result(c.(closing := true), rows, None, Some(AuthenticationAnswer(false)))
        else
          Result(c.(state := Authenticated, accountId := account), rows,
                 Some(WorldAccepted(id, account, loginTicket, ticket, c.serverId)), Some(AuthenticationAnswer(true)))
      case CharacterList(key) => if c.state != Authenticated then Close(c, rows) else Say(c, rows, Characters(key))
      case SelectServer =>
        if c.state != Authenticated || commit.Refused? || c.accountId !in rows then Close(c, rows)
        else
          var stored := Retarget(rows, c.accountId, random32);
          var event := LoginTicketSet(id, c.accountId, random32, commit.Done?);
          if commit.InDoubt? then Close(c, stored).(event := Some(event))
          else Result(c, stored, Some(event), Some(NewLoginTicket(random32)))
      case Other(_) => Result(c, rows, None, None)
  }

  class WorldConnection {
    var state: State
    var open: bool
    var closing: bool
    const serverId: byte
    var accountId: u32

    ghost function View(): Conn
      reads this
    {
      Conn(state, open, closing, serverId, accountId)
    }

    /** An accepted connection after `OnConnect`, on the server with the configured 16-bit id. */
    constructor (configuredId: u16)
      ensures View() == Accepted(configuredId % 256)
    {
      state, open, closing := Connected, true, false;
      serverId, accountId := configuredId % 256, 0;
    }

    /** CloseConnection and ShutdownConnection; they differ only in what they do to the socket. */
    method CloseConnection()
      modifies this`open
      ensures !open
    {
      if open {
        open := false;
      }
    }

    method SendPacket(r: Reply, closeAfterSend: bool) returns (reply: Option<Reply>)
      modifies this`closing
      ensures reply == if open then Some(r) else None
      ensures closing == (old(closing) || (open && closeAfterSend))
    {
      reply := None;
      if open {
        reply := Some(r);
        closing := closing || closeAfterSend;
      }
    }
  }

  class WorldPacketProcessor {
    const tickets: TicketsDAO

    constructor (dao: TicketsDAO)
      ensures tickets == dao
    {
      tickets := dao;
    }

    method ProcessPacket(id: nat, c: WorldConnection, p: Request, random32: u32, commit: Commit)
      returns (event: Option<Event>, reply: Option<Reply>)
      modifies c, tickets
      ensures Result(c.View(), tickets.rows, event, reply)
           == Step(id, old(c.View()), old(tickets.rows), p, random32, commit)
    {
      event, reply := None, None;
      if !c.open { return; }
      match p {
        case TimeSync(t) => reply := c.SendPacket(Time(t), false);
        case Ping => reply := c.SendPacket(Pong, false);
        case SoftDisconnect => c.CloseConnection();
        case ServerInfo =>
          if c.state != Connected { c.CloseConnection(); return; }
          reply := c.SendPacket(Info(c.serverId), false);
        case Quit(_) => reply := c.SendPacket(QuitAnswer, false);
        case Authenticate(high, low, account, loginTicket) =>
          if c.state != Connected { c.CloseConnection(); return; }
          var ticket := WorldTicket(high, low);
          var valid := tickets.ValidateTickets(account, loginTicket, ticket, c.serverId, !commit.Done?);
          if !valid { reply := c.SendPacket(AuthenticationAnswer(false), true); return; }
          c.accountId := account;
          c.state := Authenticated;
          event := Some(WorldAccepted(id, account, loginTicket, ticket, c.serverId));
          reply := c.SendPacket(AuthenticationAnswer(true), false);
        case CharacterList(key) =>
          if c.state != Authenticated { c.CloseConnection(); return; }
          reply := c.SendPacket(Characters(key), false);
        case SelectServer =>
          if c.state != Authenticated { c.CloseConnection(); return; }
          var stored := tickets.SetLoginTicket(c.accountId, random32, commit);
          if c.accountId in tickets.rows && !commit.Refused? {
            event := Some(LoginTicketSet(id, c.accountId, random32, stored));
          }
          if !stored { c.CloseConnection(); return; }
          reply := c.SendPacket(NewLoginTicket(random32), false);
        case Other(_) =>
      }
    }
  }
}
