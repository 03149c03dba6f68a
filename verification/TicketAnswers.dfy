/**
 What the servers answer, over whole runs: which replies a client gets to which packets, given what it was
 told before and what the history of the tickets says.
 */
module TicketAnswers {
  import opened Common
  import opened Tickets
  import opened TicketRuns
  import L = LoginProtocol
  import W = WorldProtocol

  // ---------------------------------------------------------------------------------------------
  // What a client was told
  // ---------------------------------------------------------------------------------------------

  /** The reply to login connection id in one step, if any. */
  function LoginSaid(s: System, l: Label, id: nat): seq<L.Reply> {
    if l.LoginPacket? && l.id == id && id in s.login then
      var reply := L.Step(id, s.login[id], s.rows, l.loginRequest, l.met).reply;
      if reply.Some? then [reply.value] else []
    else []
  }

  function WorldSaid(s: System, l: Label, id: nat): seq<W.Reply> {
    if l.WorldPacket? && l.id == id && id in s.world then
      var reply := W.Step(id, s.world[id], s.rows, l.worldRequest, l.random32, l.commit).reply;
      if reply.Some? then [reply.value] else []
    else []
  }

  /** All replies to login connection id along a run. */
  function LoginReplies(s: System, labels: seq<Label>, id: nat): seq<L.Reply>
    decreases |labels|
  {
    if labels == [] then [] else LoginSaid(s, labels[0], id) + LoginReplies(Next(s, labels[0]), labels[1..], id)
  }

  datatype Ids = Ids(account: u32, ticket: u32)

  /** The account and login ticket of the last reply that names them. */
  function Told(replies: seq<L.Reply>): Option<Ids> {
    if replies == [] then None
    else match replies[|replies| - 1]
      case LoginSucceeded(account, ticket) => Some(Ids(account, ticket))
      case ReconnectAccepted(account, ticket) => Some(Ids(account, ticket))
      case _ => Told(replies[..|replies| - 1])
  }

  function Or<T>(first: Option<T>, second: Option<T>): Option<T> {
    if first.Some? then first else second
  }

  lemma {:induction false} ToldJoins(a: seq<L.Reply>, b: seq<L.Reply>)
    ensures Told(a + b) == Or(Told(b), Told(a))
    decreases |b|
  {
    if b == [] {
      assert a + b == a;
    } else {
      assert (a + b)[..|a + b| - 1] == a + b[..|b| - 1];
      ToldJoins(a, b[..|b| - 1]);
    }
  }

  /** What connection id acts with. */
  function Held(s: System, id: nat): Option<Ids> {
    if id in s.login && s.login[id].state.LoggedIn()
    then Some(Ids(s.login[id].accountId, s.login[id].loginTicket)) else None
  }

  lemma StepTells(s: System, l: Label, id: nat)
    ensures Held(Next(s, l), id) == Or(Told(LoginSaid(s, l, id)), Held(s, id))
  {
    if l.LoginPacket? && l.id == id && id in s.login {
      PacketTells(s, l, id);
    }
  }

  lemma PacketTells(s: System, l: Label, id: nat)
    requires l.LoginPacket? && l.id == id && id in s.login
    ensures Held(Next(s, l), id) == Or(Told(LoginSaid(s, l, id)), Held(s, id))
  {
    var reply := L.Step(id, s.login[id], s.rows, l.loginRequest, l.met).reply;
    if reply.Some? {
      assert [reply.value][..0] == [];
    }
  }

  lemma {:induction false} RunTells(s: System, labels: seq<Label>, id: nat)
    ensures Held(Run(s, labels), id) == Or(Told(LoginReplies(s, labels, id)), Held(s, id))
    decreases |labels|
  {
    if labels != [] {
      RunTells(Next(s, labels[0]), labels[1..], id);
      StepTells(s, labels[0], id);
      ToldJoins(LoginSaid(s, labels[0], id), LoginReplies(Next(s, labels[0]), labels[1..], id));
    }
  }

  /** In every run, a connection acts with exactly the account and ticket its client was last told. */
  lemma ToldIsHeld(labels: seq<Label>, id: nat)
    ensures Held(Run(START, labels), id) == Told(LoginReplies(START, labels, id))
  {
    RunTells(START, labels, id);
  }

  /** The session id that went out when the connection was accepted. */
  function SessionGiven(labels: seq<Label>, id: nat): Option<u32>
    decreases |labels|
  {
    if labels == [] then None
    else if labels[0].LoginAccept? && labels[0].id == id then Some(labels[0].sessionId)
    else SessionGiven(labels[1..], id)
  }

  function SessionHeld(s: System, id: nat): Option<u32> {
    if id in s.login then Some(s.login[id].sessionId) else None
  }

  lemma {:induction false} RunKeepsSession(s: System, labels: seq<Label>, id: nat)
    ensures SessionHeld(Run(s, labels), id) == Or(SessionHeld(s, id), SessionGiven(labels, id))
    decreases |labels|
  {
    if labels != [] {
      RunKeepsSession(Next(s, labels[0]), labels[1..], id);
      StepAdvances(s, labels[0]);
      StepKeepsSession(s, labels[0], id);
    }
  }

  lemma StepKeepsSession(s: System, l: Label, id: nat)
    requires SystemAdvanced(s, Next(s, l))
    ensures SessionHeld(Next(s, l), id)
         == if l.LoginAccept? && l.id == id then Or(SessionHeld(s, id), Some(l.sessionId)) else SessionHeld(s, id)
  {
  }

  // ---------------------------------------------------------------------------------------------
  // The login server's answers
  // ---------------------------------------------------------------------------------------------

  /** An open login connection in the given state after a run. */
  ghost predicate OpenIn(labels: seq<Label>, id: nat, state: L.State) {
    var s := Run(START, labels);
    id in s.login && s.login[id].open && s.login[id].state == state
  }

  /** Nothing but connection id may have changed, and its state has not. */
  ghost predicate Refused(s: System, t: System, id: nat) {
    && t.rows == s.rows && t.log == s.log && t.world == s.world
    && id in s.login && id in t.login && t.login == s.login[id := t.login[id]] && t.login[id].state == s.login[id].state
  }

  ghost predicate ClosedAt(s: System, t: System, id: nat) {
    Refused(s, t, id) && !t.login[id].open
  }

  /** Refused with a reply, after which the connection is shut down. */
  ghost predicate FailedAt(s: System, t: System, id: nat) {
    Refused(s, t, id) && t.login[id].closing
  }

  /** 0x07: the session id of the connection, and no other, gets a client on. */
  lemma GameGuardAnswer(labels: seq<Label>, id: nat, session: u32, met: L.World)
    requires OpenIn(labels, id, L.Connected)
    ensures var s, l := Run(START, labels), LoginPacket(id, L.GameGuard(session), met);
      var t, said := Next(s, l), LoginSaid(s, l, id);
      if SessionGiven(labels, id) == Some(session) then
        && said == [L.GameGuardAccepted(session)] && t.login[id].state == L.GameGuardOK
        && t.rows == s.rows && t.log == s.log
      else
        said == [L.LoginFailed(1)] && FailedAt(s, t, id)
  {
    RunKeepsSession(START, labels, id);
  }

  /** 0x0B: a readable message with an accepted password, and no other, logs a client in, under the account
      the password belongs to and with a new ticket; both are in the reply. */
  lemma PasswordAnswer(labels: seq<Label>, id: nat, size: u32, met: L.World)
    requires OpenIn(labels, id, L.GameGuardOK)
    ensures var s, l := Run(START, labels), LoginPacket(id, L.Credentials(size), met);
      var t, said := Next(s, l), LoginSaid(s, l, id);
      if size < 132 || !met.decrypts then
        said == [L.LoginFailed(1)] && FailedAt(s, t, id)
      else if met.authenticated == 0 then
        said == [L.LoginFailed(2)] && FailedAt(s, t, id)
      else
        && said == [L.LoginSucceeded(met.authenticated, met.random32)]
        && t.login[id].state == L.LoginOK && Held(t, id) == Some(Ids(met.authenticated, met.random32))
        && t.rows == s.rows && t.log == s.log + [PasswordAccepted(id, met.authenticated)]
  {
  }

  /** 0x05: a client gets the list for the account and ticket it was told; any others close the connection. */
  lemma ListAnswer(labels: seq<Label>, id: nat, account: u32, ticket: u32, met: L.World)
    requires OpenIn(labels, id, L.LoginOK)
    ensures var s, l := Run(START, labels), LoginPacket(id, L.ServerList(account, ticket), met);
      var t, said := Next(s, l), LoginSaid(s, l, id);
      if Told(LoginReplies(START, labels, id)) != Some(Ids(account, ticket)) then
        said == [] && ClosedAt(s, t, id)
      else if met.servers == 0 then
        said == [L.LoginFailed(6)] && FailedAt(s, t, id)
      else
        && said == [L.ServersListed(met.servers)]
        && t.login[id].state == L.ServerListSent && Held(t, id) == Held(s, id) && t.rows == s.rows && t.log == s.log
  {
    ToldIsHeld(labels, id);
  }

  /** The table with the row of one account set, and all others as they were. */
  ghost predicate RowSet(rows: Table, after: Table, account: u32, row: Row) {
    && account in after && after[account] == row
    && forall other: u32 :: other != account ==>
         (other in after <==> other in rows) && (other in rows ==> after[other] == rows[other])
  }

  /** 0x02: with the account and ticket it was told, and only with these, a client is let through to a server
      that has room; the row then holds the ticket it was told and the world ticket and server of the
      reply. A failing database may have stored that row or not. */
  lemma SelectAnswer(labels: seq<Label>, id: nat, account: u32, ticket: u32, server: byte, met: L.World)
    requires OpenIn(labels, id, L.ServerListSent)
    ensures var s, l := Run(START, labels), LoginPacket(id, L.SelectServer(account, ticket, server), met);
      var t, said := Next(s, l), LoginSaid(s, l, id);
      if Told(LoginReplies(START, labels, id)) != Some(Ids(account, ticket)) then
        said == [] && ClosedAt(s, t, id)
      else if !met.available then
        said == [L.PlayFailed(15)] && t == s
      else match met.commit {
        case Refused => said == [L.LoginFailed(1)] && FailedAt(s, t, id)
        case InDoubt =>
          && said == [L.LoginFailed(1)] && t.login[id].state == L.ServerListSent && t.login[id].closing
          && RowSet(s.rows, t.rows, account, Row(ticket, met.random64, server))
        case Done =>
          && said == [L.Play(met.random64, server)] && t.login[id].state == L.ServerSelected
          && RowSet(s.rows, t.rows, account, Row(ticket, met.random64, server))
      }
  {
    ToldIsHeld(labels, id);
  }

  /** The login ticket of the account's last write that carries one. */
  ghost predicate LastTicket(log: seq<Event>, account: u32, ticket: u32) {
    exists k: nat :: Last(log, k, account, SetsLogin) && log[k].loginTicket == ticket
  }

  /** A write of a login ticket leaves a row. */
  lemma {:induction false} TicketMeansRow(log: seq<Event>, account: u32, k: nat)
    requires Decided(log) && k < |log| && SetsLogin(log[k], account)
    ensures account in Replay(log)
    decreases |log|
  {
    var n := |log| - 1;
    if k < n {
      DecidedBefore(log);
      TicketMeansRow(log[..n], account, k);
    } else {
      assert Justified(Replay(log[..n]), log[n]);
    }
  }

  lemma DecidedBefore(log: seq<Event>)
    requires Decided(log) && log != []
    ensures Decided(log[..|log| - 1])
  {
    var before := log[..|log| - 1];
    forall i | 0 <= i < |before| ensures Justified(Replay(before[..i]), before[i]) {
      assert before[..i] == log[..i] && before[i] == log[i];
    }
  }

  /** A row's login ticket is the last one written for the account, and no other is. */
  lemma RowHasLastTicket(log: seq<Event>, account: u32, ticket: u32)
    requires Decided(log)
    ensures LastTicket(log, account, ticket) <==> account in Replay(log) && Replay(log)[account].loginTicket == ticket
  {
    if account in Replay(log) {
      var i, k := ReplayReadsLastWrites(log, account);
      forall j: nat | Last(log, j, account, SetsLogin) ensures j == k { LastIsUnique(log, account, SetsLogin, k, j); }
    } else {
      forall j: nat ensures !Last(log, j, account, SetsLogin) {
        if j < |log| && SetsLogin(log[j], account) { TicketMeansRow(log, account, j); }
      }
    }
  }

  /** 0x08: a new connection is taken back in if and only if the database works and the ticket is the last one
      written for the account, by a selection or by a world server. */
  lemma ReconnectAnswer(labels: seq<Label>, id: nat, account: u32, ticket: u32, met: L.World)
    requires OpenIn(labels, id, L.Connected)
    ensures var s, l := Run(START, labels), LoginPacket(id, L.Reconnect(account, ticket), met);
      var t, said := Next(s, l), LoginSaid(s, l, id);
      if met.commit.Done? && LastTicket(s.log, account, ticket) then
        && said == [L.ReconnectAccepted(account, ticket)]
        && t.login[id].state == L.LoginOK && Held(t, id) == Some(Ids(account, ticket))
        && t.rows == s.rows && t.log == s.log + [Reconnected(id, account, ticket)]
      else
        said == [] && ClosedAt(s, t, id)
  {
    RunHistorical(START, labels);
    RowHasLastTicket(Run(START, labels).log, account, ticket);
  }

  /** In every run, each reconnection carries the login ticket last written for its account before it. */
  lemma ReconnectionsUseLastTicket(labels: seq<Label>, n: nat)
    requires n < |Run(START, labels).log| && Run(START, labels).log[n].Reconnected?
    ensures var log := Run(START, labels).log;
      LastTicket(log[..n], log[n].account, log[n].loginTicket)
  {
    RunHistorical(START, labels);
    var log := Run(START, labels).log;
    assert Justified(Replay(log[..n]), log[n]);
    DecidedPrefix(log, n);
    RowHasLastTicket(log[..n], log[n].account, log[n].loginTicket);
  }

  lemma DecidedPrefix(log: seq<Event>, n: nat)
    requires Decided(log) && n <= |log|
    ensures Decided(log[..n])
  {
    var before := log[..n];
    forall i | 0 <= i < |before| ensures Justified(Replay(before[..i]), before[i]) {
      assert before[..i] == log[..i] && before[i] == log[i];
    }
  }

  /** The state in which a connection must be for a packet. */
  function Expected(p: L.Request): Option<L.State> {
    match p
    case GameGuard(_) => Some(L.Connected)
    case Credentials(_) => Some(L.GameGuardOK)
    case ServerList(_, _) => Some(L.LoginOK)
    case SelectServer(_, _, _) => Some(L.ServerListSent)
    case Reconnect(_, _) => Some(L.Connected)
    case Other(_) => None
  }

  /** A packet out of order closes the connection; an unknown one, or any on a closed connection, does
      nothing. There is no answer to any of them. */
  lemma OutOfOrderAnswer(s: System, id: nat, p: L.Request, met: L.World)
    requires id in s.login && (!s.login[id].open || Expected(p) != Some(s.login[id].state))
    ensures var l := LoginPacket(id, p, met);
      var t := Next(s, l);
      && LoginSaid(s, l, id) == []
      && if s.login[id].open && Expected(p).Some? then ClosedAt(s, t, id) else t == s
  {
    assert s.login[id := s.login[id]] == s.login;
  }

  /** Once the reply to a refused packet is out, the connection is closed. */
  lemma FailedIsClosed(s: System, t: System, id: nat)
    requires FailedAt(s, t, id)
    ensures !Next(t, LoginSent(id)).login[id].open
  {
  }

  // ---------------------------------------------------------------------------------------------
  // The world server's answers
  // ---------------------------------------------------------------------------------------------

  ghost predicate WorldOpenIn(labels: seq<Label>, id: nat, state: W.State) {
    var s := Run(START, labels);
    id in s.world && s.world[id].open && s.world[id].state == state
  }

  ghost predicate WorldRefused(s: System, t: System, id: nat) {
    && t.rows == s.rows && t.log == s.log && t.login == s.login
    && id in s.world && id in t.world && t.world == s.world[id := t.world[id]] && t.world[id].state == s.world[id].state
  }

  /** 0x104: accepted if and only if the database works and the account's row has this login ticket, this
      server, and a world ticket with the first number sent as its upper half and the second as its lower. */
  lemma AuthenticateAnswer(labels: seq<Label>, id: nat, high: u32, low: u32, account: u32, ticket: u32,
                           random32: u32, commit: Commit)
    requires WorldOpenIn(labels, id, W.Connected)
    ensures var s := Run(START, labels);
      var l := WorldPacket(id, W.Authenticate(high, low, account, ticket), random32, commit);
      var t, said := Next(s, l), WorldSaid(s, l, id);
      var good :=
        && commit.Done? && account in s.rows
        && s.rows[account].loginTicket == ticket && s.rows[account].worldId == s.world[id].serverId
        && s.rows[account].worldTicket / 0x1_0000_0000 == high && s.rows[account].worldTicket % 0x1_0000_0000 == low;
      && said == [W.AuthenticationAnswer(good)]
      && if good then
           t.rows == s.rows && t.world[id] == s.world[id].(state := W.Authenticated, accountId := account)
         else
           WorldRefused(s, t, id) && t.world[id].closing
  {
  }

  /** The halves of a ticket put together again. */
  lemma HalvesAnswer(labels: seq<Label>, id: nat, account: u32, random32: u32)
    requires WorldOpenIn(labels, id, W.Connected)
    requires account in Run(START, labels).rows
    requires Run(START, labels).rows[account].worldId == Run(START, labels).world[id].serverId
    ensures var s := Run(START, labels);
      var row := s.rows[account];
      var high, low := row.worldTicket / 0x1_0000_0000, row.worldTicket % 0x1_0000_0000;
      var p := W.Authenticate(high, low, account, row.loginTicket);
      WorldSaid(s, WorldPacket(id, p, random32, Done), id) == [W.AuthenticationAnswer(true)]
  {
  }

  ghost predicate AuthenticatedHaveRows(s: System) {
    forall id <- s.world :: s.world[id].state.Authenticated? ==> s.world[id].accountId in s.rows
  }

  lemma StepHaveRows(s: System, l: Label)
    requires AuthenticatedHaveRows(s)
    ensures AuthenticatedHaveRows(Next(s, l))
  {
    StepAdvances(s, l);
    if l.WorldPacket? && l.id in s.world {
      WorldStepFacts(l.id, s.world[l.id], s.rows, l.worldRequest, l.random32, l.commit);
    }
  }

  lemma {:induction false} RunHaveRows(s: System, labels: seq<Label>)
    requires AuthenticatedHaveRows(s)
    ensures AuthenticatedHaveRows(Run(s, labels))
    decreases |labels|
  {
    if labels != [] {
      StepHaveRows(s, labels[0]);
      RunHaveRows(Next(s, labels[0]), labels[1..]);
    }
  }

  /** 0x12a: the ticket in the reply is the one stored, for the connection's account and nothing else; with a
      failing database the connection is closed, and the ticket may have been stored or not. */
  lemma NewTicketAnswer(labels: seq<Label>, id: nat, random32: u32, commit: Commit)
    requires WorldOpenIn(labels, id, W.Authenticated)
    ensures var s, l := Run(START, labels), WorldPacket(id, W.SelectServer, random32, commit);
      var t, said := Next(s, l), WorldSaid(s, l, id);
      var account := s.world[id].accountId;
      account in s.rows &&
      var stored := RowSet(s.rows, t.rows, account, s.rows[account].(loginTicket := random32));
      match commit {
        case Refused => said == [] && WorldRefused(s, t, id) && !t.world[id].open
        case InDoubt => said == [] && stored && !t.world[id].open
        case Done => said == [W.NewLoginTicket(random32)] && stored && t.world == s.world && t.login == s.login
      }
  {
    RunHaveRows(START, labels);
    var s := Run(START, labels);
    assert s.world[id := s.world[id]] == s.world;
  }

  ghost predicate Accepts(s: System, id: nat, account: u32, ticket: u32, met: L.World) {
    LoginSaid(s, LoginPacket(id, L.Reconnect(account, ticket), met), id) == [L.ReconnectAccepted(account, ticket)]
  }

  /** The way back: after a `NewLoginTicket` reply, a new connection to the login server is taken in for the
      account if and only if it shows the ticket of that reply. */
  lemma NewTicketReconnects(labels: seq<Label>, id: nat, random32: u32, back: nat, ticket: u32, met: L.World)
    requires WorldOpenIn(labels, id, W.Authenticated) && OpenIn(labels, back, L.Connected) && met.commit.Done?
    ensures var s, l := Run(START, labels), WorldPacket(id, W.SelectServer, random32, Done);
      var t := Next(s, l);
      var account := s.world[id].accountId;
      && WorldSaid(s, l, id) == [W.NewLoginTicket(random32)]
      && (Accepts(t, back, account, ticket, met) <==> ticket == random32)
  {
    RunHaveRows(START, labels);
  }

  /** The other packets: their answers, and that they change no table, no history and no state. */
  lemma OtherWorldAnswers(s: System, id: nat, p: W.Request, random32: u32, commit: Commit)
    requires id in s.world && s.world[id].open && !p.Authenticate? && !p.SelectServer?
    ensures var l := WorldPacket(id, p, random32, commit);
      var t, said := Next(s, l), WorldSaid(s, l, id);
      var c := s.world[id];
      && WorldRefused(s, t, id)
      && match p {
           case TimeSync(clientTime) => said == [W.Time(clientTime)] && t.world[id].open
           case Ping => said == [W.Pong] && t.world[id].open
           case SoftDisconnect => said == [] && !t.world[id].open
           case ServerInfo => said == (if c.state == W.Connected then [W.Info(c.serverId)] else []) &&
                              (t.world[id].open <==> c.state == W.Connected)
           case Quit(_) => said == [W.QuitAnswer] && t.world[id].open
           case CharacterList(key) => said == (if c.state == W.Authenticated then [W.Characters(key)] else []) &&
                                      (t.world[id].open <==> c.state == W.Authenticated)
           case Other(_) => said == [] && t.world[id].open
           case _ => true
         }
  {
  }

  /** And out of order, or on a closed connection. */
  lemma OutOfOrderWorldAnswer(s: System, id: nat, p: W.Request, random32: u32, commit: Commit)
    requires id in s.world
    requires !s.world[id].open || (p.Authenticate? && s.world[id].state != W.Connected)
          || (p.SelectServer? && s.world[id].state != W.Authenticated)
    ensures var l := WorldPacket(id, p, random32, commit);
      var t := Next(s, l);
      WorldSaid(s, l, id) == [] && WorldRefused(s, t, id) && !t.world[id].open
  {
  }

  // ---------------------------------------------------------------------------------------------
  // The whole way, from the password to the world server and back
  // ---------------------------------------------------------------------------------------------

  lemma RunCons(s: System, l: Label, rest: seq<Label>, id: nat)
    ensures Run(s, [l] + rest) == Run(Next(s, l), rest)
    ensures LoginReplies(s, [l] + rest, id) == LoginSaid(s, l, id) + LoginReplies(Next(s, l), rest, id)
  {
    assert ([l] + rest)[1..] == rest;
  }

  /** Everything outside works: this password, these random numbers, so many servers. */
  function Working(account: u32, random32: u32, random64: u64, servers: nat): L.World {
    L.World(true, account, random32, random64, servers, true, Done)
  }

  /** A client's packets up to the choice of a server, using what it was told. */
  function Way(id: nat, session: u32, size: u32, server: byte, account: u32, ticket: u32, met: L.World): seq<Label> {
    [LoginAccept(id, session)] + ([LoginPacket(id, L.GameGuard(session), met)] +
    ([LoginPacket(id, L.Credentials(size), met)] + ([LoginPacket(id, L.ServerList(account, ticket), met)] +
    ([LoginPacket(id, L.SelectServer(account, ticket, server), met)] + []))))
  }

  /** The system with connection id as given, and a longer history. */
  function With(s: System, id: nat, state: L.State, session: u32, ids: Ids, log: seq<Event>): System {
    s.(login := s.login[id := L.Conn(state, true, false, session, ids.account, ids.ticket)], log := log)
  }

  lemma LoggedOn(s: System, id: nat, session: u32, size: u32, account: u32, ticket: u32, met: L.World)
    requires id !in s.login && size >= 132
    requires met.decrypts && met.authenticated == account != 0 && met.random32 == ticket
    ensures var guard := LoginPacket(id, L.GameGuard(session), met);
      var password := LoginPacket(id, L.Credentials(size), met);
      var s1 := With(s, id, L.Connected, session, Ids(0, 0), s.log);
      var s2 := With(s, id, L.GameGuardOK, session, Ids(0, 0), s.log);
      && Next(s, LoginAccept(id, session)) == s1
      && Next(s1, guard) == s2 && LoginSaid(s1, guard, id) == [L.GameGuardAccepted(session)]
      && Next(s2, password) ==
           With(s, id, L.LoginOK, session, Ids(account, ticket), s.log + [PasswordAccepted(id, account)])
      && LoginSaid(s2, password, id) == [L.LoginSucceeded(account, ticket)]
  {
  }

  lemma Listed(s: System, id: nat, session: u32, ids: Ids, log: seq<Event>, met: L.World)
    requires met.servers > 0
    ensures var l := LoginPacket(id, L.ServerList(ids.account, ids.ticket), met);
      var s1 := With(s, id, L.LoginOK, session, ids, log);
      && Next(s1, l) == With(s, id, L.ServerListSent, session, ids, log)
      && LoginSaid(s1, l, id) == [L.ServersListed(met.servers)]
  {
  }

  lemma Selected(s: System, id: nat, session: u32, ids: Ids, server: byte, log: seq<Event>, met: L.World)
    requires met.available && met.commit.Done?
    ensures var l := LoginPacket(id, L.SelectServer(ids.account, ids.ticket, server), met);
      var s1 := With(s, id, L.ServerListSent, session, ids, log);
      && LoginSaid(s1, l, id) == [L.Play(met.random64, server)]
      && Next(s1, l) ==
           With(s, id, L.ServerSelected, session, ids,
                log + [TicketsSet(id, ids.account, ids.ticket, met.random64, server, true)])
           .(rows := s.rows[ids.account := Row(ids.ticket, met.random64, server)])
  {
  }

  /** Whatever else is going on: a new client with a good password that sends back the session id, account and
      ticket it is told gets through, and its row holds the ticket it was told and the world ticket and
      server it is sent on with. */
  lemma WayThrough(s: System, id: nat, session: u32, size: u32, server: byte, account: u32, ticket: u32,
                   worldTicket: u64, servers: nat)
    requires id !in s.login && size >= 132 && account != 0 && servers > 0
    ensures var met := Working(account, ticket, worldTicket, servers);
      var labels := Way(id, session, size, server, account, ticket, met);
      && LoginReplies(s, labels, id) == [L.GameGuardAccepted(session), L.LoginSucceeded(account, ticket),
                                         L.ServersListed(servers), L.Play(worldTicket, server)]
      && Run(s, labels) ==
           With(s, id, L.ServerSelected, session, Ids(account, ticket),
                s.log + [PasswordAccepted(id, account)] +
                [TicketsSet(id, account, ticket, worldTicket, server, true)])
           .(rows := s.rows[account := Row(ticket, worldTicket, server)])
  {
    var met, ids := Working(account, ticket, worldTicket, servers), Ids(account, ticket);
    var l0, l1 := LoginAccept(id, session), LoginPacket(id, L.GameGuard(session), met);
    var l2, l3 := LoginPacket(id, L.Credentials(size), met), LoginPacket(id, L.ServerList(account, ticket), met);
    var l4 := LoginPacket(id, L.SelectServer(account, ticket, server), met);
    var log := s.log + [PasswordAccepted(id, account)];
    LoggedOn(s, id, session, size, account, ticket, met);
    Listed(s, id, session, ids, log, met);
    Selected(s, id, session, ids, server, log, met);
    RunCons(s, l0, [l1] + ([l2] + ([l3] + ([l4] + []))), id);
    RunCons(With(s, id, L.Connected, session, Ids(0, 0), s.log), l1, [l2] + ([l3] + ([l4] + [])), id);
    RunCons(With(s, id, L.GameGuardOK, session, Ids(0, 0), s.log), l2, [l3] + ([l4] + []), id);
    RunCons(With(s, id, L.LoginOK, session, ids, log), l3, [l4] + [], id);
    RunCons(With(s, id, L.ServerListSent, session, ids, log), l4, [], id);
  }

  /** A client on the world server, from connecting to asking for the way back. */
  function Visit(id: nat, server: byte, account: u32, ticket: u32, worldTicket: u64, random32: u32): seq<Label> {
    var p := W.Authenticate(worldTicket / 0x1_0000_0000, worldTicket % 0x1_0000_0000, account, ticket);
    [WorldAccept(id, server)] +
    ([WorldPacket(id, p, 0, Done)] + ([WorldPacket(id, W.SelectServer, random32, Done)] + []))
  }

  function Visiting(s: System, id: nat, state: W.State, server: byte, account: u32): System {
    s.(world := s.world[id := W.Conn(state, true, false, server, account)])
  }

  lemma TakenIn(s: System, id: nat, server: byte, account: u32, ticket: u32, worldTicket: u64)
    requires account in s.rows && s.rows[account] == Row(ticket, worldTicket, server)
    ensures var p := W.Authenticate(worldTicket / 0x1_0000_0000, worldTicket % 0x1_0000_0000, account, ticket);
      Next(Visiting(s, id, W.Connected, server, 0), WorldPacket(id, p, 0, Done))
        == Visiting(s, id, W.Authenticated, server, account)
           .(log := s.log + [WorldAccepted(id, account, ticket, worldTicket, server)])
  {
  }

  lemma SentBack(s: System, id: nat, server: byte, account: u32, random32: u32)
    requires account in s.rows
    ensures Next(Visiting(s, id, W.Authenticated, server, account), WorldPacket(id, W.SelectServer, random32, Done))
         == Visiting(s, id, W.Authenticated, server, account)
            .(rows := s.rows[account := s.rows[account].(loginTicket := random32)],
              log := s.log + [LoginTicketSet(id, account, random32, true)])
  {
    var t := Visiting(s, id, W.Authenticated, server, account);
    assert t.world[id := t.world[id]] == t.world;
  }

  /** With the row that the login server stored, a client is taken in by the world server and gets a new ticket
      into its row. */
  lemma VisitSucceeds(s: System, id: nat, server: byte, account: u32, ticket: u32, worldTicket: u64, random32: u32)
    requires id !in s.world && account in s.rows && s.rows[account] == Row(ticket, worldTicket, server)
    ensures var t := Run(s, Visit(id, server, account, ticket, worldTicket, random32));
      && t.login == s.login && t.rows == s.rows[account := Row(random32, worldTicket, server)]
      && t.world == s.world[id := W.Conn(W.Authenticated, true, false, server, account)]
  {
    var p := W.Authenticate(worldTicket / 0x1_0000_0000, worldTicket % 0x1_0000_0000, account, ticket);
    var l0, l1 := WorldAccept(id, server), WorldPacket(id, p, 0, Done);
    var l2 := WorldPacket(id, W.SelectServer, random32, Done);
    var after := s.(log := s.log + [WorldAccepted(id, account, ticket, worldTicket, server)]);
    TakenIn(s, id, server, account, ticket, worldTicket);
    SentBack(after, id, server, account, random32);
    RunCons(s, l0, [l1] + ([l2] + []), id);
    RunCons(Visiting(s, id, W.Connected, server, 0), l1, [l2] + [], id);
    RunCons(Visiting(after, id, W.Authenticated, server, account), l2, [], id);
  }

  lemma {:induction false} RunJoins(s: System, a: seq<Label>, b: seq<Label>)
    ensures Run(s, a + b) == Run(Run(s, a), b)
    decreases |a|
  {
    if a == [] {
      assert a + b == b;
    } else {
      assert (a + b)[0] == a[0] && (a + b)[1..] == a[1..] + b;
      RunJoins(Next(s, a[0]), a[1..], b);
    }
  }

  /** The whole circle: password, selection, world server, new ticket, and back in without a password. */
  lemma FullCircle(s: System, id: nat, session: u32, size: u32, server: byte, account: u32, ticket: u32,
                   worldTicket: u64, servers: nat, visit: nat, random32: u32, back: nat, session2: u32, met: L.World)
    requires id !in s.login && size >= 132 && account != 0 && servers > 0
    requires visit !in s.world && back !in s.login && back != id && met.commit.Done?
    ensures var way := Way(id, session, size, server, account, ticket, Working(account, ticket, worldTicket, servers));
      var t := Run(s, way + Visit(visit, server, account, ticket, worldTicket, random32));
      var u := Next(t, LoginAccept(back, session2));
      Accepts(u, back, account, random32, met)
  {
    var way := Way(id, session, size, server, account, ticket, Working(account, ticket, worldTicket, servers));
    WayThrough(s, id, session, size, server, account, ticket, worldTicket, servers);
    VisitSucceeds(Run(s, way), visit, server, account, ticket, worldTicket, random32);
    RunJoins(s, way, Visit(visit, server, account, ticket, worldTicket, random32));
  }
}
