/**
 Whole runs of the ticket protocol: any number of login and world connections, any number of world
 servers, one tickets table, in any interleaving of packets, sends completing and peers hanging up.
 `log` is the history of what was accepted and written.
 */
module TicketRuns {
  import opened Common
  import opened Tickets
  import L = LoginProtocol
  import W = WorldProtocol

  datatype System = System(login: map<nat, L.Conn>, world: map<nat, W.Conn>, rows: Table, log: seq<Event>)

  const START: System := System(map[], map[], map[], [])

  datatype Label =
    | LoginAccept(id: nat, sessionId: u32)
    | LoginPacket(id: nat, loginRequest: L.Request, met: L.World)
    | LoginSent(id: nat)  // a queued reply was sent: ShutdownConnection if it asked for that
    | LoginLost(id: nat)  // the receive failed
    | WorldAccept(id: nat, serverId: byte)
    | WorldPacket(id: nat, worldRequest: W.Request, random32: u32, commit: Commit)
    | WorldSent(id: nat)
    | WorldLost(id: nat)

  function Logged(log: seq<Event>, e: Option<Event>): seq<Event> {
    if e.Some? then log + [e.value] else log
  }

  /** The system once connection `id` has answered a packet. */
  function AfterLogin(s: System, id: nat, r: L.Result): System {
    System(s.login[id := r.conn], s.world, r.rows, Logged(s.log, r.event))
  }

  function AfterWorld(s: System, id: nat, r: W.Result): System {
    System(s.login, s.world[id := r.conn], r.rows, Logged(s.log, r.event))
  }

  function Next(s: System, l: Label): System {
    match l
    case LoginAccept(id, sessionId) =>
      if id in s.login then s else s.(login := s.login[id := L.Accepted(sessionId)])
    case LoginPacket(id, p, met) =>
      if id !in s.login then s
      else
        AfterLogin(s, id, L.Step(id, s.login[id], s.rows, p, met))
    case LoginSent(id) =>
      if id in s.login && s.login[id].closing then s.(login := s.login[id := s.login[id].(open := false)]) else s
    case LoginLost(id) =>
      if id in s.login then s.(login := s.login[id := s.login[id].(open := false)]) else s
    case WorldAccept(id, serverId) =>
      if id in s.world then s else s.(world := s.world[id := W.Accepted(serverId)])
    case WorldPacket(id, p, random32, commit) =>
      if id !in s.world then s
      else
        AfterWorld(s, id, W.Step(id, s.world[id], s.rows, p, random32, commit))
    case WorldSent(id) =>
      if id in s.world && s.world[id].closing then s.(world := s.world[id := s.world[id].(open := false)]) else s
    case WorldLost(id) =>
      if id in s.world then s.(world := s.world[id := s.world[id].(open := false)]) else s
  }

  function Run(s: System, labels: seq<Label>): System
    decreases |labels|
  {
    if labels == [] then s else Run(Next(s, labels[0]), labels[1..])
  }

  // ---------------------------------------------------------------------------------------------
  // What one packet can do, on either server
  // ---------------------------------------------------------------------------------------------

  function Written(rows: Table, e: Event): Table {
    match e
    case TicketsSet(_, account, lt, wt, wid, _) => Upsert(rows, account, Row(lt, wt, wid))
    case LoginTicketSet(_, account, lt, _) => Retarget(rows, account, lt)
    case _ => rows
  }

  /** What the table must hold for the event to happen. */
  predicate Justified(rows: Table, e: Event) {
    match e
    case WorldAccepted(_, account, lt, wt, wid) => HoldsTriple(rows, account, lt, wt, wid)
    case Reconnected(_, account, lt) => HoldsLogin(rows, account, lt)
    case LoginTicketSet(_, account, _, _) => account in rows
    case _ => true
  }

  /** Nothing a connection has established is ever taken back or changed. */
  ghost predicate Advanced(c: L.Conn, d: L.Conn) {
    && c.state.Rank() <= d.state.Rank()
    && c.sessionId == d.sessionId
    && (c.state.LoggedIn() ==> d.accountId == c.accountId && d.loginTicket == c.loginTicket)
    && (d.open ==> c.open)
    && (c.closing ==> d.closing)
    && (!c.open ==> d == c)
  }

  ghost predicate WorldAdvanced(c: W.Conn, d: W.Conn) {
    && (c.state.Authenticated? ==> d.state.Authenticated? && d.accountId == c.accountId)
    && c.serverId == d.serverId
    && (d.open ==> c.open)
  }

  /** A login connection gains an account only through an accepted password or a login ticket the
      table holds, stores tickets only for its own account, and reports every write it makes. */
  ghost predicate LoginFacts(id: nat, c: L.Conn, rows: Table, r: L.Result) {
    && Advanced(c, r.conn)
    && r.rows == (if r.event.Some? then Written(rows, r.event.value) else rows)
    && (r.event.Some? ==>
          var e := r.event.value;
          && e.conn == id && Justified(rows, e) && e.account == r.conn.accountId && r.conn.state.LoggedIn()
          && (e.PasswordAccepted? || e.Reconnected? || e.TicketsSet?)
          && (e.PasswordAccepted? ==> e.account != 0))
    && (!c.state.LoggedIn() && r.conn.state.LoggedIn() <==>
          r.event.Some? && (r.event.value.PasswordAccepted? || r.event.value.Reconnected?))
    && (!c.state.ServerSelected? && r.conn.state.ServerSelected? <==>
          r.event.Some? && r.event.value.TicketsSet? && r.event.value.known)
    && (!r.conn.state.LoggedIn() ==> r.conn.accountId == c.accountId)
    && (c.state.Rank() >= 1 ==> r.conn.state.Rank() >= 1)
  }

  lemma LoginStepFacts(id: nat, c: L.Conn, rows: Table, p: L.Request, w: L.World)
    ensures LoginFacts(id, c, rows, L.Step(id, c, rows, p, w))
  {
  }

  /** A world connection gains an account only through a triple the table holds, and changes the
      login ticket of that account only. */
  ghost predicate WorldFacts(id: nat, c: W.Conn, rows: Table, r: W.Result) {
    && WorldAdvanced(c, r.conn)
    && r.rows == (if r.event.Some? then Written(rows, r.event.value) else rows)
    && (r.event.Some? ==>
          var e := r.event.value;
          && e.conn == id && Justified(rows, e) && e.account == r.conn.accountId && r.conn.state.Authenticated?
          && (e.WorldAccepted? || e.LoginTicketSet?))
    && (!c.state.Authenticated? && r.conn.state.Authenticated? <==> r.event.Some? && r.event.value.WorldAccepted?)
    && (!r.conn.state.Authenticated? ==> r.conn.accountId == c.accountId)
  }

  lemma WorldStepFacts(id: nat, c: W.Conn, rows: Table, p: W.Request, random32: u32, commit: Commit)
    ensures WorldFacts(id, c, rows, W.Step(id, c, rows, p, random32, commit))
  {
  }

  // ---------------------------------------------------------------------------------------------
  // Nobody gets in without a password
  // ---------------------------------------------------------------------------------------------

  ghost predicate Authorised(log: seq<Event>, account: u32) {
    exists i :: 0 <= i < |log| && log[i].PasswordAccepted? && log[i].account == account
  }

  /** Whatever the servers accepted or wrote was for an account with an earlier password login. */
  ghost predicate Grounded(log: seq<Event>) {
    forall i :: 0 <= i < |log| && !log[i].PasswordAccepted? ==> Authorised(log[..i], log[i].account)
  }

  ghost predicate AllAuthorised(s: System) {
    && (forall account <- s.rows :: Authorised(s.log, account))
    && (forall id <- s.login :: s.login[id].state.LoggedIn() ==> Authorised(s.log, s.login[id].accountId))
    && (forall id <- s.world :: s.world[id].state.Authenticated? ==> Authorised(s.log, s.world[id].accountId))
  }

  lemma AuthorisedGrows(log: seq<Event>, e: Option<Event>, account: u32)
    requires Authorised(log, account) || (e.Some? && e.value.PasswordAccepted? && e.value.account == account)
    ensures Authorised(Logged(log, e), account)
  {
    var after := Logged(log, e);
    if Authorised(log, account) {
      var i :| 0 <= i < |log| && log[i].PasswordAccepted? && log[i].account == account;
      assert after[i] == log[i];
    } else {
      assert after[|log|] == e.value;
    }
  }

  lemma GroundedGrows(log: seq<Event>, e: Option<Event>)
    requires Grounded(log)
    requires e.Some? && !e.value.PasswordAccepted? ==> Authorised(log, e.value.account)
    ensures Grounded(Logged(log, e))
  {
    var after := Logged(log, e);
    forall i | 0 <= i < |after| && !after[i].PasswordAccepted? ensures Authorised(after[..i], after[i].account) {
      if i < |log| {
        assert after[..i] == log[..i] && after[i] == log[i];
      } else {
        assert after[..i] == log;
      }
    }
  }

  lemma LoginKeepsAuthorised(s: System, id: nat, r: L.Result)
    requires AllAuthorised(s) && Grounded(s.log)
    requires id in s.login && LoginFacts(id, s.login[id], s.rows, r)
    ensures AllAuthorised(AfterLogin(s, id, r)) && Grounded(AfterLogin(s, id, r).log)
  {
    GroundedGrows(s.log, r.event);
    var log := Logged(s.log, r.event);
    forall account | Authorised(s.log, account) ensures Authorised(log, account) {
      AuthorisedGrows(s.log, r.event, account);
    }
    if r.conn.state.LoggedIn() {
      AuthorisedGrows(s.log, r.event, r.conn.accountId);
    }
  }

  lemma WorldKeepsAuthorised(s: System, id: nat, r: W.Result)
    requires AllAuthorised(s) && Grounded(s.log)
    requires id in s.world && WorldFacts(id, s.world[id], s.rows, r)
    ensures AllAuthorised(AfterWorld(s, id, r)) && Grounded(AfterWorld(s, id, r).log)
  {
    GroundedGrows(s.log, r.event);
    var log := Logged(s.log, r.event);
    forall account | Authorised(s.log, account) ensures Authorised(log, account) {
      AuthorisedGrows(s.log, r.event, account);
    }
  }

  lemma StepAuthorised(s: System, l: Label)
    requires AllAuthorised(s) && Grounded(s.log)
    ensures AllAuthorised(Next(s, l)) && Grounded(Next(s, l).log)
  {
    match l {
      case LoginPacket(id, p, met) =>
        if id in s.login {
          LoginStepFacts(id, s.login[id], s.rows, p, met);
          LoginKeepsAuthorised(s, id, L.Step(id, s.login[id], s.rows, p, met));
        }
      case WorldPacket(id, p, random32, commit) =>
        if id in s.world {
          WorldStepFacts(id, s.world[id], s.rows, p, random32, commit);
          WorldKeepsAuthorised(s, id, W.Step(id, s.world[id], s.rows, p, random32, commit));
        }
      case _ =>
    }
  }

  /** However many reconnections lie between: an account a connection acts for, or that has tickets,
      had its password accepted, and so had every account in the history before it was accepted. */
  lemma {:induction false} RunAuthorised(s: System, labels: seq<Label>)
    requires AllAuthorised(s) && Grounded(s.log)
    ensures AllAuthorised(Run(s, labels)) && Grounded(Run(s, labels).log)
    decreases |labels|
  {
    if labels != [] {
      StepAuthorised(s, labels[0]);
      RunAuthorised(Next(s, labels[0]), labels[1..]);
    }
  }

  lemma NobodyWithoutPassword(labels: seq<Label>)
    ensures var s := Run(START, labels);
      && (forall account <- s.rows :: Authorised(s.log, account))
      && (forall id <- s.login :: s.login[id].state.LoggedIn() ==> Authorised(s.log, s.login[id].accountId))
      && (forall id <- s.world :: s.world[id].state.Authenticated? ==> Authorised(s.log, s.world[id].accountId))
      && Grounded(s.log)
  {
    RunAuthorised(START, labels);
  }

  // ---------------------------------------------------------------------------------------------
  // The table is its history
  // ---------------------------------------------------------------------------------------------

  function Replay(log: seq<Event>): Table {
    if log == [] then map[] else Written(Replay(log[..|log| - 1]), log[|log| - 1])
  }

  /** Every acceptance was decided by the table as it stood. */
  ghost predicate Decided(log: seq<Event>) {
    forall i :: 0 <= i < |log| ==> Justified(Replay(log[..i]), log[i])
  }

  ghost predicate Historical(s: System) {
    s.rows == Replay(s.log) && Decided(s.log)
  }

  lemma DecidedGrows(log: seq<Event>, e: Event)
    requires Decided(log)
    requires Justified(Replay(log), e)
    ensures Decided(log + [e]) && Replay(log + [e]) == Written(Replay(log), e)
  {
    var after := log + [e];
    assert after[..|log|] == log;
    assert forall i | 0 <= i < |log| :: after[..i] == log[..i] && after[i] == log[i];
  }

  lemma HistoryGrows(s: System, rows: Table, e: Option<Event>)
    requires Historical(s)
    requires rows == if e.Some? then Written(s.rows, e.value) else s.rows
    requires e.Some? ==> Justified(s.rows, e.value)
    ensures rows == Replay(Logged(s.log, e)) && Decided(Logged(s.log, e))
  {
    if e.Some? {
      DecidedGrows(s.log, e.value);
    }
  }

  lemma StepHistorical(s: System, l: Label)
    requires Historical(s)
    ensures Historical(Next(s, l))
  {
    match l {
      case LoginPacket(id, p, met) =>
        if id in s.login {
          LoginStepFacts(id, s.login[id], s.rows, p, met);
          var r := L.Step(id, s.login[id], s.rows, p, met);
          HistoryGrows(s, r.rows, r.event);
        }
      case WorldPacket(id, p, random32, commit) =>
        if id in s.world {
          WorldStepFacts(id, s.world[id], s.rows, p, random32, commit);
          var r := W.Step(id, s.world[id], s.rows, p, random32, commit);
          HistoryGrows(s, r.rows, r.event);
        }
      case _ =>
    }
  }

  lemma {:induction false} RunHistorical(s: System, labels: seq<Label>)
    requires Historical(s)
    ensures Historical(Run(s, labels))
    decreases |labels|
  {
    if labels != [] {
      StepHistorical(s, labels[0]);
      RunHistorical(Next(s, labels[0]), labels[1..]);
    }
  }

  predicate Sets(e: Event, account: u32) {
    e.TicketsSet? && e.account == account
  }

  predicate SetsLogin(e: Event, account: u32) {
    (e.TicketsSet? || e.LoginTicketSet?) && e.account == account
  }

  /** `i` is the last place in `log` where `kind` holds for the account. */
  ghost predicate Last(log: seq<Event>, i: nat, account: u32, kind: (Event, u32) -> bool) {
    i < |log| && kind(log[i], account) && forall j :: i < j < |log| ==> !kind(log[j], account)
  }

  /** A row of the replayed table: its server and world ticket come from the last `SetTickets` for
      the account, its login ticket from the last `SetTickets` or `SetLoginTicket`. */
  lemma {:induction false} ReplayReadsLastWrites(log: seq<Event>, account: u32) returns (i: nat, k: nat)
    requires account in Replay(log)
    ensures Last(log, i, account, Sets) && Last(log, k, account, SetsLogin) && i <= k
    ensures Replay(log)[account] == Row(log[k].loginTicket, log[i].worldTicket, log[i].worldId)
    decreases |log|
  {
    var n := |log| - 1;
    var e := log[n];
    if Sets(e, account) {
      i, k := n, n;
    } else {
      i, k := ReplayReadsLastWrites(log[..n], account);
      if SetsLogin(e, account) { k := n; }
    }
  }

  /** Without a `SetTickets` there is no row. */
  lemma {:induction false} NoSetNoRow(log: seq<Event>, account: u32)
    requires forall j :: 0 <= j < |log| ==> !Sets(log[j], account)
    ensures account !in Replay(log)
    decreases |log|
  {
    if log != [] {
      NoSetNoRow(log[..|log| - 1], account);
    }
  }

  /** In every run each world acceptance matches the last writes before it. */
  lemma AcceptedTicketsAreLastWritten(labels: seq<Label>, n: nat)
    requires n < |Run(START, labels).log| && Run(START, labels).log[n].WorldAccepted?
    ensures var log := Run(START, labels).log;
      var e := log[n];
      exists i: nat, k: nat ::
        && i <= k < n
        && Last(log[..n], i, e.account, Sets) && Last(log[..n], k, e.account, SetsLogin)
        && log[i].worldTicket == e.worldTicket && log[i].worldId == e.worldId
        && log[k].loginTicket == e.loginTicket
  {
    RunHistorical(START, labels);
    var log := Run(START, labels).log;
    var i, k := ReplayReadsLastWrites(log[..n], log[n].account);
    assert log[..n][i] == log[i] && log[..n][k] == log[k];
  }

  lemma TableIsReplay(labels: seq<Label>)
    ensures Run(START, labels).rows == Replay(Run(START, labels).log)
  {
    RunHistorical(START, labels);
  }

  lemma {:induction false} SetMakesRow(log: seq<Event>, account: u32, i: nat)
    requires i < |log| && Sets(log[i], account)
    ensures account in Replay(log)
    decreases |log|
  {
    if i < |log| - 1 {
      SetMakesRow(log[..|log| - 1], account, i);
    }
  }

  /** The tickets were put together by the last writes for the account. */
  ghost predicate LastWritten(log: seq<Event>, account: u32, loginTicket: u32, worldTicket: u64, worldId: byte) {
    exists i: nat, k: nat ::
      && Last(log, i, account, Sets) && Last(log, k, account, SetsLogin)
      && log[i].worldTicket == worldTicket && log[i].worldId == worldId && log[k].loginTicket == loginTicket
  }

  lemma LastIsUnique(log: seq<Event>, account: u32, kind: (Event, u32) -> bool, i: nat, j: nat)
    requires Last(log, i, account, kind) && Last(log, j, account, kind)
    ensures i == j
  {
  }

  /** At every point of every run, a triple is good for an account if and only if its world ticket and
      server come from the last `SetTickets` for the account and its login ticket from the last
      `SetTickets` or `SetLoginTicket`: so one triple at most. */
  lemma ValidatesIffLastWritten(labels: seq<Label>, account: u32, loginTicket: u32, worldTicket: u64, worldId: byte)
    ensures var s := Run(START, labels);
      HoldsTriple(s.rows, account, loginTicket, worldTicket, worldId)
      <==> LastWritten(s.log, account, loginTicket, worldTicket, worldId)
  {
    RunHistorical(START, labels);
    var log := Run(START, labels).log;
    if account in Replay(log) {
      var i, k := ReplayReadsLastWrites(log, account);
      forall j: nat | Last(log, j, account, Sets) ensures j == i { LastIsUnique(log, account, Sets, i, j); }
      forall j: nat | Last(log, j, account, SetsLogin) ensures j == k { LastIsUnique(log, account, SetsLogin, k, j); }
    } else {
      forall i: nat ensures !Last(log, i, account, Sets) {
        if i < |log| && Sets(log[i], account) { SetMakesRow(log, account, i); }
      }
    }
  }

  // ---------------------------------------------------------------------------------------------
  // The life of one connection
  // ---------------------------------------------------------------------------------------------

  predicate Stores(e: Event, id: nat) {
    e.TicketsSet? && e.known && e.conn == id
  }

  /** How often a connection appears in the history as the one that stored tickets, and knew it. */
  function CountSets(log: seq<Event>, id: nat): nat {
    if log == [] then 0
    else CountSets(log[..|log| - 1], id) + if Stores(log[|log| - 1], id) then 1 else 0
  }

  ghost predicate Identified(s: System) {
    && 0 !in s.rows
    && (forall id <- s.login ::
          && s.login[id].state.Rank() >= 1
          && (s.login[id].accountId != 0 <==> s.login[id].state.LoggedIn())
          && CountSets(s.log, id) == if s.login[id].state.ServerSelected? then 1 else 0)
    && (forall id: nat | id !in s.login :: CountSets(s.log, id) == 0)
    && (forall id <- s.world :: s.world[id].accountId != 0 <==> s.world[id].state.Authenticated?)
  }

  lemma CountSetsGrows(log: seq<Event>, e: Option<Event>, id: nat)
    ensures CountSets(Logged(log, e), id)
         == CountSets(log, id) + if e.Some? && Stores(e.value, id) then 1 else 0
  {
    if e.Some? {
      assert (log + [e.value])[..|log|] == log;
    }
  }

  lemma LoginKeepsIdentified(s: System, id: nat, r: L.Result)
    requires Identified(s)
    requires id in s.login && LoginFacts(id, s.login[id], s.rows, r)
    ensures Identified(AfterLogin(s, id, r))
  {
    forall k: nat { CountSetsGrows(s.log, r.event, k); }
  }

  lemma WorldKeepsIdentified(s: System, id: nat, r: W.Result)
    requires Identified(s)
    requires id in s.world && WorldFacts(id, s.world[id], s.rows, r)
    ensures Identified(AfterWorld(s, id, r))
  {
    forall k: nat { CountSetsGrows(s.log, r.event, k); }
  }

  lemma LoginEntryIdentified(s: System, id: nat, c: L.Conn)
    requires Identified(s)
    requires if id in s.login then c == s.login[id].(open := c.open) else c == L.Accepted(c.sessionId)
    ensures Identified(s.(login := s.login[id := c]))
  {
  }

  lemma WorldEntryIdentified(s: System, id: nat, c: W.Conn)
    requires Identified(s) && (c.accountId != 0 <==> c.state.Authenticated?)
    ensures Identified(s.(world := s.world[id := c]))
  {
  }

  lemma QuietStepIdentified(s: System, l: Label)
    requires Identified(s) && !l.LoginPacket? && !l.WorldPacket?
    ensures Identified(Next(s, l))
  {
    match l {
      case LoginAccept(id, sessionId) => if id !in s.login { LoginEntryIdentified(s, id, L.Accepted(sessionId)); }
      case LoginSent(id) => if id in s.login { LoginEntryIdentified(s, id, s.login[id].(open := false)); }
      case LoginLost(id) => if id in s.login { LoginEntryIdentified(s, id, s.login[id].(open := false)); }
      case WorldAccept(id, serverId) => WorldEntryIdentified(s, id, W.Accepted(serverId));
      case WorldSent(id) => if id in s.world { WorldEntryIdentified(s, id, s.world[id].(open := false)); }
      case WorldLost(id) => if id in s.world { WorldEntryIdentified(s, id, s.world[id].(open := false)); }
    }
  }

  lemma StepIdentified(s: System, l: Label)
    requires Identified(s)
    ensures Identified(Next(s, l))
  {
    match l {
      case LoginPacket(id, p, met) =>
        if id in s.login {
          LoginStepFacts(id, s.login[id], s.rows, p, met);
          LoginKeepsIdentified(s, id, L.Step(id, s.login[id], s.rows, p, met));
        }
      case WorldPacket(id, p, random32, commit) =>
        if id in s.world {
          WorldStepFacts(id, s.world[id], s.rows, p, random32, commit);
          WorldKeepsIdentified(s, id, W.Step(id, s.world[id], s.rows, p, random32, commit));
        }
      case _ => QuietStepIdentified(s, l);
    }
  }

  lemma {:induction false} RunIdentified(s: System, labels: seq<Label>)
    requires Identified(s)
    ensures Identified(Run(s, labels))
    decreases |labels|
  {
    if labels != [] {
      StepIdentified(s, labels[0]);
      RunIdentified(Next(s, labels[0]), labels[1..]);
    }
  }

  ghost predicate SystemAdvanced(s: System, t: System) {
    && (forall id <- s.login :: id in t.login && Advanced(s.login[id], t.login[id]))
    && (forall id <- s.world :: id in t.world && WorldAdvanced(s.world[id], t.world[id]))
    && (forall account <- s.rows :: account in t.rows)
    && s.log <= t.log
  }

  lemma QuietStepAdvances(s: System, l: Label)
    requires !l.LoginPacket? && !l.WorldPacket?
    ensures SystemAdvanced(s, Next(s, l))
  {
  }

  lemma StepAdvances(s: System, l: Label)
    ensures SystemAdvanced(s, Next(s, l))
  {
    match l {
      case LoginPacket(id, p, met) =>
        if id in s.login { LoginStepFacts(id, s.login[id], s.rows, p, met); }
      case WorldPacket(id, p, random32, commit) =>
        if id in s.world { WorldStepFacts(id, s.world[id], s.rows, p, random32, commit); }
      case _ => QuietStepAdvances(s, l);
    }
  }

  lemma AdvancesCompose(s: System, t: System, u: System)
    requires SystemAdvanced(s, t) && SystemAdvanced(t, u)
    ensures SystemAdvanced(s, u)
  {
    forall id | id in s.login ensures id in u.login && Advanced(s.login[id], u.login[id]) {
      assert id in t.login;
    }
    forall id | id in s.world ensures id in u.world && WorldAdvanced(s.world[id], u.world[id]) {
      assert id in t.world;
    }
    forall account | account in s.rows ensures account in u.rows {
      assert account in t.rows;
    }
  }

  lemma {:induction false} RunAdvances(s: System, labels: seq<Label>)
    ensures SystemAdvanced(s, Run(s, labels))
    decreases |labels|
  {
    if labels != [] {
      StepAdvances(s, labels[0]);
      RunAdvances(Next(s, labels[0]), labels[1..]);
      AdvancesCompose(s, Next(s, labels[0]), Run(s, labels));
    }
  }

  /** At every point of every run, and at every later point: a login connection never goes back, has
      an account id exactly once it is logged in, keeps that id and ticket, and stores tickets once
      at most: exactly when it has selected a server. A shutdown still pending changes none of this. */
  lemma ConnectionLife(labels: seq<Label>, more: seq<Label>, id: nat)
    requires id in Run(START, labels).login
    ensures var s := Run(START, labels);
      var t := Run(s, more);
      && id in t.login
      && Advanced(s.login[id], t.login[id])
      && (t.login[id].accountId != 0 <==> t.login[id].state.LoggedIn())
      && CountSets(t.log, id) == (if t.login[id].state.ServerSelected? then 1 else 0)
  {
    RunIdentified(START, labels);
    RunAdvances(Run(START, labels), more);
    assert SystemAdvanced(Run(START, labels), Run(Run(START, labels), more));
    RunIdentified(Run(START, labels), more);
  }
}
