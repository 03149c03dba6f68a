/** The `tickets` table both servers share: one row for an account at most. */
module Tickets {
  import opened Common

  datatype Row = Row(loginTicket: u32, worldTicket: u64, worldId: byte)

  type Table = map<u32, Row>

  predicate HoldsLogin(rows: Table, account: u32, loginTicket: u32) {
    account in rows && rows[account].loginTicket == loginTicket
  }

  predicate HoldsTriple(rows: Table, account: u32, loginTicket: u32, worldTicket: u64, worldId: byte) {
    account in rows && rows[account] == Row(loginTicket, worldTicket, worldId)
  }

  /** INSERT ... ON CONFLICT (account_id) DO UPDATE. */
  function Upsert(rows: Table, account: u32, row: Row): Table {
    rows[account := row]
  }

  /** UPDATE tickets SET login_ticket: touches nothing when the account has no row. */
  function Retarget(rows: Table, account: u32, loginTicket: u32): Table {
    if account in rows then rows[account := rows[account].(loginTicket := loginTicket)] else rows
  }

  /** How a write ends: it is done; an exception came before it took effect; or it took effect and an
      exception came after all, from the commit or behind it. */
  datatype Commit = Done | Refused | InDoubt

  /** Both TicketsDAO classes. `fails` says that the database raised an exception. */
  class TicketsDAO {
    var rows: Table

    constructor ()
      ensures rows == map[]
    {
      rows := map[];
    }

    method SetTickets(account: u32, loginTicket: u32, worldTicket: u64, worldId: byte, commit: Commit)
      returns (result: bool)
      modifies this
      ensures result == commit.Done?
      ensures rows ==
        if commit.Refused? then old(rows) else Upsert(old(rows), account, Row(loginTicket, worldTicket, worldId))
    {
      result := false;
      if !commit.Refused? {
        rows := rows[account := Row(loginTicket, worldTicket, worldId)];
        result := commit.Done?;
      }
    }

    method ValidateLoginTicket(account: u32, loginTicket: u32, fails: bool) returns (result: bool)
      ensures result <==> !fails && HoldsLogin(rows, account, loginTicket)
    {
      result := false;
      if !fails {
        var count := if account in rows && rows[account].loginTicket == loginTicket then 1 else 0;
        result := count == 1;
      }
    }

    method ValidateTickets(account: u32, loginTicket: u32, worldTicket: u64, worldId: byte, fails: bool)
      returns (result: bool)
      ensures result <==> !fails && HoldsTriple(rows, account, loginTicket, worldTicket, worldId)
    {
      result := false;
      if !fails && account in rows {
        var row := rows[account];
        result := row.loginTicket == loginTicket && row.worldTicket == worldTicket && row.worldId == worldId;
      }
    }

    method SetLoginTicket(account: u32, loginTicket: u32, commit: Commit) returns (result: bool)
      modifies this
      ensures result <==> commit.Done? && account in old(rows)
      ensures rows == if commit.Refused? then old(rows) else Retarget(old(rows), account, loginTicket)
    {
      result := false;
      if !commit.Refused? {
        var affected := if account in rows then 1 else 0;
        if affected == 1 {
          rows := rows[account := rows[account].(loginTicket := loginTicket)];
          result := commit.Done?;
        }
      }
    }
  }

  /** What either server did to the table, or accepted because of it, in order. A write that took effect
      is `known` unless an exception kept the server from learning of it. */
  datatype Event =
    | PasswordAccepted(conn: nat, account: u32)
    | TicketsSet(conn: nat, account: u32, loginTicket: u32, worldTicket: u64, worldId: byte, known: bool)
    | Reconnected(conn: nat, account: u32, loginTicket: u32)
    | WorldAccepted(conn: nat, account: u32, loginTicket: u32, worldTicket: u64, worldId: byte)
    | LoginTicketSet(conn: nat, account: u32, loginTicket: u32, known: bool)
}
