/**
 * The server's SQLite tables (server-db.js): `tickets`, keyed by serial with
 * a UNIQUE token, and `users`, keyed by id with a UNIQUE email. Each table
 * is a map from its primary key to its row; the SQL statements become
 * methods of `ServerDb`, each tied by its postcondition to a pure function
 * on the map, and the table properties are lemmas about those functions.
 *
 * A JavaScript `||` fallback treats `null`, `undefined` and `""` alike as
 * absent: an optional text is `None` or `Some(s)`, and it counts as present
 * only when `s` is not empty.
 */
module ServerDb {
  import opened Tickets

  /** A row of the `tickets` table. `status` is free TEXT: the schema has no CHECK on it. */
  datatype Row = Row(
    serial: string,
    token: string,
    ticketTypeName: string,
    price: int,
    status: string,
    stubColor: Option<string>,
    printBatchId: Option<string>,
    usedAt: Option<string>,
    usedByDevice: Option<string>,
    createdAt: string,
    updatedAt: string)

  /** The fields of a ticket object `insertTickets` reads; `usedAt` and `usedByDevice` are not among them. */
  datatype TicketInput = TicketInput(
    serial: string,
    token: string,
    ticketTypeName: string,
    price: int,
    status: Option<string>,
    stubColor: Option<string>,
    printBatchId: Option<string>,
    createdAt: Option<string>)

  /** The fields `updateTicket` reads from its `updates` argument. */
  datatype StatusUpdate = StatusUpdate(status: Option<string>, usedAt: Option<string>, usedByDevice: Option<string>)

  datatype Stats = Stats(total: nat, used: nat, sold: nat, unsold: nat)

  datatype User = User(id: string, email: string, password: string, name: Option<string>,
                       role: string, createdAt: string, updatedAt: string)

  const DefaultStubColor := "#F3F1EC"

  /** JavaScript truthiness of an optional text. */
  predicate Truthy(o: Option<string>)
  {
    o.Some? && o.value != ""
  }

  /** `a || d` with a text default. */
  function OrElse(a: Option<string>, d: string): (r: string)
    ensures Truthy(a) ==> r == a.value
    ensures !Truthy(a) ==> r == d
  {
    if Truthy(a) then a.value else d
  }

  /** `a || b` where `b` may itself be absent (`null`). */
  function OrElseOpt(a: Option<string>, b: Option<string>): (r: Option<string>)
    ensures Truthy(a) ==> r == a
    ensures !Truthy(a) ==> r == b
  {
    if Truthy(a) then a else b
  }

  // -------------------------------------------------------------- insert

  /** The row `insertTickets` writes for one input at clock reading `now`, with its defaults. */
  function NewRow(t: TicketInput, now: string): (r: Row)
    ensures r.serial == t.serial && r.token == t.token
    ensures r.status == (if Truthy(t.status) then t.status.value else "SOLD")
    ensures r.stubColor == Some(if Truthy(t.stubColor) then t.stubColor.value else DefaultStubColor)
    ensures r.printBatchId == (if Truthy(t.printBatchId) then t.printBatchId else None)
    ensures r.createdAt == (if Truthy(t.createdAt) then t.createdAt.value else now) && r.updatedAt == now
    ensures r.usedAt.None? && r.usedByDevice.None?
  {
    Row(t.serial, t.token, t.ticketTypeName, t.price,
        OrElse(t.status, "SOLD"),
        Some(OrElse(t.stubColor, DefaultStubColor)),
        OrElseOpt(t.printBatchId, None),
        None, None,
        OrElse(t.createdAt, now),
        now)
  }

  /**
   * INSERT OR REPLACE: every row that would clash with the new one, on the
   * primary key or on the UNIQUE token, is deleted, then the row is inserted.
   */
  function Insert(rows: map<string, Row>, t: TicketInput, now: string): map<string, Row>
  {
    (map k | k in rows && k != t.serial && rows[k].token != t.token :: rows[k])[t.serial := NewRow(t, now)]
  }

  /** The `insertMany` transaction: the inputs in order, input `i` at clock reading `now(i)`. */
  function InsertAll(rows: map<string, Row>, ts: seq<TicketInput>, now: nat -> string): map<string, Row>
  {
    if ts == [] then rows
    else Insert(InsertAll(rows, ts[..|ts| - 1], now), ts[|ts| - 1], now(|ts| - 1))
  }

  /** The table's constraints: each row is stored under its own serial, and no two rows share a token. */
  predicate Valid(rows: map<string, Row>)
  {
    && (forall k :: k in rows ==> rows[k].serial == k)
    && (forall k1, k2 :: k1 in rows && k2 in rows && k1 != k2 ==> rows[k1].token != rows[k2].token)
  }

  /** One INSERT OR REPLACE: the new row is in, clashing rows are gone, every other row is unchanged. */
  lemma InsertEffect(rows: map<string, Row>, t: TicketInput, now: string)
    ensures t.serial in Insert(rows, t, now) && Insert(rows, t, now)[t.serial] == NewRow(t, now)
    ensures forall k :: k != t.serial ==>
      (k in Insert(rows, t, now) <==> k in rows && rows[k].token != t.token)
    ensures forall k :: k in Insert(rows, t, now) && k != t.serial ==> Insert(rows, t, now)[k] == rows[k]
  {
  }

  lemma InsertValid(rows: map<string, Row>, t: TicketInput, now: string)
    requires Valid(rows)
    ensures Valid(Insert(rows, t, now))
  {
    var r := Insert(rows, t, now);
    forall k1, k2 | k1 in r && k2 in r && k1 != k2 ensures r[k1].token != r[k2].token {
      if k1 != t.serial && k2 != t.serial {
        assert r[k1] == rows[k1] && r[k2] == rows[k2];
      }
    }
  }

  lemma {:induction false} InsertAllValid(rows: map<string, Row>, ts: seq<TicketInput>, now: nat -> string)
    requires Valid(rows)
    ensures Valid(InsertAll(rows, ts, now))
  {
    if ts != [] {
      InsertAllValid(rows, ts[..|ts| - 1], now);
      InsertValid(InsertAll(rows, ts[..|ts| - 1], now), ts[|ts| - 1], now(|ts| - 1));
    }
  }

  /**
   * Last write wins: after the transaction, the row of an input's serial is
   * the one built from that input, when no later input carries the same
   * serial or the same token (either would replace it).
   */
  lemma {:induction false} LastWins(rows: map<string, Row>, ts: seq<TicketInput>, now: nat -> string, j: nat)
    requires j < |ts|
    requires forall j' :: j < j' < |ts| ==> ts[j'].serial != ts[j].serial && ts[j'].token != ts[j].token
    ensures ts[j].serial in InsertAll(rows, ts, now)
    ensures InsertAll(rows, ts, now)[ts[j].serial] == NewRow(ts[j], now(j))
  {
    var init := ts[..|ts| - 1];
    var before := InsertAll(rows, init, now);
    InsertEffect(before, ts[|ts| - 1], now(|ts| - 1));
    if j < |ts| - 1 {
      assert forall j' :: j < j' < |init| ==> init[j'] == ts[j'];
      LastWins(rows, init, now, j);
      assert init[j] == ts[j];
    }
  }

  /** A row whose serial and token no input carries survives the transaction unchanged. */
  lemma {:induction false} UnrelatedRowsKept(rows: map<string, Row>, ts: seq<TicketInput>, now: nat -> string, k: string)
    requires k in rows
    requires forall j :: 0 <= j < |ts| ==> ts[j].serial != k && ts[j].token != rows[k].token
    ensures k in InsertAll(rows, ts, now) && InsertAll(rows, ts, now)[k] == rows[k]
  {
    if ts != [] {
      var init := ts[..|ts| - 1];
      UnrelatedRowsKept(rows, init, now, k);
      InsertEffect(InsertAll(rows, init, now), ts[|ts| - 1], now(|ts| - 1));
    }
  }

  /**
   * The INSERT names no `usedAt` or `usedByDevice` column: every row the
   * transaction leaves has them null, or was there before, untouched.
   */
  lemma {:induction false} InsertClearsUse(rows: map<string, Row>, ts: seq<TicketInput>, now: nat -> string)
    ensures forall k :: k in InsertAll(rows, ts, now) ==>
      (k in rows && InsertAll(rows, ts, now)[k] == rows[k]) ||
      (InsertAll(rows, ts, now)[k].usedAt.None? && InsertAll(rows, ts, now)[k].usedByDevice.None?)
  {
    if ts != [] {
      var init := ts[..|ts| - 1];
      InsertClearsUse(rows, init, now);
      InsertEffect(InsertAll(rows, init, now), ts[|ts| - 1], now(|ts| - 1));
    }
  }

  /** `insertTickets` reports the input length, which overcounts the rows when serials repeat. */
  lemma RepeatedSerialOvercounts(t: TicketInput, now: nat -> string)
    ensures |InsertAll(map[], [t, t], now)| == 1
  {
    assert [t, t][..1] == [t];
    assert [t][..0] == [];
    var once := InsertAll(map[], [t], now);
    assert once == Insert(InsertAll(map[], [t][..0], now), t, now(0));
    assert InsertAll(map[], [], now) == map[];
    InsertEffect(map[], t, now(0));
    assert once.Keys == {t.serial};
    InsertEffect(once, t, now(1));
    assert InsertAll(map[], [t, t], now).Keys == {t.serial};
  }

  // -------------------------------------------------------------- update

  /** The single-row UPDATE of `updateTicket`: each of the three fields keeps its old value unless the update's is truthy. */
  function UpdateRow(row: Row, u: StatusUpdate, now: string): Row
  {
    row.(status := OrElse(u.status, row.status),
         usedAt := OrElseOpt(u.usedAt, row.usedAt),
         usedByDevice := OrElseOpt(u.usedByDevice, row.usedByDevice),
         updatedAt := now)
  }

  /** Only status, use time, device and `updatedAt` can change; every other column is kept. */
  lemma UpdateRowKeeps(row: Row, u: StatusUpdate, now: string)
    ensures var r := UpdateRow(row, u, now);
      && r.serial == row.serial && r.token == row.token && r.ticketTypeName == row.ticketTypeName
      && r.price == row.price && r.stubColor == row.stubColor && r.printBatchId == row.printBatchId
      && r.createdAt == row.createdAt && r.updatedAt == now
      && (!Truthy(u.status) ==> r.status == row.status)
      && (Truthy(u.status) ==> r.status == u.status.value)
  {
  }

  /** The `||` fallback means a recorded use can never be cleared by `updateTicket`. */
  lemma UseCannotBeCleared(row: Row, u: StatusUpdate, now: string)
    requires row.usedAt.Some? && row.usedByDevice.Some?
    ensures UpdateRow(row, u, now).usedAt.Some? && UpdateRow(row, u, now).usedByDevice.Some?
  {
  }

  /** No transition is checked: a USED row is turned back to SOLD when asked to. */
  lemma UpdateAcceptsAnyTransition(row: Row, now: string)
    requires row.status == "USED"
    ensures UpdateRow(row, StatusUpdate(Some("SOLD"), None, None), now).status == "SOLD"
  {
  }

  // --------------------------------------------------------------- stats

  /** The serials of the rows with the given status. */
  function WithStatus(rows: map<string, Row>, status: string): set<string>
  {
    set k | k in rows && rows[k].status == status
  }

  function CountStatus(rows: map<string, Row>, status: string): nat
  {
    |WithStatus(rows, status)|
  }

  /** `getStats`: the row count and the three status counts. */
  function StatsOf(rows: map<string, Row>): Stats
  {
    Stats(|rows|, CountStatus(rows, "USED"), CountStatus(rows, "SOLD"), CountStatus(rows, "UNSOLD"))
  }

  predicate KnownStatus(s: string)
  {
    s == "UNSOLD" || s == "SOLD" || s == "USED"
  }

  lemma StatusLiteralsDiffer()
    ensures "SOLD" != "UNSOLD" && "SOLD" != "USED" && "USED" != "UNSOLD"
  {
    assert "SOLD"[1] != "USED"[1];
  }

  /** When every status is one of the enum's values the three counts add up to the total. */
  lemma StatsPartition(rows: map<string, Row>)
    requires forall k :: k in rows ==> KnownStatus(rows[k].status)
    ensures StatsOf(rows).total == StatsOf(rows).used + StatsOf(rows).sold + StatsOf(rows).unsold
  {
    StatusLiteralsDiffer();
    CountsPartition(rows, "USED", "SOLD", "UNSOLD");
  }

  lemma DisjointUnionCard(x: set<string>, y: set<string>)
    requires x !! y
    ensures |x + y| == |x| + |y|
  {
  }

  /** Rows whose statuses take three distinct values split into the three counts. */
  lemma CountsPartition(rows: map<string, Row>, a: string, b: string, c: string)
    requires a != b && b != c && a != c
    requires forall k :: k in rows ==> rows[k].status == a || rows[k].status == b || rows[k].status == c
    ensures |rows| == CountStatus(rows, a) + CountStatus(rows, b) + CountStatus(rows, c)
  {
    var sa, sb, sc := WithStatus(rows, a), WithStatus(rows, b), WithStatus(rows, c);
    StatusSetsDisjoint(rows, a, b);
    StatusSetsDisjoint(rows, a, c);
    StatusSetsDisjoint(rows, b, c);
    DisjointUnionCard(sa, sb);
    DisjointUnionCard(sa + sb, sc);
    assert rows.Keys == sa + sb + sc;
  }

  lemma StatusSetsDisjoint(rows: map<string, Row>, a: string, b: string)
    requires a != b
    ensures WithStatus(rows, a) !! WithStatus(rows, b)
  {
  }

  /** Without that premise the counts can fall short of the total: a status outside the enum is counted nowhere. */
  lemma UnknownStatusUncounted(r: Row)
    requires !KnownStatus(r.status)
    ensures StatsOf(map[r.serial := r]).total == 1
    ensures StatsOf(map[r.serial := r]).used + StatsOf(map[r.serial := r]).sold + StatsOf(map[r.serial := r]).unsold == 0
  {
    var m := map[r.serial := r];
    assert (set k | k in m && m[k].status == "USED") == {};
    assert (set k | k in m && m[k].status == "SOLD") == {};
    assert (set k | k in m && m[k].status == "UNSOLD") == {};
  }

  // --------------------------------------------------------------- users

  /** The row `createUser` inserts, with `name || null` and `role || 'admin'`. */
  function NewUser(id: string, email: string, password: string, name: Option<string>,
                   role: Option<string>, now: string): User
  {
    User(id, email, password, OrElseOpt(name, None), OrElse(role, "admin"), now, now)
  }

  predicate UsersValid(users: map<string, User>)
  {
    && (forall k :: k in users ==> users[k].id == k)
    && (forall k1, k2 :: k1 in users && k2 in users && k1 != k2 ==> users[k1].email != users[k2].email)
  }

  predicate EmailTaken(users: map<string, User>, email: string)
  {
    exists k :: k in users && users[k].email == email
  }

  // --------------------------------------------------------------- class

  class ServerDatabase {
    var tickets: map<string, Row>
    var users: map<string, User>

    constructor()
      ensures tickets == map[] && users == map[]
    {
      tickets := map[];
      users := map[];
    }

    /** `insertTickets`: `now(i)` is the clock reading taken for input `i`; the result is the input length. */
    method InsertTickets(ts: seq<TicketInput>, now: nat -> string) returns (count: nat)
      modifies this
      ensures tickets == InsertAll(old(tickets), ts, now) && users == old(users)
      ensures count == |ts|
      ensures Valid(old(tickets)) ==> Valid(tickets)
    {
      var i := 0;
      while i < |ts|
        invariant 0 <= i <= |ts|
        invariant tickets == InsertAll(old(tickets), ts[..i], now) && users == old(users)
      {
        assert ts[..i + 1][..i] == ts[..i];
        tickets := Insert(tickets, ts[i], now(i));
        i := i + 1;
      }
      assert ts[..|ts|] == ts;
      if Valid(old(tickets)) {
        InsertAllValid(old(tickets), ts, now);
      }
      count := |ts|;
    }

    /** `getTicket`: the row stored under the serial, if any. */
    function GetTicket(serial: string): (r: Option<Row>)
      reads this
      ensures r.Some? <==> serial in tickets
      ensures r.Some? ==> r.value == tickets[serial]
    {
      if serial in tickets then Some(tickets[serial]) else None
    }

    /** `updateTicket`: `Ticket not found` for an unknown serial; otherwise the one row is rewritten. */
    method UpdateTicket(serial: string, u: StatusUpdate, now: string) returns (r: Result<()>)
      modifies this
      ensures serial !in old(tickets) ==> r == Err("Ticket not found") && tickets == old(tickets)
      ensures serial in old(tickets) ==>
        r.Ok? && tickets == old(tickets)[serial := UpdateRow(old(tickets)[serial], u, now)]
      ensures users == old(users)
      ensures Valid(old(tickets)) ==> Valid(tickets)
    {
      if Valid(tickets) {
        UpdateDeleteValid(tickets, serial, u, now);
      }
      var ticket := GetTicket(serial);
      if ticket.None? {
        return Err("Ticket not found");
      }
      tickets := tickets[serial := UpdateRow(ticket.value, u, now)];
      r := Ok(());
    }

    /** `deleteTicket`: `Ticket not found` when no row was removed. */
    method DeleteTicket(serial: string) returns (r: Result<()>)
      modifies this
      ensures serial !in old(tickets) ==> r == Err("Ticket not found") && tickets == old(tickets)
      ensures serial in old(tickets) ==> r.Ok? && tickets == old(tickets) - {serial}
      ensures users == old(users)
      ensures Valid(old(tickets)) ==> Valid(tickets)
    {
      if serial !in tickets {
        return Err("Ticket not found");
      }
      tickets := tickets - {serial};
      r := Ok(());
    }

    method ClearAllTickets()
      modifies this
      ensures tickets == map[] && users == old(users)
    {
      tickets := map[];
    }

    function GetStats(): Stats
      reads this
    {
      StatsOf(tickets)
    }

    /**
     * `createUser`: the INSERT fails on a taken id (primary key) or a taken
     * email (UNIQUE), with SQLite's constraint message.
     */
    method CreateUser(id: string, email: string, password: string, name: Option<string>,
                      role: Option<string>, now: string) returns (r: Result<()>)
      modifies this
      ensures id in old(users) ==> r == Err("UNIQUE constraint failed: users.id") && users == old(users)
      ensures id !in old(users) && EmailTaken(old(users), email) ==>
        r == Err("UNIQUE constraint failed: users.email") && users == old(users)
      ensures id !in old(users) && !EmailTaken(old(users), email) ==>
        r.Ok? && users == old(users)[id := NewUser(id, email, password, name, role, now)]
      ensures tickets == old(tickets)
      ensures UsersValid(old(users)) ==> UsersValid(users)
    {
      if id in users {
        return Err("UNIQUE constraint failed: users.id");
      }
      if exists k :: k in users && users[k].email == email {
        return Err("UNIQUE constraint failed: users.email");
      }
      if UsersValid(users) {
        CreateUserValid(users, id, email, password, name, role, now);
      }
      users := users[id := NewUser(id, email, password, name, role, now)];
      r := Ok(());
    }
  }

  /** Creating a user keeps ids as keys and emails unique. */
  lemma CreateUserValid(users: map<string, User>, id: string, email: string, password: string,
                        name: Option<string>, role: Option<string>, now: string)
    requires UsersValid(users)
    requires id !in users && !EmailTaken(users, email)
    ensures UsersValid(users[id := NewUser(id, email, password, name, role, now)])
  {
  }

  /** Updating or deleting a row keeps the table's constraints. */
  lemma UpdateDeleteValid(rows: map<string, Row>, serial: string, u: StatusUpdate, now: string)
    requires Valid(rows)
    ensures serial in rows ==> Valid(rows[serial := UpdateRow(rows[serial], u, now)])
    ensures Valid(rows - {serial})
  {
    if serial in rows {
      var r := rows[serial := UpdateRow(rows[serial], u, now)];
      forall k1, k2 | k1 in r && k2 in r && k1 != k2 ensures r[k1].token != r[k2].token {
        assert r[k1].token == rows[k1].token && r[k2].token == rows[k2].token;
      }
    }
  }
}
