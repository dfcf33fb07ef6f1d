/**
 * The web app's server-backed database service (services/api-database.ts).
 * Every lookup first fetches the whole `tickets` table as JSON rows; here
 * that fetched list is a parameter `fetched: seq<Row>`, and the lookups,
 * the derived batch list and the counts are functions of it. The writes
 * post to the server's routes, whose effect on the server's table is the
 * corresponding `ServerDatabase` method; whether the route's auth
 * middleware accepts the request is the parameter `accepted`.
 */
module ApiDatabase {
  import opened Tickets
  import opened ServerDb
  import BrowserDatabase

  // ------------------------------------------------------------- lookups

  function RowSerial(r: Row): string { r.serial }
  function RowToken(r: Row): string { r.token }
  function RowBatch(r: Row): Option<string> { r.printBatchId }

  /** `getTicket`: the first fetched row whose serial is exactly `serial`. */
  function GetTicket(fetched: seq<Row>, serial: string): (r: Option<Row>)
    ensures r.None? <==> forall i :: 0 <= i < |fetched| ==> fetched[i].serial != serial
    ensures r.Some? ==> (exists i :: 0 <= i < |fetched| && fetched[i] == r.value && r.value.serial == serial &&
                                      forall j :: 0 <= j < i ==> fetched[j].serial != serial)
  {
    match IndexWhere(fetched, RowSerial, serial)
    case None => None
    case Some(i) => Some(fetched[i])
  }

  /** `getTicketByToken`: the first fetched row whose token is exactly `token`. */
  function GetTicketByToken(fetched: seq<Row>, token: string): (r: Option<Row>)
    ensures r.None? <==> forall i :: 0 <= i < |fetched| ==> fetched[i].token != token
    ensures r.Some? ==> (exists i :: 0 <= i < |fetched| && fetched[i] == r.value && r.value.token == token &&
                                      forall j :: 0 <= j < i ==> fetched[j].token != token)
  {
    match IndexWhere(fetched, RowToken, token)
    case None => None
    case Some(i) => Some(fetched[i])
  }

  /** `getTicketsByBatch`: the fetched rows whose `printBatchId` is `batchId`. */
  function GetTicketsByBatch(fetched: seq<Row>, batchId: string): (r: seq<Row>)
    ensures forall t :: t in r <==> t in fetched && t.printBatchId == Some(batchId)
  {
    FilterWhere(fetched, RowBatch, batchId)
  }

  /** The batch filter keeps the fetched order: it distributes over concatenation. */
  lemma TicketsByBatchInOrder(a: seq<Row>, b: seq<Row>, batchId: string)
    ensures GetTicketsByBatch(a + b, batchId) == GetTicketsByBatch(a, batchId) + GetTicketsByBatch(b, batchId)
  {
    FilterAppend(a, b, RowBatch, batchId);
  }

  // ------------------------------------------------------------- batches

  /** `tickets.map(t => t.printBatchId).filter(Boolean)`: one entry per row with a non-empty batch id. */
  function TruthyIds(rows: seq<Row>): (r: seq<string>)
    ensures |r| <= |rows|
    ensures forall x :: x in r ==> x != ""
  {
    if rows == [] then []
    else
      var last := rows[|rows| - 1];
      TruthyIds(rows[..|rows| - 1]) + (if Truthy(last.printBatchId) then [last.printBatchId.value] else [])
  }

  /** The index of the first occurrence of `x` in `xs`. */
  function FirstIndex(xs: seq<string>, x: string): (i: nat)
    requires x in xs
    ensures i < |xs| && xs[i] == x && x !in xs[..i]
  {
    if xs[0] == x then 0
    else
      assert x in xs[1..];
      var i := FirstIndex(xs[1..], x) + 1;
      assert xs[..i] == [xs[0]] + xs[1..][..i - 1];
      i
  }

  predicate NoDuplicates(xs: seq<string>)
  {
    forall i, j :: 0 <= i < j < |xs| ==> xs[i] != xs[j]
  }

  /** Only the first occurrence of `x` has no earlier `x`. */
  lemma FirstIndexUnique(xs: seq<string>, x: string, i: nat)
    requires i < |xs| && xs[i] == x && x !in xs[..i]
    ensures FirstIndex(xs, x) == i
  {
  }

  /** Appending leaves the first occurrence of an element already present where it was. */
  lemma FirstIndexExtend(xs: seq<string>, y: string, x: string)
    requires x in xs
    ensures x in xs + [y] && FirstIndex(xs + [y], x) == FirstIndex(xs, x)
  {
    var f := FirstIndex(xs, x);
    assert (xs + [y])[..f] == xs[..f];
    FirstIndexUnique(xs + [y], x, f);
  }

  /**
   * `[...new Set(xs)]`: each element once, in the order of first
   * appearance (a `Set` iterates in insertion order).
   */
  function Distinct(xs: seq<string>): (r: seq<string>)
    ensures forall x :: x in r <==> x in xs
    ensures NoDuplicates(r)
    ensures forall i, j :: 0 <= i < j < |r| ==> FirstIndex(xs, r[i]) < FirstIndex(xs, r[j])
  {
    if xs == [] then []
    else
      var init := xs[..|xs| - 1];
      var y := xs[|xs| - 1];
      assert xs == init + [y];
      var d := Distinct(init);
      forall x | x in init
        ensures FirstIndex(xs, x) == FirstIndex(init, x)
      {
        FirstIndexExtend(init, y, x);
      }
      if y in d then d
      else
        FirstIndexUnique(xs, y, |init|);
        d + [y]
  }

  /** How many times `x` occurs in `xs`. */
  function Occurrences(xs: seq<string>, x: string): (n: nat)
    ensures x !in xs ==> n == 0
  {
    if xs == [] then 0
    else Occurrences(xs[..|xs| - 1], x) + (if xs[|xs| - 1] == x then 1 else 0)
  }

  /** The occurrences in `xs` of each element of `ds`, summed. */
  function SumOccurrences(ds: seq<string>, xs: seq<string>): nat
  {
    if ds == [] then 0
    else SumOccurrences(ds[..|ds| - 1], xs) + Occurrences(xs, ds[|ds| - 1])
  }

  /** One more element in `xs` adds one to the sum exactly when `ds` lists it (once). */
  lemma {:induction false} SumOccurrencesAppend(ds: seq<string>, xs: seq<string>, y: string)
    requires NoDuplicates(ds)
    ensures SumOccurrences(ds, xs + [y]) == SumOccurrences(ds, xs) + (if y in ds then 1 else 0)
  {
    assert (xs + [y])[..|xs|] == xs;
    if ds != [] {
      var init := ds[..|ds| - 1];
      var last := ds[|ds| - 1];
      assert ds == init + [last];
      assert NoDuplicates(init);
      SumOccurrencesAppend(init, xs, y);
      assert last == y ==> y !in init;
    }
  }

  /** Counting every distinct element's occurrences counts every element once. */
  lemma {:induction false} DistinctCountsSum(xs: seq<string>)
    ensures SumOccurrences(Distinct(xs), xs) == |xs|
  {
    if xs != [] {
      var init := xs[..|xs| - 1];
      var y := xs[|xs| - 1];
      assert xs == init + [y];
      var d := Distinct(init);
      DistinctCountsSum(init);
      SumOccurrencesAppend(d, init, y);
      if y !in init {
        assert Distinct(xs) == d + [y];
        assert (d + [y])[..|d|] == d;
      }
    }
  }

  /** A list without duplicates has as many entries as it has distinct elements. */
  lemma {:induction false} NoDuplicatesCard(xs: seq<string>)
    requires NoDuplicates(xs)
    ensures |set x | x in xs| == |xs|
  {
    if xs != [] {
      var init := xs[..|xs| - 1];
      var y := xs[|xs| - 1];
      assert xs == init + [y];
      assert NoDuplicates(init);
      NoDuplicatesCard(init);
      assert (set x | x in xs) == (set x | x in init) + {y};
      assert y !in (set x | x in init);
    }
  }

  /** The distinct non-empty batch ids, in order of first appearance. */
  function BatchIds(fetched: seq<Row>): seq<string>
  {
    Distinct(TruthyIds(fetched))
  }

  /** `getAllBatches`' entry for each id, stamped with the clock reading `now`. */
  function BatchesFor(fetched: seq<Row>, ids: seq<string>, now: string): (r: seq<BrowserDatabase.Batch>)
    ensures |r| == |ids|
    ensures forall i :: 0 <= i < |r| ==> r[i].id == ids[i] && r[i].batchId == ids[i]
  {
    if ids == [] then []
    else
      var id := ids[|ids| - 1];
      BatchesFor(fetched, ids[..|ids| - 1], now) +
        [BrowserDatabase.Batch(id, id, |GetTicketsByBatch(fetched, id)|, None, now)]
  }

  /** `getAllBatches`: one batch per distinct non-empty `printBatchId` of the fetched rows. */
  function GetAllBatches(fetched: seq<Row>, now: string): seq<BrowserDatabase.Batch>
  {
    BatchesFor(fetched, BatchIds(fetched), now)
  }

  /** The ticket count a batch reports is the number of truthy ids equal to its id. */
  lemma {:induction false} BatchCountIsOccurrences(fetched: seq<Row>, id: string)
    requires id != ""
    ensures |GetTicketsByBatch(fetched, id)| == Occurrences(TruthyIds(fetched), id)
  {
    if fetched != [] {
      var init := fetched[..|fetched| - 1];
      var last := fetched[|fetched| - 1];
      assert fetched == init + [last];
      BatchCountIsOccurrences(init, id);
      FilterAppend(init, [last], RowBatch, id);
      assert [last][1..] == [];
      var ids := TruthyIds(fetched);
      if Truthy(last.printBatchId) {
        assert ids[..|ids| - 1] == TruthyIds(init);
      } else {
        assert ids == TruthyIds(init);
      }
    }
  }

  function SumTicketCounts(bs: seq<BrowserDatabase.Batch>): int
  {
    if bs == [] then 0 else SumTicketCounts(bs[..|bs| - 1]) + bs[|bs| - 1].ticketCount
  }

  lemma {:induction false} BatchesForSum(fetched: seq<Row>, ids: seq<string>, now: string)
    requires forall x :: x in ids ==> x != ""
    ensures SumTicketCounts(BatchesFor(fetched, ids, now)) == SumOccurrences(ids, TruthyIds(fetched))
  {
    if ids != [] {
      var init := ids[..|ids| - 1];
      var id := ids[|ids| - 1];
      assert id in ids;
      assert forall x :: x in init ==> x in ids;
      BatchesForSum(fetched, init, now);
      BatchCountIsOccurrences(fetched, id);
      var bs := BatchesFor(fetched, ids, now);
      assert bs[..|bs| - 1] == BatchesFor(fetched, init, now);
    }
  }

  /**
   * The batch list names each non-empty batch id of the fetched rows
   * exactly once, in first-appearance order, with `id` equal to `batchId`.
   */
  lemma BatchesAreDistinct(fetched: seq<Row>, now: string)
    ensures |GetAllBatches(fetched, now)| == |BatchIds(fetched)|
    ensures forall x :: (exists t :: t in fetched && t.printBatchId == Some(x) && x != "") <==> x in BatchIds(fetched)
    ensures forall i :: 0 <= i < |GetAllBatches(fetched, now)| ==>
      GetAllBatches(fetched, now)[i].id == GetAllBatches(fetched, now)[i].batchId == BatchIds(fetched)[i]
    ensures forall i, j :: 0 <= i < j < |GetAllBatches(fetched, now)| ==>
      GetAllBatches(fetched, now)[i].batchId != GetAllBatches(fetched, now)[j].batchId
  {
    TruthyIdsMembers(fetched);
  }

  lemma {:induction false} TruthyIdsMembers(rows: seq<Row>)
    ensures forall x :: x in TruthyIds(rows) <==> exists t :: t in rows && t.printBatchId == Some(x) && x != ""
  {
    if rows != [] {
      var init := rows[..|rows| - 1];
      var last := rows[|rows| - 1];
      assert rows == init + [last];
      TruthyIdsMembers(init);
      forall x | x in TruthyIds(rows)
        ensures exists t :: t in rows && t.printBatchId == Some(x) && x != ""
      {
        if x in TruthyIds(init) {
          var t :| t in init && t.printBatchId == Some(x) && x != "";
          assert t in rows;
        } else {
          assert last in rows;
        }
      }
    }
  }

  /** The batch counts add up to the number of fetched rows with a non-empty batch id. */
  lemma BatchCountsSum(fetched: seq<Row>, now: string)
    ensures SumTicketCounts(GetAllBatches(fetched, now)) == |TruthyIds(fetched)|
  {
    BatchesForSum(fetched, BatchIds(fetched), now);
    DistinctCountsSum(TruthyIds(fetched));
  }

  /** The non-empty batch ids some fetched row carries. */
  ghost function BatchIdSet(fetched: seq<Row>): set<string>
  {
    set t | t in fetched && Truthy(t.printBatchId) :: t.printBatchId.value
  }

  /** `getStats`: the counts of one fetch of tickets and of designs. */
  function GetStats(fetched: seq<Row>, designCount: nat, now: string): BrowserDatabase.StoreCounts
  {
    BrowserDatabase.StoreCounts(|fetched|, designCount, |GetAllBatches(fetched, now)|)
  }

  /** `totalBatches` is the number of distinct non-empty batch ids among the fetched rows. */
  lemma StatsCountDistinctBatches(fetched: seq<Row>, designCount: nat, now: string)
    ensures GetStats(fetched, designCount, now).totalTickets == |fetched|
    ensures GetStats(fetched, designCount, now).totalDesigns == designCount
    ensures GetStats(fetched, designCount, now).totalBatches ==
      |BatchIdSet(fetched)|
  {
    var ids := BatchIds(fetched);
    TruthyIdsMembers(fetched);
    NoDuplicatesCard(ids);
    assert (set x | x in ids) == BatchIdSet(fetched);
  }

  // ------------------------------------------------------------- headers

  /** `getAuthHeaders`: JSON content type, and a bearer token when a non-empty one is stored. */
  function AuthHeaders(stored: Option<string>): (h: map<string, string>)
    ensures h.Keys <= {"Content-Type", "Authorization"}
    ensures "Content-Type" in h && h["Content-Type"] == "application/json"
    ensures "Authorization" in h <==> Truthy(stored)
    ensures Truthy(stored) ==> h["Authorization"] == "Bearer " + stored.value
  {
    var base := map["Content-Type" := "application/json"];
    if Truthy(stored) then base["Authorization" := "Bearer " + stored.value] else base
  }

  // ------------------------------------------------------------- writes

  /** The JSON of a `Ticket` as the bulk route reads it; it has no `createdAt`. */
  function TicketInputOf(t: Ticket): TicketInput
  {
    TicketInput(t.serial, t.token, t.ticketTypeName, t.price, Some(StatusName(t.status)),
                t.stubColor, Some(t.printBatchId), None)
  }

  function TicketInputs(ts: seq<Ticket>): (r: seq<TicketInput>)
    ensures |r| == |ts| && forall i :: 0 <= i < |ts| ==> r[i] == TicketInputOf(ts[i])
  {
    seq(|ts|, i requires 0 <= i < |ts| => TicketInputOf(ts[i]))
  }

  /** `{ ...row, ...updates }` as the bulk route reads it. */
  function MergedInput(row: Row, u: Patch): TicketInput
  {
    TicketInput(
      Pick(u.serial, row.serial),
      Pick(u.token, row.token),
      Pick(u.ticketTypeName, row.ticketTypeName),
      Pick(u.price, row.price),
      Some(if u.status.Some? then StatusName(u.status.value) else row.status),
      PickOpt(u.stubColor, row.stubColor),
      PickOpt(u.printBatchId, row.printBatchId),
      Some(row.createdAt))
  }

  /**
   * The row an update through the bulk route stores: everything the
   * merged object carries, except `usedAt` and `usedByDevice`, which the
   * INSERT does not name and so leaves null.
   */
  lemma UpdateStoresMerge(rows: map<string, Row>, row: Row, u: Patch, now: string)
    ensures (var m := MergedInput(row, u);
      var stored := Insert(rows, m, now)[m.serial];
      && stored.serial == Pick(u.serial, row.serial) && stored.token == Pick(u.token, row.token)
      && stored.status == (if u.status.Some? then StatusName(u.status.value) else OrElse(Some(row.status), "SOLD"))
      && stored.createdAt == OrElse(Some(row.createdAt), now)
      && stored.usedAt.None? && stored.usedByDevice.None?)
  {
    InsertEffect(rows, MergedInput(row, u), now);
  }

  /** A used ticket re-saved with no change at all comes back with its use erased. */
  lemma UpdateErasesUse(rows: map<string, Row>, row: Row, now: string)
    requires row.usedAt.Some?
    ensures Insert(rows, MergedInput(row, NoChange), now)[row.serial].usedAt.None?
    ensures Insert(rows, MergedInput(row, NoChange), now)[row.serial].usedAt != row.usedAt
  {
    InsertEffect(rows, MergedInput(row, NoChange), now);
  }

  /** The stored row a corrected update writes: the merge, `usedAt` and `usedByDevice` included. */
  function SaveMergeKeepingUse(rows: map<string, Row>, row: Row, u: Patch, now: string): map<string, Row>
  {
    var m := MergedInput(row, u);
    Insert(rows, m, now)[m.serial := NewRow(m, now).(usedAt := PickOpt(u.usedAt, row.usedAt),
                                                     usedByDevice := PickOpt(u.usedByDevice, row.usedByDevice))]
  }

  /**
   * With the correction, the stored row keeps the fetched use unless the
   * update replaces it, and a scan's `usedAt` and `usedByDevice` arrive;
   * the table stays valid whenever the uncorrected insert would.
   */
  lemma CorrectedUpdateKeepsUse(rows: map<string, Row>, row: Row, u: Patch, now: string)
    ensures (var serial := Pick(u.serial, row.serial);
      var stored := SaveMergeKeepingUse(rows, row, u, now)[serial];
      && stored.usedAt == (if u.usedAt.Some? then u.usedAt else row.usedAt)
      && stored.usedByDevice == (if u.usedByDevice.Some? then u.usedByDevice else row.usedByDevice)
      && stored.status == (if u.status.Some? then StatusName(u.status.value) else OrElse(Some(row.status), "SOLD")))
    ensures SaveMergeKeepingUse(rows, row, u, now).Keys == Insert(rows, MergedInput(row, u), now).Keys
    ensures Valid(rows) ==> Valid(SaveMergeKeepingUse(rows, row, u, now))
  {
    var m := MergedInput(row, u);
    InsertEffect(rows, m, now);
    if Valid(rows) {
      InsertValid(rows, m, now);
    }
  }

  /**
   * The service object. Its only state is whether `init` reached the
   * server; the tickets live in the server's table, passed as `server`.
   */
  class ApiDatabaseService {
    var initialized: bool

    constructor()
      ensures !initialized
    {
      initialized := false;
    }

    /**
     * `init`: a fetch of the stats route. An unreachable server is an error;
     * a reply that is not OK leaves the service uninitialised, silently.
     */
    method Init(reachable: bool, replyOk: bool) returns (r: Result<()>)
      modifies this
      ensures !reachable ==> (r == Err("Server not reachable. Make sure the API server is running on port 4000.")
                               && initialized == old(initialized))
      ensures reachable ==> r.Ok? && initialized == (old(initialized) || replyOk)
    {
      if !reachable {
        return Err("Server not reachable. Make sure the API server is running on port 4000.");
      }
      if replyOk {
        initialized := true;
      }
      r := Ok(());
    }

    /** A POST to the bulk route: the server inserts the inputs when the request is accepted. */
    method PostBulk(server: ServerDatabase, inputs: seq<TicketInput>, accepted: bool, error: string,
                    now: nat -> string) returns (r: Result<()>)
      modifies server
      ensures accepted ==> r.Ok? && server.tickets == InsertAll(old(server.tickets), inputs, now)
      ensures !accepted ==> r == Err(error) && server.tickets == old(server.tickets)
      ensures server.users == old(server.users)
    {
      if !accepted {
        return Err(error);
      }
      var _ := server.InsertTickets(inputs, now);
      r := Ok(());
    }

    /** `saveTicket`: a bulk insert of one ticket at clock reading `now`. */
    method SaveTicket(server: ServerDatabase, t: Ticket, accepted: bool, now: string) returns (r: Result<()>)
      modifies server
      ensures accepted ==> r.Ok? && server.tickets == Insert(old(server.tickets), TicketInputOf(t), now)
      ensures !accepted ==> r == Err("Failed to save ticket") && server.tickets == old(server.tickets)
      ensures server.users == old(server.users)
    {
      r := PostBulk(server, [TicketInputOf(t)], accepted, "Failed to save ticket", _ => now);
      assert [TicketInputOf(t)][..0] == [];
    }

    /** `saveTickets`: one bulk insert of all of them, input `i` at clock reading `now(i)`. */
    method SaveTickets(server: ServerDatabase, ts: seq<Ticket>, accepted: bool, now: nat -> string)
      returns (r: Result<()>)
      modifies server
      ensures accepted ==> r.Ok? && server.tickets == InsertAll(old(server.tickets), TicketInputs(ts), now)
      ensures !accepted ==> r == Err("Failed to save tickets") && server.tickets == old(server.tickets)
      ensures server.users == old(server.users)
    {
      r := PostBulk(server, TicketInputs(ts), accepted, "Failed to save tickets", now);
    }

    /**
     * `updateTicket`: `fetched` is what the fetch of all tickets returned.
     * An unknown serial is `Ticket not found`; otherwise the merged object
     * is saved through the single-ticket bulk path, error message included.
     */
    method UpdateTicket(server: ServerDatabase, fetched: seq<Row>, serial: string, u: Patch,
                        accepted: bool, now: string) returns (r: Result<()>)
      modifies server
      ensures GetTicket(fetched, serial).None? ==>
        r == Err("Ticket not found") && server.tickets == old(server.tickets)
      ensures GetTicket(fetched, serial).Some? && !accepted ==>
        r == Err("Failed to save ticket") && server.tickets == old(server.tickets)
      ensures GetTicket(fetched, serial).Some? && accepted ==>
        r.Ok? && server.tickets == Insert(old(server.tickets), MergedInput(GetTicket(fetched, serial).value, u), now)
      ensures server.users == old(server.users)
    {
      var found := GetTicket(fetched, serial);
      if found.None? {
        return Err("Ticket not found");
      }
      var m := MergedInput(found.value, u);
      r := PostBulk(server, [m], accepted, "Failed to save ticket", _ => now);
      assert [m][..0] == [];
    }

    /** The same update, with the merged `usedAt` and `usedByDevice` stored as well. */
    method UpdateTicketKeepingUse(server: ServerDatabase, fetched: seq<Row>, serial: string, u: Patch,
                                  accepted: bool, now: string) returns (r: Result<()>)
      modifies server
      ensures GetTicket(fetched, serial).None? ==>
        r == Err("Ticket not found") && server.tickets == old(server.tickets)
      ensures GetTicket(fetched, serial).Some? && !accepted ==>
        r == Err("Failed to save ticket") && server.tickets == old(server.tickets)
      ensures GetTicket(fetched, serial).Some? && accepted ==>
        r.Ok? && server.tickets == SaveMergeKeepingUse(old(server.tickets), GetTicket(fetched, serial).value, u, now)
      ensures server.users == old(server.users)
    {
      var found := GetTicket(fetched, serial);
      if found.None? {
        return Err("Ticket not found");
      }
      if !accepted {
        return Err("Failed to save ticket");
      }
      server.tickets := SaveMergeKeepingUse(server.tickets, found.value, u, now);
      r := Ok(());
    }

    /** `deleteTicket`: the server's delete; a refused request or an unknown serial is an error. */
    method DeleteTicket(server: ServerDatabase, serial: string, accepted: bool) returns (r: Result<()>)
      modifies server
      ensures accepted && serial in old(server.tickets) ==>
        r.Ok? && server.tickets == old(server.tickets) - {serial}
      ensures !(accepted && serial in old(server.tickets)) ==>
        r == Err("Failed to delete ticket") && server.tickets == old(server.tickets)
      ensures server.users == old(server.users)
    {
      if !accepted {
        return Err("Failed to delete ticket");
      }
      var d := server.DeleteTicket(serial);
      if d.Err? {
        return Err("Failed to delete ticket");
      }
      r := Ok(());
    }

    /** `deleteAllTickets`: the server's clear, unless the request is refused. */
    method DeleteAllTickets(server: ServerDatabase, accepted: bool) returns (r: Result<()>)
      modifies server
      ensures accepted ==> r.Ok? && server.tickets == map[]
      ensures !accepted ==> r == Err("Failed to delete all tickets") && server.tickets == old(server.tickets)
      ensures server.users == old(server.users)
    {
      if !accepted {
        return Err("Failed to delete all tickets");
      }
      server.ClearAllTickets();
      r := Ok(());
    }

    /** `saveBatch` only logs: it succeeds and changes nothing. */
    method SaveBatch(b: BrowserDatabase.Batch) returns (r: Result<()>)
      ensures r == Ok(())
    {
      r := Ok(());
    }

    /** `clearAllData` is not implemented for the server: it succeeds and changes nothing. */
    method ClearAllData() returns (r: Result<()>)
      ensures r == Ok(())
    {
      r := Ok(());
    }
  }
}
