/**
 * The browser's IndexedDB database (services/database.ts): three object
 * stores, `tickets` keyed by serial with a UNIQUE `token` index, `designs`
 * keyed by id, and `batches` keyed by id with a UNIQUE `batchId` index.
 *
 * Each store is a map from key to record. A `put` is an upsert by key that
 * fails with a `ConstraintError` when another record already holds the
 * value of a unique index. A promise's fate is an `Outcome`; one that no
 * callback ever settles is `Pending`.
 */
module BrowserDatabase {
  import opened Tickets

  datatype Outcome = Resolved | Rejected(error: string) | Pending

  datatype Design = Design(id: string, name: string, createdAt: string, updatedAt: string)

  datatype Batch = Batch(id: string, batchId: string, ticketCount: int, designId: Option<string>, createdAt: string)

  datatype StoreCounts = StoreCounts(totalTickets: nat, totalDesigns: nat, totalBatches: nat)

  /** The `data` member of a parsed backup; an array that is missing is `None`. */
  datatype BackupData = BackupData(tickets: Option<seq<Ticket>>, designs: Option<seq<Design>>, batches: Option<seq<Batch>>)

  /** A parsed backup file; `data` is `None` when it is missing or falsy. */
  datatype Backup = Backup(data: Option<BackupData>)

  const NotInitialized := "Database not initialized"
  const ConstraintError := "ConstraintError"
  const BatchSize := 100

  // ---------------------------------------------------------------- puts

  predicate TokenTaken(store: map<string, Ticket>, t: Ticket)
  {
    exists k :: k in store && k != t.serial && store[k].token == t.token
  }

  /** `put` on the tickets store. */
  function PutTicket(store: map<string, Ticket>, t: Ticket): Result<map<string, Ticket>>
  {
    if TokenTaken(store, t) then Err(ConstraintError) else Ok(store[t.serial := t])
  }

  predicate BatchIdTaken(store: map<string, Batch>, b: Batch)
  {
    exists k :: k in store && k != b.id && store[k].batchId == b.batchId
  }

  /** `put` on the batches store. */
  function PutBatch(store: map<string, Batch>, b: Batch): Result<map<string, Batch>>
  {
    if BatchIdTaken(store, b) then Err(ConstraintError) else Ok(store[b.id := b])
  }

  /** `put` on the designs store, which has no unique index. */
  function PutDesign(store: map<string, Design>, d: Design): Result<map<string, Design>>
  {
    Ok(store[d.id := d])
  }

  /** A sequence of puts: the store after the puts up to the first failure, and that failure. */
  datatype Run<T> = Run(store: map<string, T>, error: Option<string>)

  function PutEach<T>(store: map<string, T>, xs: seq<T>, put: (map<string, T>, T) -> Result<map<string, T>>): Run<T>
  {
    if xs == [] then Run(store, None)
    else
      var r := PutEach(store, xs[..|xs| - 1], put);
      if r.error.Some? then r
      else match put(r.store, xs[|xs| - 1])
        case Ok(m) => Run(m, None)
        case Err(e) => Run(r.store, Some(e))
  }

  /** Putting `a + b` is putting `a`, then, unless that failed, putting `b`. */
  lemma {:induction false} PutEachAppend<T>(store: map<string, T>, a: seq<T>, b: seq<T>,
                                            put: (map<string, T>, T) -> Result<map<string, T>>)
    ensures PutEach(store, a + b, put) ==
      (var r := PutEach(store, a, put); if r.error.Some? then r else PutEach(r.store, b, put))
  {
    if b == [] {
      assert a + b == a;
    } else {
      assert (a + b)[..|a + b| - 1] == a + b[..|b| - 1];
      assert (a + b)[|a + b| - 1] == b[|b| - 1];
      PutEachAppend(store, a, b[..|b| - 1], put);
    }
  }

  /** The tickets store's constraints: each record under its own serial, no token held twice. */
  predicate Valid(store: map<string, Ticket>)
  {
    && (forall k :: k in store ==> store[k].serial == k)
    && (forall k1, k2 :: k1 in store && k2 in store && k1 != k2 ==> store[k1].token != store[k2].token)
  }

  /**
   * A put is an upsert: on success the record sits under its serial and
   * every other record is as it was; it fails exactly when another serial
   * holds the token, and a successful put keeps the constraints.
   */
  lemma PutTicketEffect(store: map<string, Ticket>, t: Ticket)
    ensures PutTicket(store, t).Err? <==> exists k :: k in store && k != t.serial && store[k].token == t.token
    ensures PutTicket(store, t).Ok? ==>
      var m := PutTicket(store, t).value;
      && t.serial in m && m[t.serial] == t
      && (forall k :: k != t.serial ==> (k in m <==> k in store))
      && (forall k :: k in m && k != t.serial ==> m[k] == store[k])
    ensures Valid(store) && PutTicket(store, t).Ok? ==> Valid(PutTicket(store, t).value)
  {
  }

  /** Re-putting a stored record merged with an update that keeps serial and token always succeeds. */
  lemma UpdateInPlace(store: map<string, Ticket>, serial: string, u: Patch)
    requires Valid(store) && serial in store && KeepsIdentity(u)
    ensures PutTicket(store, Merge(store[serial], u)) == Ok(store[serial := Merge(store[serial], u)])
  {
  }

  /**
   * An update that names a new serial but keeps the token puts a second
   * record holding the same token, so the unique index rejects it.
   */
  lemma SerialChangeRejected(store: map<string, Ticket>, serial: string, u: Patch)
    requires Valid(store) && serial in store
    requires u.serial.Some? && u.serial.value != serial && u.token.None?
    ensures PutTicket(store, Merge(store[serial], u)) == Err(ConstraintError)
  {
    assert store[serial].token == Merge(store[serial], u).token;
  }

  // -------------------------------------------------------------- slices

  function Min(a: int, b: int): int
  {
    if a < b then a else b
  }

  /** `tickets.slice(i, i + BATCH_SIZE)` for `i` = 0, 100, 200, ... below the length. */
  function Slices<T>(xs: seq<T>): seq<seq<T>>
    decreases |xs|
  {
    if xs == [] then []
    else if |xs| <= BatchSize then [xs]
    else [xs[..BatchSize]] + Slices(xs[BatchSize..])
  }

  function Concat<T>(xss: seq<seq<T>>): seq<T>
  {
    if xss == [] then [] else xss[0] + Concat(xss[1..])
  }

  /** The slices cover the sequence exactly once, in order, each holding 1 to 100 elements. */
  lemma {:induction false} SlicesCover<T>(xs: seq<T>)
    ensures Concat(Slices(xs)) == xs
    ensures forall j :: 0 <= j < |Slices(xs)| ==> 0 < |Slices(xs)[j]| <= BatchSize
  {
    if xs != [] && |xs| > BatchSize {
      SlicesCover(xs[BatchSize..]);
      var rest := Slices(xs[BatchSize..]);
      assert Slices(xs) == [xs[..BatchSize]] + rest;
      assert ([xs[..BatchSize]] + rest)[1..] == rest;
      assert xs == xs[..BatchSize] + xs[BatchSize..];
    } else if xs != [] {
      assert Concat([xs]) == xs + Concat([xs][1..]);
      assert [xs][1..] == [];
    }
  }

  /** Slice `n` starts at `100 * n`: it is what the import loop's n-th iteration saves. */
  lemma {:induction false} SliceAt<T>(xs: seq<T>, n: nat)
    requires n * BatchSize < |xs|
    ensures n < |Slices(xs)|
    ensures Slices(xs)[n] == xs[n * BatchSize..Min(n * BatchSize + BatchSize, |xs|)]
    ensures n + 1 == |Slices(xs)| <==> n * BatchSize + BatchSize >= |xs|
  {
    if |xs| > BatchSize {
      var rest := xs[BatchSize..];
      assert Slices(xs) == [xs[..BatchSize]] + Slices(rest);
      if n > 0 {
        SliceAt(rest, n - 1);
        assert rest[(n - 1) * BatchSize..Min((n - 1) * BatchSize + BatchSize, |rest|)]
            == xs[n * BatchSize..Min(n * BatchSize + BatchSize, |xs|)];
      } else {
        if |rest| > 0 {
          SliceAt(rest, 0);
        }
      }
    }
  }

  /** The slice after one starting at a multiple of 100 starts at a multiple of 100 or at the end. */
  lemma NextSliceStart(i: nat, n: nat)
    requires i % BatchSize == 0 && i < n
    ensures Min(i + BatchSize, n) % BatchSize == 0 || Min(i + BatchSize, n) == n
  {
  }

  /** Dropping the first `i` elements leaves slice `i / 100` and the slices after it. */
  lemma SlicesFrom<T>(xs: seq<T>, i: nat)
    requires i < |xs|
    ensures Slices(xs[i..]) == [xs[i..Min(i + BatchSize, |xs|)]] + Slices(xs[Min(i + BatchSize, |xs|)..])
  {
    var end := Min(i + BatchSize, |xs|);
    if |xs[i..]| > BatchSize {
      assert xs[i..][..BatchSize] == xs[i..end];
      assert xs[i..][BatchSize..] == xs[end..];
    } else {
      assert end == |xs| && xs[i..end] == xs[i..];
      assert xs[end..] == [];
      assert Slices(xs[end..]) == [];
    }
  }

  /**
   * The ticket part of `importDatabase` as a specification: each slice is
   * saved in a transaction of its own; the first slice that fails is rolled
   * back, its error is the import's, and no later slice is attempted.
   */
  function SaveEachSlice(store: map<string, Ticket>, slices: seq<seq<Ticket>>): Run<Ticket>
    decreases |slices|
  {
    if slices == [] then Run(store, None)
    else
      var first := PutEach(store, slices[0], PutTicket);
      if first.error.Some? then Run(store, first.error)
      else SaveEachSlice(first.store, slices[1..])
  }

  /** Saving the slices from `i` on is saving slice `i / 100`, then, unless that failed, the slices after it. */
  lemma SliceStep(store: map<string, Ticket>, ts: seq<Ticket>, i: nat)
    requires i < |ts|
    ensures var end := Min(i + BatchSize, |ts|);
      var r := PutEach(store, ts[i..end], PutTicket);
      SaveEachSlice(store, Slices(ts[i..])) ==
        if r.error.Some? then Run(store, r.error) else SaveEachSlice(r.store, Slices(ts[end..]))
  {
    SlicesFrom(ts, i);
    var end := Min(i + BatchSize, |ts|);
    assert Slices(ts[i..])[0] == ts[i..end];
    assert Slices(ts[i..])[1..] == Slices(ts[end..]);
  }

  /**
   * Saving slice by slice keeps exactly the slices before the first failing
   * one, `k`, and reports the error of one put after another over the whole
   * list: the same first failing put, found inside slice `k`.
   */
  lemma {:induction false} SlicedRun(store: map<string, Ticket>, slices: seq<seq<Ticket>>) returns (k: nat)
    ensures k <= |slices|
    ensures PutEach(store, Concat(slices[..k]), PutTicket) == Run(SaveEachSlice(store, slices).store, None)
    ensures k < |slices| ==>
      && PutEach(SaveEachSlice(store, slices).store, slices[k], PutTicket).error.Some?
      && SaveEachSlice(store, slices).error == PutEach(SaveEachSlice(store, slices).store, slices[k], PutTicket).error
    ensures k == |slices| ==> SaveEachSlice(store, slices).error.None?
    ensures SaveEachSlice(store, slices).error == PutEach(store, Concat(slices), PutTicket).error
    decreases |slices|
  {
    if slices == [] {
      k := 0;
      return;
    }
    var first := PutEach(store, slices[0], PutTicket);
    assert Concat(slices) == slices[0] + Concat(slices[1..]);
    PutEachAppend(store, slices[0], Concat(slices[1..]), PutTicket);
    if first.error.Some? {
      k := 0;
      assert SaveEachSlice(store, slices) == Run(store, first.error);
      assert Concat(slices[..0]) == [];
      return;
    }
    assert SaveEachSlice(store, slices) == SaveEachSlice(first.store, slices[1..]);
    var k' := SlicedRun(first.store, slices[1..]);
    k := k' + 1;
    assert slices[..k][1..] == slices[1..][..k'];
    assert Concat(slices[..k]) == slices[0] + Concat(slices[1..][..k']);
    PutEachAppend(store, slices[0], Concat(slices[1..][..k']), PutTicket);
    assert k < |slices| ==> slices[k] == slices[1..][k'];
  }

  /** A run over `ts[..i]` followed by a clean run over `ts[i..end]` is a clean run over `ts[..end]`. */
  lemma ExtendRun(store: map<string, Ticket>, ts: seq<Ticket>, i: nat, end: nat,
                  mid: map<string, Ticket>, after: map<string, Ticket>)
    requires i <= end <= |ts|
    requires PutEach(store, ts[..i], PutTicket) == Run(mid, None)
    requires PutEach(mid, ts[i..end], PutTicket) == Run(after, None)
    ensures PutEach(store, ts[..end], PutTicket) == Run(after, None)
  {
    PutEachAppend(store, ts[..i], ts[i..end], PutTicket);
    assert ts[..i] + ts[i..end] == ts[..end];
  }

  /** Once a prefix of the puts fails, the rest of them are never made. */
  lemma PrefixFailure<T>(store: map<string, T>, xs: seq<T>, n: nat, put: (map<string, T>, T) -> Result<map<string, T>>)
    requires n <= |xs|
    requires PutEach(store, xs[..n], put).error.Some?
    ensures PutEach(store, xs, put) == PutEach(store, xs[..n], put)
  {
    PutEachAppend(store, xs[..n], xs[n..], put);
    assert xs[..n] + xs[n..] == xs;
  }

  /** A clean run over `ts[..i]` followed by a failing run over `ts[i..end]` fails the whole run with that error. */
  lemma FailRun(store: map<string, Ticket>, ts: seq<Ticket>, i: nat, end: nat, mid: map<string, Ticket>)
    requires i <= end <= |ts|
    requires PutEach(store, ts[..i], PutTicket) == Run(mid, None)
    requires PutEach(mid, ts[i..end], PutTicket).error.Some?
    ensures PutEach(store, ts, PutTicket).error == PutEach(mid, ts[i..end], PutTicket).error
  {
    PutEachAppend(store, ts[..i], ts[i..end], PutTicket);
    assert ts[..i] + ts[i..end] == ts[..end];
    PrefixFailure(store, ts, end, PutTicket);
  }

  /** Every store a sequence of ticket puts passes through keeps the constraints. */
  lemma {:induction false} PutEachValid(store: map<string, Ticket>, ts: seq<Ticket>)
    requires Valid(store)
    ensures Valid(PutEach(store, ts, PutTicket).store)
  {
    if ts != [] {
      PutEachValid(store, ts[..|ts| - 1]);
      var r := PutEach(store, ts[..|ts| - 1], PutTicket);
      if r.error.None? {
        PutTicketEffect(r.store, ts[|ts| - 1]);
      }
    }
  }

  // --------------------------------------------------------------- class

  class Database {
    /** Whether `init` has opened the database (`this.db` is set). */
    var isOpen: bool
    var tickets: map<string, Ticket>
    var designs: map<string, Design>
    var batches: map<string, Batch>

    constructor()
      ensures !isOpen && tickets == map[] && designs == map[] && batches == map[]
    {
      isOpen := false;
      tickets := map[];
      designs := map[];
      batches := map[];
    }

    /** `init`: `openError` is the open request's error, if it fails; the stores start out empty. */
    method Init(openError: Option<string>) returns (o: Outcome)
      modifies this
      ensures openError.Some? ==> o == Rejected(openError.value) && isOpen == old(isOpen)
      ensures openError.None? ==> o == Resolved && isOpen
      ensures tickets == old(tickets) && designs == old(designs) && batches == old(batches)
    {
      if openError.Some? {
        return Rejected(openError.value);
      }
      isOpen := true;
      o := Resolved;
    }

    method SaveTicket(t: Ticket) returns (o: Outcome)
      modifies this
      ensures !old(isOpen) ==> o == Rejected(NotInitialized) && tickets == old(tickets)
      ensures old(isOpen) ==> match PutTicket(old(tickets), t)
        case Ok(m) => o == Resolved && tickets == m
        case Err(e) => o == Rejected(e) && tickets == old(tickets)
      ensures Valid(old(tickets)) ==> Valid(tickets)
      ensures isOpen == old(isOpen) && designs == old(designs) && batches == old(batches)
    {
      if !isOpen {
        return Rejected(NotInitialized);
      }
      if Valid(tickets) {
        PutTicketEffect(tickets, t);
      }
      match PutTicket(tickets, t) {
        case Ok(m) =>
          tickets := m;
          o := Resolved;
        case Err(e) =>
          o := Rejected(e);
      }
    }

    /**
     * `saveTickets`: every put runs in one transaction, so the first failing
     * put aborts it and undoes the earlier ones. The promise resolves when
     * the last put completes, and so never settles for an empty list.
     */
    method SaveTickets(ts: seq<Ticket>) returns (o: Outcome)
      modifies this
      ensures !old(isOpen) ==> o == Rejected(NotInitialized) && tickets == old(tickets)
      ensures old(isOpen) ==> var r := PutEach(old(tickets), ts, PutTicket);
        && (r.error.Some? ==> o == Rejected(r.error.value) && tickets == old(tickets))
        && (r.error.None? ==> tickets == r.store && o == (if ts == [] then Pending else Resolved))
      ensures Valid(old(tickets)) ==> Valid(tickets)
      ensures isOpen == old(isOpen) && designs == old(designs) && batches == old(batches)
    {
      if !isOpen {
        return Rejected(NotInitialized);
      }
      if Valid(tickets) {
        PutEachValid(tickets, ts);
      }
      var original := tickets;
      var completed := 0;
      o := Pending;
      for i := 0 to |ts|
        invariant completed == i
        invariant PutEach(original, ts[..i], PutTicket) == Run(tickets, None)
        invariant o == (if i == |ts| && i > 0 then Resolved else Pending)
        invariant isOpen && designs == old(designs) && batches == old(batches)
      {
        assert ts[..i + 1][..i] == ts[..i];
        match PutTicket(tickets, ts[i]) {
          case Ok(m) =>
            tickets := m;
            completed := completed + 1;
            if completed == |ts| {
              o := Resolved;
            }
          case Err(e) =>
            assert PutEach(original, ts[..i + 1], PutTicket) == Run(tickets, Some(e));
            PrefixFailure(original, ts, i + 1, PutTicket);
            tickets := original;
            return Rejected(e);
        }
      }
      assert ts[..|ts|] == ts;
    }

    function GetTicket(serial: string): (r: Result<Option<Ticket>>)
      reads this
      ensures r.Err? <==> !isOpen
      ensures isOpen ==> (r.value.Some? <==> serial in tickets)
      ensures isOpen && serial in tickets ==> r.value.value == tickets[serial]
    {
      if !isOpen then Err(NotInitialized)
      else if serial in tickets then Ok(Some(tickets[serial]))
      else Ok(None)
    }

    /** `getTicketsByBatch`: the records the `printBatchId` index holds under `batchId`. */
    function GetTicketsByBatch(batchId: string): (r: Result<set<Ticket>>)
      reads this
      ensures r.Err? <==> !isOpen
      ensures isOpen ==> forall t :: t in r.value <==> t in tickets.Values && t.printBatchId == batchId
    {
      if !isOpen then Err(NotInitialized)
      else Ok(set k | k in tickets && tickets[k].printBatchId == batchId :: tickets[k])
    }

    /** `updateTicket`: `Ticket not found` when absent, else the stored record merged with `updates` is put back. */
    method UpdateTicket(serial: string, updates: Patch) returns (o: Outcome)
      modifies this
      ensures !old(isOpen) ==> o == Rejected(NotInitialized) && tickets == old(tickets)
      ensures old(isOpen) && serial !in old(tickets) ==> o == Rejected("Ticket not found") && tickets == old(tickets)
      ensures old(isOpen) && serial in old(tickets) ==>
        match PutTicket(old(tickets), Merge(old(tickets)[serial], updates))
        case Ok(m) => o == Resolved && tickets == m
        case Err(e) => o == Rejected(e) && tickets == old(tickets)
      ensures Valid(old(tickets)) ==> Valid(tickets)
      ensures isOpen == old(isOpen) && designs == old(designs) && batches == old(batches)
    {
      var ticket := GetTicket(serial);
      if ticket.Err? {
        return Rejected(ticket.error);
      }
      if ticket.value.None? {
        return Rejected("Ticket not found");
      }
      o := SaveTicket(Merge(ticket.value.value, updates));
    }

    /** `deleteTicket`: deleting an absent key is not an error. */
    method DeleteTicket(serial: string) returns (o: Outcome)
      modifies this
      ensures !old(isOpen) ==> o == Rejected(NotInitialized) && tickets == old(tickets)
      ensures old(isOpen) ==> o == Resolved && tickets == old(tickets) - {serial}
      ensures Valid(old(tickets)) ==> Valid(tickets)
      ensures isOpen == old(isOpen) && designs == old(designs) && batches == old(batches)
    {
      if !isOpen {
        return Rejected(NotInitialized);
      }
      tickets := tickets - {serial};
      o := Resolved;
    }

    method SaveDesign(d: Design) returns (o: Outcome)
      modifies this
      ensures !old(isOpen) ==> o == Rejected(NotInitialized) && designs == old(designs)
      ensures old(isOpen) ==> o == Resolved && Ok(designs) == PutDesign(old(designs), d)
      ensures isOpen == old(isOpen) && tickets == old(tickets) && batches == old(batches)
    {
      if !isOpen {
        return Rejected(NotInitialized);
      }
      designs := designs[d.id := d];
      o := Resolved;
    }

    method SaveBatch(b: Batch) returns (o: Outcome)
      modifies this
      ensures !old(isOpen) ==> o == Rejected(NotInitialized) && batches == old(batches)
      ensures old(isOpen) ==> match PutBatch(old(batches), b)
        case Ok(m) => o == Resolved && batches == m
        case Err(e) => o == Rejected(e) && batches == old(batches)
      ensures isOpen == old(isOpen) && tickets == old(tickets) && designs == old(designs)
    {
      if !isOpen {
        return Rejected(NotInitialized);
      }
      match PutBatch(batches, b) {
        case Ok(m) =>
          batches := m;
          o := Resolved;
        case Err(e) =>
          o := Rejected(e);
      }
    }

    /** `clearAllData`: the three stores are cleared one after the other. */
    method ClearAllData() returns (o: Outcome)
      modifies this
      ensures !old(isOpen) ==> o == Rejected(NotInitialized) && tickets == old(tickets)
                               && designs == old(designs) && batches == old(batches)
      ensures old(isOpen) ==> o == Resolved && tickets == map[] && designs == map[] && batches == map[]
      ensures isOpen == old(isOpen)
    {
      if !isOpen {
        return Rejected(NotInitialized);
      }
      tickets := map[];
      designs := map[];
      batches := map[];
      o := Resolved;
    }

    /** `getStats`: the number of records in each store. */
    function GetStats(): (r: Result<StoreCounts>)
      reads this
      ensures r.Err? <==> !isOpen
      ensures isOpen ==> r.value == StoreCounts(|tickets|, |designs|, |batches|)
    {
      if !isOpen then Err(NotInitialized) else Ok(StoreCounts(|tickets|, |designs|, |batches|))
    }

    /**
     * `importDatabase`: `parsed` is `JSON.parse(jsonData)`, `None` when it
     * throws. Tickets are saved slice by slice, each slice its own
     * transaction, then designs and batches one put at a time; the first
     * rejection is rethrown, leaving what was saved before it in place.
     */
    method ImportDatabase(parsed: Option<Backup>) returns (r: Result<StoreCounts>)
      modifies this
      ensures parsed.None? ==>
        r == Err("SyntaxError") && tickets == old(tickets) && designs == old(designs) && batches == old(batches)
      ensures parsed.Some? && parsed.value.data.None? ==>
        && r == Err("Invalid backup file format")
        && tickets == old(tickets) && designs == old(designs) && batches == old(batches)
      ensures parsed.Some? && parsed.value.data.Some? ==>
        var ts := OrEmpty(parsed.value.data.value.tickets);
        exists n :: (0 <= n <= |ts| && (n % BatchSize == 0 || n == |ts|) &&
          tickets == PutEach(old(tickets), ts[..n], PutTicket).store)
      ensures parsed.Some? && parsed.value.data.Some? && old(isOpen) ==>
        var ts := OrEmpty(parsed.value.data.value.tickets);
        tickets == SaveEachSlice(old(tickets), Slices(ts)).store
      ensures parsed.Some? && parsed.value.data.Some? && !old(isOpen) ==>
        var data := parsed.value.data.value;
        && tickets == old(tickets) && designs == old(designs) && batches == old(batches)
        && r == if data.tickets.Some? && data.tickets.value != [] then Err(NotInitialized)
                else if data.designs.Some? && data.designs.value != [] then Err(NotInitialized)
                else if data.batches.Some? && data.batches.value != [] then Err(NotInitialized)
                else Ok(StoreCounts(0, 0, 0))
      ensures parsed.Some? && parsed.value.data.Some? && old(isOpen) ==>
        var data := parsed.value.data.value;
        var rt := PutEach(old(tickets), OrEmpty(data.tickets), PutTicket);
        var rd := PutEach(old(designs), OrEmpty(data.designs), PutDesign);
        var rb := PutEach(old(batches), OrEmpty(data.batches), PutBatch);
        && designs == (if rt.error.Some? then old(designs) else rd.store)
        && batches == (if rt.error.Some? || rd.error.Some? then old(batches) else rb.store)
        && r == if rt.error.Some? then Err(rt.error.value)
                else if rd.error.Some? then Err(rd.error.value)
                else if rb.error.Some? then Err(rb.error.value)
                else Ok(StoreCounts(|OrEmpty(data.tickets)|, |OrEmpty(data.designs)|, |OrEmpty(data.batches)|))
      ensures r.Ok? ==>
        var data := parsed.value.data.value;
        && r.value == StoreCounts(|OrEmpty(data.tickets)|, |OrEmpty(data.designs)|, |OrEmpty(data.batches)|)
        && PutEach(old(tickets), OrEmpty(data.tickets), PutTicket) == Run(tickets, None)
        && PutEach(old(designs), OrEmpty(data.designs), PutDesign) == Run(designs, None)
        && PutEach(old(batches), OrEmpty(data.batches), PutBatch) == Run(batches, None)
      ensures Valid(old(tickets)) ==> Valid(tickets)
      ensures isOpen == old(isOpen)
    {
      if parsed.None? {
        return Err("SyntaxError");
      }
      if parsed.value.data.None? {
        return Err("Invalid backup file format");
      }
      var data := parsed.value.data.value;
      var ts := OrEmpty(data.tickets);
      var ds := OrEmpty(data.designs);
      var bs := OrEmpty(data.batches);
      assert ts[..|ts|] == ts;
      var e, saved := ImportTickets(ts);
      if Valid(old(tickets)) {
        PutEachValid(old(tickets), ts[..saved]);
      }
      if e.Some? {
        return Err(e.value);
      }
      e := ImportDesigns(ds);
      if e.Some? {
        return Err(e.value);
      }
      e := ImportBatches(bs);
      if e.Some? {
        return Err(e.value);
      }
      r := Ok(StoreCounts(|ts|, |ds|, |bs|));
    }

    /** The slice loop of `importDatabase`: `BatchSize` tickets per `saveTickets` call, stopping at the first rejected slice. */
    method ImportTickets(ts: seq<Ticket>) returns (e: Option<string>, ghost saved: nat)
      modifies this
      ensures saved <= |ts| && (saved % BatchSize == 0 || saved == |ts|)
      ensures tickets == PutEach(old(tickets), ts[..saved], PutTicket).store
      ensures e.None? ==> saved == |ts| && PutEach(old(tickets), ts, PutTicket) == Run(tickets, None)
      ensures old(isOpen) ==> e == PutEach(old(tickets), ts, PutTicket).error
      ensures !old(isOpen) ==> e == (if ts == [] then None else Some(NotInitialized)) && tickets == old(tickets)
      ensures old(isOpen) ==> e == SaveEachSlice(old(tickets), Slices(ts)).error && tickets == SaveEachSlice(old(tickets), Slices(ts)).store
      ensures e.Some? && old(isOpen) ==>
        && saved < |ts| && saved % BatchSize == 0
        && PutEach(old(tickets), ts[..saved], PutTicket).error.None?
        && PutEach(old(tickets), ts[..Min(saved + BatchSize, |ts|)], PutTicket).error.Some?
      ensures isOpen == old(isOpen) && designs == old(designs) && batches == old(batches)
    {
      // `i` stops at the length instead of passing it, as the clamped `slice` does
      var i := 0;
      while i < |ts|
        invariant i <= |ts| && (i % BatchSize == 0 || i == |ts|)
        invariant PutEach(old(tickets), ts[..i], PutTicket) == Run(tickets, None)
        invariant !old(isOpen) ==> i == 0
        invariant old(isOpen) ==> SaveEachSlice(old(tickets), Slices(ts)) == SaveEachSlice(tickets, Slices(ts[i..]))
        invariant isOpen == old(isOpen) && designs == old(designs) && batches == old(batches)
        decreases |ts| - i
      {
        var end := Min(i + BatchSize, |ts|);
        SliceStep(tickets, ts, i);
        var err := SaveSlice(ts, old(tickets), i, end);
        if err.Some? {
          return err, i;
        }
        NextSliceStart(i, |ts|);
        i := end;
      }
      assert ts[..i] == ts;
      assert ts[i..] == [];
      e, saved := None, |ts|;
    }

    /**
     * One iteration of the slice loop: `saveTickets` on `ts[i..end]`, after
     * the slices before it were saved into the store that started at `base`.
     */
    method SaveSlice(ts: seq<Ticket>, ghost base: map<string, Ticket>, i: nat, end: nat) returns (e: Option<string>)
      requires i < end <= |ts|
      requires PutEach(base, ts[..i], PutTicket) == Run(tickets, None)
      modifies this
      ensures e.None? ==> PutEach(base, ts[..end], PutTicket) == Run(tickets, None)
      ensures e.Some? ==> tickets == old(tickets)
      ensures e.Some? && old(isOpen) ==> e == PutEach(base, ts, PutTicket).error
      ensures e.Some? && old(isOpen) ==> PutEach(base, ts[..end], PutTicket).error.Some?
      ensures old(isOpen) ==> var r := PutEach(old(tickets), ts[i..end], PutTicket);
        e == r.error && (e.None? ==> tickets == r.store)
      ensures !old(isOpen) ==> e == Some(NotInitialized)
      ensures isOpen == old(isOpen) && designs == old(designs) && batches == old(batches)
    {
      ghost var run := PutEach(tickets, ts[i..end], PutTicket);
      var o := SaveTickets(ts[i..end]);
      if o.Rejected? {
        if isOpen {
          assert run.error.Some? && o.error == run.error.value;
          FailRun(base, ts, i, end, old(tickets));
          PutEachAppend(base, ts[..i], ts[i..end], PutTicket);
          assert ts[..i] + ts[i..end] == ts[..end];
        }
        return Some(o.error);
      }
      assert run == Run(tickets, None);
      ExtendRun(base, ts, i, end, old(tickets), tickets);
      e := None;
    }

    /** The design loop of `importDatabase`. */
    method ImportDesigns(ds: seq<Design>) returns (e: Option<string>)
      modifies this
      ensures e.None? ==> PutEach(old(designs), ds, PutDesign) == Run(designs, None)
      ensures old(isOpen) ==> e == PutEach(old(designs), ds, PutDesign).error && designs == PutEach(old(designs), ds, PutDesign).store
      ensures !old(isOpen) ==> e == (if ds == [] then None else Some(NotInitialized)) && designs == old(designs)
      ensures isOpen == old(isOpen) && tickets == old(tickets) && batches == old(batches)
    {
      for j := 0 to |ds|
        invariant PutEach(old(designs), ds[..j], PutDesign) == Run(designs, None)
        invariant !old(isOpen) ==> j == 0
        invariant isOpen == old(isOpen) && tickets == old(tickets) && batches == old(batches)
      {
        var o := SaveDesign(ds[j]);
        if o.Rejected? {
          return Some(o.error);
        }
        assert ds[..j + 1][..j] == ds[..j];
      }
      assert ds[..|ds|] == ds;
      e := None;
    }

    /** The batch loop of `importDatabase`; each put is its own transaction. */
    method ImportBatches(bs: seq<Batch>) returns (e: Option<string>)
      modifies this
      ensures e.None? ==> PutEach(old(batches), bs, PutBatch) == Run(batches, None)
      ensures old(isOpen) ==> e == PutEach(old(batches), bs, PutBatch).error && batches == PutEach(old(batches), bs, PutBatch).store
      ensures !old(isOpen) ==> e == (if bs == [] then None else Some(NotInitialized)) && batches == old(batches)
      ensures isOpen == old(isOpen) && tickets == old(tickets) && designs == old(designs)
    {
      for j := 0 to |bs|
        invariant PutEach(old(batches), bs[..j], PutBatch) == Run(batches, None)
        invariant !old(isOpen) ==> j == 0
        invariant isOpen == old(isOpen) && tickets == old(tickets) && designs == old(designs)
      {
        var o := SaveBatch(bs[j]);
        if o.Rejected? {
          if isOpen {
            assert bs[..j + 1][..j] == bs[..j];
            PrefixFailure(old(batches), bs, j + 1, PutBatch);
          }
          return Some(o.error);
        }
        assert bs[..j + 1][..j] == bs[..j];
      }
      assert bs[..|bs|] == bs;
      e := None;
    }
  }

  /** A destructuring default: a missing array reads as `[]`. */
  function OrEmpty<T>(o: Option<seq<T>>): seq<T>
  {
    if o.Some? then o.value else []
  }
}
