/**
 * The ticket lifecycle of hooks/useTicketManager.ts: the in-memory ticket
 * list and last generated batch, selling, the gate scan protocol, issuing a
 * batch, and deleting.
 *
 * Each operation that changes the lists is a method of `Manager` whose
 * postcondition ties the new lists to a pure step function of the old ones
 * (`Sell`, `Scan`, `Update`, ...); what the lifecycle promises is proved
 * about those functions. The remote saves the hook starts (`db.*`) are
 * modelled in ApiDatabase; here only their outcome matters, and only where
 * the hook looks at it (`deleteTicket`).
 */
module TicketManager {
  import opened Tickets
  import opened TicketService

  datatype Response = Response(success: bool, message: string, ticket: Option<Ticket>)

  /** The two lists the hook keeps in React state. */
  datatype State = State(tickets: seq<Ticket>, batch: seq<Ticket>)

  /** A step's result: the response returned and the lists afterwards. */
  datatype Step = Step(response: Response, state: State)

  const MsgSerialNotFound := "Ticket serial not found."
  const MsgCounterfeit := "Invalid token signature. Counterfeit detected."
  const MsgBadPayload := "Invalid QR code payload structure."
  const MsgUndecodable := "Could not decode QR code. Invalid format."
  const MsgStoredTokenInvalid := "Internal validation error. Stored token is invalid."
  const MsgNotFound := "Ticket not found in system. Potential counterfeit."
  const MsgNotSold := "This ticket has not been sold yet."
  const MsgWelcome := "Check-in successful. Welcome!"
  const DuplicatePrefix := "DUPLICATE SCAN. Already used at "

  // ------------------------------------------------------------- lookups

  /** `findTicket`: the first ticket whose serial is the cleaned argument. */
  function FindIn(ts: seq<Ticket>, serial: string): (r: Option<Ticket>)
  {
    FindKey(ts, Clean(serial))
  }

  /** The first ticket whose serial is `key`. */
  function FindKey(ts: seq<Ticket>, key: string): (r: Option<Ticket>)
    ensures r.Some? ==> exists i :: 0 <= i < |ts| && ts[i] == r.value && ts[i].serial == key
                          && forall j :: 0 <= j < i ==> ts[j].serial != key
    ensures r.None? <==> forall j :: 0 <= j < |ts| ==> ts[j].serial != key
  {
    match IndexWhere(ts, SerialOf, key)
    case None => None
    case Some(i) => Some(ts[i])
  }

  /** `prev.map(t => t.serial === key ? { ...t, ...u } : t)`. */
  function ApplyTo(ts: seq<Ticket>, key: string, u: Patch): seq<Ticket>
  {
    seq(|ts|, i requires 0 <= i < |ts| => MergeIf(ts[i], key, u))
  }

  function MergeIf(t: Ticket, key: string, u: Patch): Ticket
  {
    if t.serial == key then Merge(t, u) else t
  }

  /** `prev.filter(t => t.serial !== serial)`. */
  function Without(ts: seq<Ticket>, serial: string): (r: seq<Ticket>)
    ensures forall t :: t in r <==> t in ts && t.serial != serial
  {
    if ts == [] then []
    else
      assert ts == [ts[0]] + ts[1..];
      (if ts[0].serial != serial then [ts[0]] else []) + Without(ts[1..], serial)
  }

  predicate DistinctSerials(ts: seq<Ticket>)
  {
    forall i, j :: 0 <= i < j < |ts| ==> ts[i].serial != ts[j].serial
  }

  // ------------------------------------------------------------- updates

  /** `updateTicket(serial, updates)`: merge into every entry of both lists whose serial is the cleaned one. */
  function Update(s: State, serial: string, u: Patch): State
  {
    State(ApplyTo(s.tickets, Clean(serial), u), ApplyTo(s.batch, Clean(serial), u))
  }

  function SellPatch(now: string): Patch
  {
    NoChange.(status := Some(SOLD), soldAt := Some(now))
  }

  function UsePatch(now: string, device: string): Patch
  {
    NoChange.(status := Some(USED), usedAt := Some(now), usedByDevice := Some(device))
  }

  /** `ticket.status.toLowerCase()` for the statuses `sellTicket` rejects. */
  function StatusLower(s: TicketStatus): string
  {
    match s
    case UNSOLD => "unsold"
    case SOLD => "sold"
    case USED => "used"
  }

  /**
   * How the duplicate-scan message shows the device. A USED entry reaches
   * the hook without a device only as a row loaded from the server, whose
   * `usedByDevice` column is NULL there, and a template literal shows that
   * as `null`.
   */
  function Show(o: Option<string>): string
  {
    match o
    case Some(v) => v
    case None => "null"
  }

  /** `GATE-` followed by four alphabet characters. */
  predicate IsGateTag(d: string)
  {
    |d| == 9 && d[..5] == "GATE-" && forall i :: 5 <= i < 9 ==> d[i] in Alphabet
  }

  /** The scanning device's tag: `GATE-` and four random alphabet characters. */
  method DrawGateTag() returns (device: string)
    ensures IsGateTag(device)
  {
    var chars := GenerateRandomChars(4);
    device := "GATE-" + chars;
    assert device[..5] == "GATE-" && device[5..] == chars;
    forall i | 5 <= i < 9
      ensures device[i] in Alphabet
    {
      assert device[i] == chars[i - 5];
    }
  }

  function Reject(s: State, message: string): Step
  {
    Step(Response(false, message, None), s)
  }

  // ---------------------------------------------------------------- sell

  /** `sellTicket(serial)`: UNSOLD to SOLD; the response carries the ticket as it was before. */
  function Sell(s: State, serial: string, now: string): Step
  {
    match FindIn(s.tickets, serial)
    case None => Reject(s, MsgSerialNotFound)
    case Some(t) =>
      if t.status != UNSOLD then Reject(s, "Ticket already " + StatusLower(t.status) + ".")
      else Step(Response(true, "Ticket " + serial + " sold successfully!", Some(t)),
                Update(s, serial, SellPatch(now)))
  }

  // ---------------------------------------------------------------- scan

  /** The message for a second scan, naming when and by which device the ticket was used. */
  function DuplicateMessage(showDate: Option<string> -> string, t: Ticket): string
  {
    DuplicatePrefix + showDate(t.usedAt) + " by " + Show(t.usedByDevice) + "."
  }

  /** Steps 4 and 5 of `scanTicket`: existence, then the status dispatch. */
  function Dispatch(s: State, found: Option<Ticket>, now: string, device: string,
                    showDate: Option<string> -> string): Step
  {
    match found
    case None => Reject(s, MsgNotFound)
    case Some(t) =>
      match t.status
      case UNSOLD => Reject(s, MsgNotSold)
      case USED => Reject(s, DuplicateMessage(showDate, t))
      case SOLD =>
        Step(Response(true, MsgWelcome, Some(Merge(t, UsePatch(now, device)))),
             Update(s, t.serial, UsePatch(now, device)))
  }

  /**
   * Steps 1 to 3 of `scanTicket(scannedData)`: input holding a '.' is a
   * token (verify the signature, decode the payload, look the serial up);
   * anything else is a bare serial (look it up, then re-verify the stored
   * token). An error carries the rejection message.
   */
  function Lookup(p: Primitives, ts: seq<Ticket>, scannedData: string): Result<Option<Ticket>>
  {
    var cleaned := Trim(scannedData);
    if '.' in cleaned then
      if !VerifyToken(p, cleaned) then Err(MsgCounterfeit)
      else match p.decode(Split(cleaned)[0])
        case Undecodable => Err(MsgUndecodable)
        case Decoded(field) =>
          if field.None? || field.value == "" then Err(MsgBadPayload)
          else Ok(FindIn(ts, field.value))
    else
      var found := FindIn(ts, cleaned);
      if found.Some? && !VerifyToken(p, found.value.token) then Err(MsgStoredTokenInvalid)
      else Ok(found)
  }

  /**
   * `scanTicket(scannedData)`: the lookup, then the dispatch. `device` is
   * the `GATE-` tag the hook draws, `now` the clock reading, `showDate` the
   * `toLocaleString` of a stored `usedAt`.
   */
  function Scan(p: Primitives, showDate: Option<string> -> string, s: State,
                scannedData: string, now: string, device: string): Step
  {
    match Lookup(p, s.tickets, scannedData)
    case Err(msg) => Reject(s, msg)
    case Ok(found) => Dispatch(s, found, now, device, showDate)
  }

  // ------------------------------------------------------------ issuance

  /** The type of each ticket a batch issues, in issue order: `max(0, quantity)` slots per type. */
  function Slots(types: seq<TicketTypeInfo>): seq<TicketTypeInfo>
  {
    if types == [] then []
    else
      var last := types[|types| - 1];
      Slots(types[..|types| - 1]) + Copies(last, if last.quantity < 0 then 0 else last.quantity)
  }

  function Copies(ty: TicketTypeInfo, n: nat): (r: seq<TicketTypeInfo>)
    ensures |r| == n && forall k :: 0 <= k < n ==> r[k] == ty
  {
    if n == 0 then [] else Copies(ty, n - 1) + [ty]
  }

  function TotalQuantity(types: seq<TicketTypeInfo>): nat
  {
    if types == [] then 0
    else (if types[0].quantity < 0 then 0 else types[0].quantity) + TotalQuantity(types[1..])
  }

  /** A ticket as `generateTickets` issues it for `ty` in batch `batchId`. */
  ghost predicate IsIssued(p: Primitives, t: Ticket, ty: TicketTypeInfo, batchId: string)
  {
    && IsSerialFor(t.serial, ty.name)
    && IsTokenFor(p, t.token, t.serial)
    && t.status == SOLD
    && t.ticketTypeName == ty.name && t.price == ty.price && t.stubColor == ty.stubColor
    && t.printBatchId == batchId
    && t.soldAt.None? && t.usedAt.None? && t.usedByDevice.None?
  }

  function DigitChar(d: nat): char
    requires d < 10
  {
    ('0' as int + d) as char
  }

  /** The decimal text of a clock reading (`${Date.now()}`). */
  function Decimal(n: nat): string
  {
    if n < 10 then [DigitChar(n)] else Decimal(n / 10) + [DigitChar(n % 10)]
  }

  // ---------------------------------------------------------- properties

  /** Merging a patch that keeps serial and token leaves the first match where it was, now merged. */
  lemma FindAfterApply(ts: seq<Ticket>, key: string, u: Patch)
    requires KeepsIdentity(u)
    requires FindKey(ts, key).Some?
    ensures FindKey(ApplyTo(ts, key, u), key) == Some(Merge(FindKey(ts, key).value, u))
  {
    var t := FindKey(ts, key).value;
    var k :| 0 <= k < |ts| && ts[k] == t && ts[k].serial == key
             && forall j :: 0 <= j < k ==> ts[j].serial != key;
    var r := ApplyTo(ts, key, u);
    assert r[k] == Merge(t, u) && r[k].serial == key;
    forall j | 0 <= j < k ensures r[j].serial != key {
      assert r[j] == ts[j];
    }
  }

  /** The first entry with a given cleaned serial, when it exists, has that serial as its own cleaned serial. */
  lemma FoundIsClean(ts: seq<Ticket>, serial: string)
    requires FindIn(ts, serial).Some?
    ensures FindIn(ts, serial).value.serial == Clean(serial)
    ensures Clean(FindIn(ts, serial).value.serial) == FindIn(ts, serial).value.serial
  {
    CleanIdempotent(serial);
  }

  /**
   * Selling succeeds exactly when an UNSOLD ticket carries the cleaned
   * serial. A success turns every entry of both lists with that serial to
   * SOLD with `soldAt` set and answers with the ticket as it was; with
   * distinct serials that is the one UNSOLD entry and nothing else changes.
   * A rejection changes nothing.
   */
  lemma SellStep(s: State, serial: string, now: string)
    requires DistinctSerials(s.tickets)
    ensures Sell(s, serial, now).response.success <==>
      exists k :: 0 <= k < |s.tickets| && s.tickets[k].serial == Clean(serial) && s.tickets[k].status == UNSOLD
    ensures !Sell(s, serial, now).response.success ==> Sell(s, serial, now).state == s
    ensures |Sell(s, serial, now).state.tickets| == |s.tickets|
    ensures Sell(s, serial, now).response.success ==>
      && Sell(s, serial, now).response.ticket == FindIn(s.tickets, serial)
      && Sell(s, serial, now).state.batch == ApplyTo(s.batch, Clean(serial), SellPatch(now))
      && forall i :: 0 <= i < |s.tickets| && s.tickets[i].serial == Clean(serial) ==>
           Sell(s, serial, now).state.tickets[i] == s.tickets[i].(status := SOLD, soldAt := Some(now))
    ensures forall i :: 0 <= i < |s.tickets| && Sell(s, serial, now).state.tickets[i] != s.tickets[i] ==>
      s.tickets[i].serial == Clean(serial) && s.tickets[i].status == UNSOLD &&
      Sell(s, serial, now).state.tickets[i] == s.tickets[i].(status := SOLD, soldAt := Some(now))
  {
    var s2 := Sell(s, serial, now).state;
    match FindIn(s.tickets, serial) {
      case None =>
      case Some(t) =>
        var k :| 0 <= k < |s.tickets| && s.tickets[k] == t && t.serial == Clean(serial)
                 && forall j :: 0 <= j < k ==> s.tickets[j].serial != Clean(serial);
        if t.status == UNSOLD {
          forall i | 0 <= i < |s.tickets| && s.tickets[i].serial == Clean(serial)
            ensures s2.tickets[i] == s.tickets[i].(status := SOLD, soldAt := Some(now))
          {
            assert s2.tickets[i] == MergeIf(s.tickets[i], Clean(serial), SellPatch(now));
          }
          forall i | 0 <= i < |s.tickets| && s2.tickets[i] != s.tickets[i]
            ensures s.tickets[i].serial == Clean(serial) && s.tickets[i].status == UNSOLD
          {
            assert s2.tickets[i] == MergeIf(s.tickets[i], Clean(serial), SellPatch(now));
            assert i == k;
          }
        } else {
          forall k' | 0 <= k' < |s.tickets| && s.tickets[k'].serial == Clean(serial)
            ensures s.tickets[k'].status != UNSOLD
          {
            assert k' == k;
          }
        }
    }
  }

  /**
   * The answers of `sellTicket`, whatever the list holds: the not-found
   * message when no entry has the cleaned serial, the already-sold or
   * already-used message when the first such entry is not UNSOLD, and the
   * success message naming the serial as typed.
   */
  lemma SellMessages(s: State, serial: string, now: string)
    ensures (forall k :: 0 <= k < |s.tickets| ==> s.tickets[k].serial != Clean(serial)) ==>
      Sell(s, serial, now) == Reject(s, MsgSerialNotFound)
    ensures forall k :: 0 <= k < |s.tickets| && s.tickets[k].serial == Clean(serial) && s.tickets[k].status != UNSOLD
                        && (forall j :: 0 <= j < k ==> s.tickets[j].serial != Clean(serial)) ==>
      Sell(s, serial, now) == Reject(s, "Ticket already " + StatusLower(s.tickets[k].status) + ".")
    ensures Sell(s, serial, now).response.success ==>
      Sell(s, serial, now).response.message == "Ticket " + serial + " sold successfully!"
  {
    forall k | 0 <= k < |s.tickets| && s.tickets[k].serial == Clean(serial) && s.tickets[k].status != UNSOLD
               && (forall j :: 0 <= j < k ==> s.tickets[j].serial != Clean(serial))
      ensures Sell(s, serial, now) == Reject(s, "Ticket already " + StatusLower(s.tickets[k].status) + ".")
    {
      var t := FindIn(s.tickets, serial).value;
      var k0 :| 0 <= k0 < |s.tickets| && s.tickets[k0] == t && t.serial == Clean(serial)
                && forall j :: 0 <= j < k0 ==> s.tickets[j].serial != Clean(serial);
      assert k0 == k;
    }
  }

  /**
   * Steps 4 and 5 of a scan succeed exactly when the lookup found a SOLD
   * ticket. A success turns every entry of both lists with its serial to
   * USED with the scan's time and device, and answers with the found entry
   * as it now is; with distinct serials nothing else changes.
   */
  lemma DispatchStep(s: State, x: string, now: string, device: string, showDate: Option<string> -> string)
    requires DistinctSerials(s.tickets)
    ensures var d := Dispatch(s, FindIn(s.tickets, x), now, device, showDate);
      && (d.response.success <==> FindIn(s.tickets, x).Some? && FindIn(s.tickets, x).value.status == SOLD)
      && (!d.response.success ==> d.state == s)
      && |d.state.tickets| == |s.tickets|
      && forall i :: 0 <= i < |s.tickets| && d.state.tickets[i] != s.tickets[i] ==>
           s.tickets[i].status == SOLD &&
           d.state.tickets[i] == s.tickets[i].(status := USED, usedAt := Some(now), usedByDevice := Some(device))
    ensures var d := Dispatch(s, FindIn(s.tickets, x), now, device, showDate);
      d.response.success ==>
        && d.state.batch == ApplyTo(s.batch, Clean(x), UsePatch(now, device))
        && (forall i :: 0 <= i < |s.tickets| && s.tickets[i].serial == Clean(x) ==>
              d.state.tickets[i] == s.tickets[i].(status := USED, usedAt := Some(now), usedByDevice := Some(device)))
        && exists k :: 0 <= k < |s.tickets| && s.tickets[k].status == SOLD
             && d.state.tickets[k] == s.tickets[k].(status := USED, usedAt := Some(now), usedByDevice := Some(device))
             && d.response.ticket == Some(d.state.tickets[k])
  {
    var d := Dispatch(s, FindIn(s.tickets, x), now, device, showDate);
    match FindIn(s.tickets, x) {
      case None =>
      case Some(t) =>
        FoundIsClean(s.tickets, x);
        var k :| 0 <= k < |s.tickets| && s.tickets[k] == t && t.serial == Clean(x)
                 && forall j :: 0 <= j < k ==> s.tickets[j].serial != Clean(x);
        if t.status == SOLD {
          forall i | 0 <= i < |s.tickets| && s.tickets[i].serial == Clean(x)
            ensures d.state.tickets[i] == s.tickets[i].(status := USED, usedAt := Some(now), usedByDevice := Some(device))
          {
            assert d.state.tickets[i] == MergeIf(s.tickets[i], t.serial, UsePatch(now, device));
          }
          forall i | 0 <= i < |s.tickets| && d.state.tickets[i] != s.tickets[i]
            ensures s.tickets[i].status == SOLD
          {
            assert d.state.tickets[i] == MergeIf(s.tickets[i], t.serial, UsePatch(now, device));
            assert i == k;
          }
          assert d.state.tickets[k] == Merge(t, UsePatch(now, device));
        }
    }
  }

  /**
   * With distinct serials a scan changes at most one entry, from SOLD to
   * USED with the scan's time and gate device, and an accepted scan does
   * change one, answering with it; a rejected scan changes nothing.
   */
  lemma ScanStep(p: Primitives, showDate: Option<string> -> string, s: State,
                 data: string, now: string, device: string)
    requires DistinctSerials(s.tickets)
    ensures !Scan(p, showDate, s, data, now, device).response.success ==>
      Scan(p, showDate, s, data, now, device).state == s
    ensures |Scan(p, showDate, s, data, now, device).state.tickets| == |s.tickets|
    ensures forall i :: 0 <= i < |s.tickets| && Scan(p, showDate, s, data, now, device).state.tickets[i] != s.tickets[i] ==>
      s.tickets[i].status == SOLD &&
      Scan(p, showDate, s, data, now, device).state.tickets[i] ==
        s.tickets[i].(status := USED, usedAt := Some(now), usedByDevice := Some(device))
    ensures var st := Scan(p, showDate, s, data, now, device);
      st.response.success ==>
        exists k :: 0 <= k < |s.tickets| && s.tickets[k].status == SOLD
          && st.state.tickets[k] == s.tickets[k].(status := USED, usedAt := Some(now), usedByDevice := Some(device))
          && st.response.ticket == Some(st.state.tickets[k])
  {
    if Lookup(p, s.tickets, data).Ok? {
      var x := LookupKey(p, s.tickets, data);
      assert Scan(p, showDate, s, data, now, device) == Dispatch(s, FindIn(s.tickets, x), now, device, showDate);
      DispatchStep(s, x, now, device, showDate);
    }
  }

  /** A lookup that does not reject is `findTicket` of some serial: the payload's, or the trimmed input. */
  lemma LookupKey(p: Primitives, ts: seq<Ticket>, data: string) returns (x: string)
    requires Lookup(p, ts, data).Ok?
    ensures Lookup(p, ts, data).value == FindIn(ts, x)
  {
    var cleaned := Trim(data);
    x := if '.' in cleaned then p.decode(Split(cleaned)[0]).s.value else cleaned;
  }

  /**
   * The serial a scan hands to `findTicket`: the payload's `s` for a token
   * that verifies and decodes to a non-empty serial, the trimmed input for
   * anything without a '.', and none when the token path rejects first.
   */
  function ScannedSerial(p: Primitives, scannedData: string): Option<string>
  {
    var cleaned := Trim(scannedData);
    if '.' !in cleaned then Some(cleaned)
    else if !VerifyToken(p, cleaned) then None
    else match p.decode(Split(cleaned)[0])
      case Decoded(Some(x)) => if x == "" then None else Some(x)
      case _ => None
  }

  /**
   * Each way a scan is refused, with its message; a refused scan changes
   * nothing. The stored-token check applies only to a serial typed without
   * a '.', and a found ticket is refused by its status.
   */
  lemma ScanMessages(p: Primitives, showDate: Option<string> -> string, s: State,
                     data: string, now: string, device: string)
    ensures var c := Trim(data);
      '.' in c && !VerifyToken(p, c) ==>
        Scan(p, showDate, s, data, now, device) == Reject(s, MsgCounterfeit)
    ensures var c := Trim(data);
      '.' in c && VerifyToken(p, c) && p.decode(Split(c)[0]).Undecodable? ==>
        Scan(p, showDate, s, data, now, device) == Reject(s, MsgUndecodable)
    ensures var c := Trim(data);
      '.' in c && VerifyToken(p, c) && p.decode(Split(c)[0]) in {Decoded(None), Decoded(Some(""))} ==>
        Scan(p, showDate, s, data, now, device) == Reject(s, MsgBadPayload)
    ensures var c := Trim(data);
      '.' !in c && FindIn(s.tickets, c).Some? && !VerifyToken(p, FindIn(s.tickets, c).value.token) ==>
        Scan(p, showDate, s, data, now, device) == Reject(s, MsgStoredTokenInvalid)
    ensures ScannedSerial(p, data).Some? && FindIn(s.tickets, ScannedSerial(p, data).value).None? ==>
      Scan(p, showDate, s, data, now, device) == Reject(s, MsgNotFound)
    ensures ScannedSerial(p, data).Some? && FindIn(s.tickets, ScannedSerial(p, data).value).Some? ==>
      var t := FindIn(s.tickets, ScannedSerial(p, data).value).value;
      ('.' in Trim(data) || VerifyToken(p, t.token)) ==>
        && (t.status == UNSOLD ==> Scan(p, showDate, s, data, now, device) == Reject(s, MsgNotSold))
        && (t.status == USED ==> Scan(p, showDate, s, data, now, device) == Reject(s, DuplicateMessage(showDate, t)))
        && (t.status == SOLD ==> Scan(p, showDate, s, data, now, device).response.success)
  {
  }

  /** With distinct serials a USED entry is final: no sale and no scan changes it. */
  lemma UsedIsTerminal(p: Primitives, showDate: Option<string> -> string, s: State,
                       serial: string, data: string, now: string, device: string, i: nat)
    requires DistinctSerials(s.tickets)
    requires i < |s.tickets| && s.tickets[i].status == USED
    ensures |Sell(s, serial, now).state.tickets| == |s.tickets|
    ensures Sell(s, serial, now).state.tickets[i] == s.tickets[i]
    ensures |Scan(p, showDate, s, data, now, device).state.tickets| == |s.tickets|
    ensures Scan(p, showDate, s, data, now, device).state.tickets[i] == s.tickets[i]
  {
    SellStep(s, serial, now);
    ScanStep(p, showDate, s, data, now, device);
  }

  /**
   * Serials are never checked for uniqueness, and `updateTicket` rewrites
   * every entry with the serial: with a used duplicate behind an unsold
   * entry, selling the serial turns the used entry back to SOLD.
   */
  lemma DuplicateSerialUndoesUse(a: Ticket, b: Ticket, now: string)
    requires Clean(a.serial) == a.serial && a.status == UNSOLD
    requires b.serial == a.serial && b.status == USED
    ensures Sell(State([a, b], []), a.serial, now).response.success
    ensures Sell(State([a, b], []), a.serial, now).state.tickets == [
      a.(status := SOLD, soldAt := Some(now)), b.(status := SOLD, soldAt := Some(now))]
  {
    var s := State([a, b], []);
    assert IndexWhere(s.tickets, SerialOf, a.serial) == Some(0);
    assert FindIn(s.tickets, a.serial) == Some(a);
  }

  /**
   * Once a scan admits a ticket, scanning the same data again is rejected
   * as a duplicate naming the first scan's time and gate device, and changes nothing.
   */
  lemma SecondScanIsDuplicate(p: Primitives, showDate: Option<string> -> string, s: State,
                              data: string, now: string, device: string, later: string, device2: string)
    requires Scan(p, showDate, s, data, now, device).response.success
    ensures var s2 := Scan(p, showDate, s, data, now, device).state;
      Scan(p, showDate, s2, data, later, device2) ==
        Reject(s2, DuplicatePrefix + showDate(Some(now)) + " by " + device + ".")
  {
    var cleaned := Trim(data);
    var x := if '.' in cleaned then p.decode(Split(cleaned)[0]).s.value else cleaned;
    assert Scan(p, showDate, s, data, now, device) == Dispatch(s, FindIn(s.tickets, x), now, device, showDate);
    var t := FindIn(s.tickets, x).value;
    assert t.status == SOLD;
    var u := UsePatch(now, device);
    FoundIsClean(s.tickets, x);
    var s2 := Update(s, t.serial, u);
    FindAfterApply(s.tickets, Clean(x), u);
    assert FindIn(s2.tickets, x) == Some(Merge(t, u));
    assert Scan(p, showDate, s2, data, later, device2) == Dispatch(s2, FindIn(s2.tickets, x), later, device2, showDate);
  }

  /** A generated token carries no whitespace at either end, so `trim` leaves it as it is. */
  lemma SignedTokenIsTrimmed(p: Primitives, serial: string, iat: int)
    requires Base64Alphabet(p) || p.btoa(p.stringify(serial, iat)).None?
    ensures Trim(GenerateSignedToken(p, serial, iat)) == GenerateSignedToken(p, serial, iat)
    ensures '.' in GenerateSignedToken(p, serial, iat)
  {
    var enc := EncodedPayload(p, serial, iat);
    var sig := ExpectedSignature(p, enc);
    var token := GenerateSignedToken(p, serial, iat);
    assert token[|enc|] == '.';
    if enc != [] {
      EncodedPayloadShape(p, serial, iat);
      assert token[0] == enc[0];
    }
    TrimStartFixed(token);
    if sig != [] {
      assert token[|token| - 1] == sig[|sig| - 1];
      assert IsHexDigit(sig[|sig| - 1]);
    }
    TrimEndFixed(token);
  }

  /**
   * The happy path end to end: a SOLD ticket whose token was signed for its
   * serial, and which is the entry its serial finds, is admitted when its
   * token is scanned.
   */
  lemma IssuedTokenAdmits(p: Primitives, showDate: Option<string> -> string, s: State,
                          t: Ticket, iat: int, now: string, device: string)
    requires Base64Alphabet(p) && PayloadRoundTrips(p)
    requires p.btoa(p.stringify(t.serial, iat)).Some?
    requires t.token == GenerateSignedToken(p, t.serial, iat)
    requires t.serial != "" && FindIn(s.tickets, t.serial) == Some(t)
    requires t.status == SOLD
    ensures Scan(p, showDate, s, t.token, now, device).response ==
      Response(true, MsgWelcome, Some(Merge(t, UsePatch(now, device))))
  {
    SignedTokenIsTrimmed(p, t.serial, iat);
    SignThenVerify(p, t.serial, iat);
    SignedTokenDecodes(p, t.serial, iat);
    assert Lookup(p, s.tickets, t.token) == Ok(Some(t));
  }

  /** A token whose signature part is not the payload's expected signature is rejected as counterfeit. */
  lemma ForgedSignatureRejected(p: Primitives, showDate: Option<string> -> string, s: State,
                                enc: string, sig: string, now: string, device: string)
    requires '.' !in enc && '.' !in sig
    requires enc == [] || !IsSpace(enc[0])
    requires sig == [] || !IsSpace(sig[|sig| - 1])
    requires sig != ExpectedSignature(p, enc)
    ensures Scan(p, showDate, s, enc + "." + sig, now, device) == Reject(s, MsgCounterfeit)
  {
    var token := enc + "." + sig;
    assert token[|enc|] == '.';
    if enc != [] {
      assert token[0] == enc[0];
    }
    TrimStartFixed(token);
    if sig != [] {
      assert token[|token| - 1] == sig[|sig| - 1];
    }
    TrimEndFixed(token);
    SplitTwoParts(enc, sig);
    VerifyTokenExact(p, token);
  }

  /**
   * A token signed while `btoa` threw has an empty payload part: it passes
   * the signature check, then fails to decode.
   */
  lemma EmptyPayloadTokenUndecodable(p: Primitives, showDate: Option<string> -> string, s: State,
                                     serial: string, iat: int, now: string, device: string)
    requires p.btoa(p.stringify(serial, iat)).None?
    requires EmptyIsUndecodable(p)
    ensures Scan(p, showDate, s, GenerateSignedToken(p, serial, iat), now, device) == Reject(s, MsgUndecodable)
  {
    SignedTokenIsTrimmed(p, serial, iat);
    EmptyPayloadTokenVerifies(p, serial, iat);
  }

  /** Every ticket a batch issues carries a token that passes verification. */
  lemma IssuedTicketVerifies(p: Primitives, t: Ticket, ty: TicketTypeInfo, batchId: string)
    requires Base64Alphabet(p)
    requires IsIssued(p, t, ty, batchId)
    ensures VerifyToken(p, t.token)
  {
    var iat :| t.token == GenerateSignedToken(p, t.serial, iat);
    SignThenVerify(p, t.serial, iat);
  }

  lemma {:induction false} TotalQuantityAppend(a: seq<TicketTypeInfo>, b: seq<TicketTypeInfo>)
    ensures TotalQuantity(a + b) == TotalQuantity(a) + TotalQuantity(b)
  {
    if a == [] {
      assert a + b == b;
    } else {
      assert (a + b)[1..] == a[1..] + b;
      TotalQuantityAppend(a[1..], b);
    }
  }

  /** A batch holds as many tickets as the types' quantities add up to, negative ones counting zero. */
  lemma {:induction false} SlotsCount(types: seq<TicketTypeInfo>)
    ensures |Slots(types)| == TotalQuantity(types)
  {
    if types != [] {
      var init := types[..|types| - 1];
      var last := types[|types| - 1];
      SlotsCount(init);
      assert types == init + [last];
      TotalQuantityAppend(init, [last]);
      assert TotalQuantity([last]) == (if last.quantity < 0 then 0 else last.quantity) by {
        assert [last][1..] == [];
      }
    }
  }

  // --------------------------------------------------------------- class

  class Manager {
    const prims: Primitives
    /** `new Date(x).toLocaleString()`, used in the duplicate-scan message. */
    const showDate: Option<string> -> string
    var tickets: seq<Ticket>
    var lastGeneratedBatch: seq<Ticket>

    function Current(): State
      reads this
    {
      State(tickets, lastGeneratedBatch)
    }

    constructor(p: Primitives, showDate: Option<string> -> string)
      ensures prims == p && this.showDate == showDate
      ensures tickets == [] && lastGeneratedBatch == []
    {
      prims := p;
      this.showDate := showDate;
      tickets := [];
      lastGeneratedBatch := [];
    }

    /** The initialisation effect: the tickets fetched from the store replace the list. */
    method Load(existing: seq<Ticket>)
      modifies this
      ensures tickets == existing && lastGeneratedBatch == old(lastGeneratedBatch)
    {
      tickets := existing;
    }

    function FindTicket(serial: string): (r: Option<Ticket>)
      reads this
      ensures r.Some? ==> r.value.serial == Clean(serial)
      ensures r.Some? ==> exists i :: 0 <= i < |tickets| && tickets[i] == r.value
                            && forall j :: 0 <= j < i ==> tickets[j].serial != Clean(serial)
      ensures r.None? <==> forall j :: 0 <= j < |tickets| ==> tickets[j].serial != Clean(serial)
    {
      FindIn(tickets, serial)
    }

    method UpdateTicket(serial: string, updates: Patch)
      modifies this
      ensures Current() == Update(old(Current()), serial, updates)
    {
      ApplyUpdates(Clean(serial), updates);
    }

    /** The two `setState` calls of `updateTicket`, for an already cleaned key. */
    method ApplyUpdates(key: string, updates: Patch)
      modifies this
      ensures tickets == ApplyTo(old(tickets), key, updates)
      ensures lastGeneratedBatch == ApplyTo(old(lastGeneratedBatch), key, updates)
    {
      tickets := ApplyTo(tickets, key, updates);
      lastGeneratedBatch := ApplyTo(lastGeneratedBatch, key, updates);
    }

    method SellTicket(serial: string, now: string) returns (res: Response)
      modifies this
      ensures Step(res, Current()) == Sell(old(Current()), serial, now)
    {
      var ticket := FindTicket(serial);
      if ticket.None? {
        return Response(false, MsgSerialNotFound, None);
      }
      if ticket.value.status != UNSOLD {
        return Response(false, "Ticket already " + StatusLower(ticket.value.status) + ".", None);
      }
      UpdateTicket(serial, SellPatch(now));
      res := Response(true, "Ticket " + serial + " sold successfully!", ticket);
    }

    method ScanTicket(scannedData: string, now: string) returns (res: Response)
      modifies this
      ensures exists device :: (IsGateTag(device) &&
        Step(res, Current()) == Scan(prims, showDate, old(Current()), scannedData, now, device))
    {
      var device := DrawGateTag();
      var looked := Lookup(prims, tickets, scannedData);
      if looked.Err? {
        return Response(false, looked.error, None);
      }
      var ticket := looked.value;
      if ticket.None? {
        res := Response(false, MsgNotFound, None);
      } else {
        var t := ticket.value;
        match t.status {
          case UNSOLD =>
            res := Response(false, MsgNotSold, None);
          case SOLD =>
            var updates := UsePatch(now, device);
            UpdateTicket(t.serial, updates);
            res := Response(true, MsgWelcome, Some(Merge(t, updates)));
          case USED =>
            res := Response(false, DuplicateMessage(showDate, t), None);
        }
      }
    }

    /**
     * `generateTickets(ticketTypes)`: `batchMillis` is the `Date.now()` that
     * names the batch; each token's `iat` is another, arbitrary, clock
     * reading. Saving the batch remotely is left to ApiDatabase; the hook
     * swallows its failure, so the lists change either way.
     */
    method GenerateTickets(ticketTypes: seq<TicketTypeInfo>, batchMillis: nat)
      modifies this
      ensures tickets == old(tickets) + lastGeneratedBatch
      ensures |lastGeneratedBatch| == |Slots(ticketTypes)|
      ensures forall k :: 0 <= k < |lastGeneratedBatch| ==>
        IsIssued(prims, lastGeneratedBatch[k], Slots(ticketTypes)[k], "BATCH-" + Decimal(batchMillis))
    {
      var newTickets: seq<Ticket> := [];
      var printBatchId := "BATCH-" + Decimal(batchMillis);
      for j := 0 to |ticketTypes|
        invariant tickets == old(tickets)
        invariant |newTickets| == |Slots(ticketTypes[..j])|
        invariant forall k :: 0 <= k < |newTickets| ==>
          IsIssued(prims, newTickets[k], Slots(ticketTypes[..j])[k], printBatchId)
      {
        var ty := ticketTypes[j];
        assert ticketTypes[..j + 1][..j] == ticketTypes[..j];
        ghost var done := newTickets;
        var i := 0;
        while i < ty.quantity
          invariant 0 <= i <= (if ty.quantity < 0 then 0 else ty.quantity)
          invariant |newTickets| == |done| + i && newTickets[..|done|] == done
          invariant tickets == old(tickets)
          invariant forall k :: |done| <= k < |newTickets| ==> IsIssued(prims, newTickets[k], ty, printBatchId)
        {
          var serial := GenerateSerial(ty.name);
          var iat: int :| true;
          var token := GenerateSignedToken(prims, serial, iat);
          var t := Ticket(serial, token, SOLD, ty.name, ty.price, printBatchId, None, None, None, ty.stubColor);
          assert IsIssued(prims, t, ty, printBatchId);
          newTickets := newTickets + [t];
          i := i + 1;
        }
        assert i == if ty.quantity < 0 then 0 else ty.quantity;
        assert Slots(ticketTypes[..j + 1]) == Slots(ticketTypes[..j]) + Copies(ty, i);
        forall k | 0 <= k < |newTickets|
          ensures IsIssued(prims, newTickets[k], Slots(ticketTypes[..j + 1])[k], printBatchId)
        {
          if k < |done| {
            assert newTickets[k] == done[k];
          }
        }
      }
      assert ticketTypes[..|ticketTypes|] == ticketTypes;
      tickets := tickets + newTickets;
      lastGeneratedBatch := newTickets;
    }

    /** `deleteTicket(serial)`: `remoteOk` is whether `db.deleteTicket` resolved; a failure is rethrown. */
    method DeleteTicket(serial: string, remoteOk: bool) returns (r: Result<()>)
      modifies this
      ensures !remoteOk ==> r.Err? && Current() == old(Current())
      ensures remoteOk ==> r.Ok? && Current() == State(Without(old(tickets), serial), Without(old(lastGeneratedBatch), serial))
    {
      if !remoteOk {
        return Err("Failed to delete ticket");
      }
      tickets := Without(tickets, serial);
      lastGeneratedBatch := Without(lastGeneratedBatch, serial);
      r := Ok(());
    }

    /** `deleteAllTickets()`: both lists empty once the store has been cleared. */
    method DeleteAllTickets(remoteOk: bool) returns (r: Result<()>)
      modifies this
      ensures !remoteOk ==> r.Err? && Current() == old(Current())
      ensures remoteOk ==> r.Ok? && tickets == [] && lastGeneratedBatch == []
    {
      if !remoteOk {
        return Err("Failed to delete all tickets");
      }
      tickets := [];
      lastGeneratedBatch := [];
      r := Ok(());
    }
  }
}
