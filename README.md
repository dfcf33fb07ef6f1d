# titantix ticket core in Dafny

A model of the core of titantix, a ticketing system. It issues serial-numbered
tickets in print batches, sells them at a box office and admits them at a gate by
scanning a signed token. The project proves properties of that model.

The modules follow the source files:

- `Tickets` (`tickets.dfy`). The record types of `types.ts`: ticket, status,
  ticket type, and the partial update that `{ ...ticket, ...updates }` merges.
  It also holds the string helpers the core shares: `toUpperCase`, `trim`, and
  the "first match" and "filter" searches over arrays.
- `TicketService` (`ticket_service.dfy`). `services/ticketService.ts`: random
  serials and signed tokens, and token verification. The foreign primitives
  (`JSON.stringify`, `btoa`, SHA-256, and the `atob`/`JSON.parse` pair) are
  function values in a `Primitives` record. What the proofs assume of them is
  stated as predicates: `Base64Alphabet`, `PayloadRoundTrips`,
  `EmptyIsUndecodable`. The lowercase-hex step is modelled concretely, so
  "hex has no dot" is proved, not assumed.
- `TicketManager` (`ticket_manager.dfy`). `hooks/useTicketManager.ts`:
  - a `Manager` class whose fields are the hook's two state lists;
  - pure step functions (`Sell`, `Lookup`, `Dispatch`, `Scan`, `Update`) that
    the methods are proved against;
  - lemmas about those steps.
- `ServerDb` (`server_db.dfy`). `server-db.js`: the SQLite `tickets` and `users`
  tables as maps keyed by primary key, in a `ServerDatabase` class. `INSERT OR
  REPLACE`, the `||` fallbacks of `updateTicket`, and the statistics query are
  written out.
- `FixTicketStatus` (`fix_ticket_status.dfy`). The one-off migration script
  `fix-ticket-status.js`: it turns every UNSOLD row into SOLD, then reports.
- `BrowserDatabase` (`browser_database.dfy`). `services/database.ts`: the
  IndexedDB stores as maps in a `Database` class. Each put is an upsert under
  the key path, rejected by the unique `token` and `batchId` indexes.
  Transactions roll back on the first failure. Backups are imported slice by
  slice.
- `ApiDatabase` (`api_database.dfy`). `services/api-database.ts`: the HTTP
  client over the server database. Reads are functions of a fetched row list.
  Writes are methods acting on a `ServerDatabase` through the routes of
  `server.js`.

Inputs from the outside world are parameters of the model:

- the clock (`now`);
- whether the remote call succeeded (`remoteOk`, `accepted`, `reachable`);
- what IndexedDB's open request returned (`openError`);
- what `JSON.parse` produced (`parsed`);
- the locale's date formatting (`showDate`).

Randomness is an arbitrary choice (`:|`): the random serial characters, the
gate device tag, and the token's issue time.

## Model

| member | source | states |
|---|---|---|
| Tickets.Merge | hooks/useTicketManager.ts:85-89 | (definition) `{ ...t, ...updates }`: each field the update carries replaces the ticket's, the others are kept; stated about lists by `TicketManager.FindAfterApply` |
| Tickets.Upper | hooks/useTicketManager.ts:70 | (definition) `toUpperCase` on ASCII letters, character by character; stated by `Tickets.UpperPointwise` and `Tickets.UpperFixed` |
| Tickets.UpperPointwise | hooks/useTicketManager.ts:70 | `toUpperCase` keeps the length and maps each character to its upper-case form |
| Tickets.TrimStartSpec | hooks/useTicketManager.ts:112 | the leading trim removes exactly the maximal whitespace prefix: the rest is a suffix that does not start with whitespace |
| Tickets.TrimEndSpec | hooks/useTicketManager.ts:112 | the trailing trim removes exactly the maximal whitespace suffix |
| Tickets.Trim | hooks/useTicketManager.ts:112 | (definition) the leading trim, then the trailing trim; stated by `Tickets.TrimIsInfix` and `Tickets.TrimIdempotent` |
| Tickets.Clean | hooks/useTicketManager.ts:70 | (definition) `toUpperCase().trim()`, the key `findTicket` and `updateTicket` use; stated by `Tickets.CleanIdempotent` and `Tickets.CleanFixed` |
| Tickets.TrimIsInfix | hooks/useTicketManager.ts:112 | `trim` returns a contiguous slice of its input that neither starts nor ends with whitespace |
| Tickets.TrimIdempotent | hooks/useTicketManager.ts:112 | trimming twice equals trimming once |
| Tickets.CleanIdempotent | hooks/useTicketManager.ts:70 | the serial cleaning `toUpperCase().trim()` is idempotent |
| Tickets.CleanFixed | hooks/useTicketManager.ts:75 | an upper-case serial without outer whitespace is left unchanged by cleaning |
| Tickets.UpperFixed | hooks/useTicketManager.ts:70 | an already upper-case string is unchanged by `toUpperCase` |
| Tickets.IndexWhere | hooks/useTicketManager.ts:71 | `Array.find`: the index found is the first whose key matches; none exactly when no key matches |
| Tickets.FilterWhere | services/api-database.ts:107 | `Array.filter`: the result holds exactly the elements whose key matches, and is no longer than the input |
| Tickets.FilterAppend | services/api-database.ts:107 | filtering keeps order: filtering a concatenation is the concatenation of the filtered parts |
| TicketService.GenerateRandomChars | services/ticketService.ts:25-32 | the result has the requested length and draws every character from the 34-character alphabet without 0 and O |
| TicketService.PadEnd | services/ticketService.ts:35 | `padEnd(n, c)` keeps the string as a prefix and fills with `c` up to length `n` |
| TicketService.SerialPrefix | services/ticketService.ts:35 | the prefix is three characters: the upper-cased first three of the type name, padded with `X` |
| TicketService.GenerateSerial | services/ticketService.ts:34-40 | the serial is `PPP-XXXX-XXXX-XXXX`: the type prefix, a dash, then three groups of four alphabet characters |
| TicketService.SerialIsCanonical | services/ticketService.ts:34-40 | a serial generated for a type name without a dot or leading blank has no dot and is unchanged by the hook's cleaning |
| TicketService.DottedTypeNameGivesDottedSerial | services/ticketService.ts:35 | the prefix is not sanitised: type name `V.I.P` yields a serial containing a dot |
| TicketService.Hex | services/ticketService.ts:21-22 | two hex characters per digest byte |
| TicketService.HexIsLowerHex | services/ticketService.ts:21-22 | every character of the hex string is a lowercase hex digit |
| TicketService.UnHexHex | services/ticketService.ts:21-22 | the hex encoding is injective: reading the digits back gives the bytes |
| TicketService.HexHasNoDot | services/ticketService.ts:21-22 | the hex string has no `.` |
| TicketService.SimpleHash | services/ticketService.ts:17-23 | the signature is lowercase hex and so contains no `.` |
| TicketService.Split | services/ticketService.ts:56 | `split('.')` yields one more part than there are dots, and no part contains a dot |
| TicketService.SplitJoin | services/ticketService.ts:56 | joining the parts with `.` gives back the string |
| TicketService.SplitTwoParts | services/ticketService.ts:56-59 | `enc + "." + sig` with dot-free halves splits into exactly `[enc, sig]` |
| TicketService.VerifyToken | services/ticketService.ts:55-65 | a token without exactly one dot is rejected |
| TicketService.VerifyTokenExact | services/ticketService.ts:55-65 | a token verifies iff it has exactly one dot and its second part equals the hash of the first part with the secret |
| TicketService.GenerateSignedToken | services/ticketService.ts:43-53 | (definition) the encoded payload of `{serial, iat}`, a dot, and the hash of the payload with the secret; stated by `TicketService.SignThenVerify` and `TicketService.SignedTokenDecodes` |
| TicketService.EncodedPayloadShape | services/ticketService.ts:7-14 | under the base64-alphabet assumption the encoded payload has no dot and no whitespace |
| TicketService.SignThenVerify | services/ticketService.ts:43-65 | every generated token verifies |
| TicketService.SignedTokenDecodes | services/ticketService.ts:43-53 | the first part of a generated token is the encoded payload, and it decodes back to the serial |
| TicketService.TamperedSignatureRejected | services/ticketService.ts:60-64 | changing any one character of the signature makes verification fail |
| TicketService.EmptyPayloadTokenVerifies | services/ticketService.ts:12 | when `btoa` throws, the token is `"." + hash("")` and still verifies |
| TicketManager.FindKey | hooks/useTicketManager.ts:71 | the first ticket whose serial is the key; none iff no ticket has it |
| TicketManager.Update | hooks/useTicketManager.ts:74-91 | (definition) both lists mapped, every entry whose serial is the cleaned serial merged with the update; stated by `TicketManager.FindAfterApply` |
| TicketManager.Sell | hooks/useTicketManager.ts:93-106 | (definition) the sale step: not found, already sold or used, or the ticket updated to SOLD; stated by `TicketManager.SellStep` and `TicketManager.SellMessages` |
| TicketManager.Lookup | hooks/useTicketManager.ts:112-151 | (definition) steps 1-3 of a scan: the token path (verify, decode, find) or the bare-serial path (find, re-verify the stored token), an error carrying the rejection message; stated by `TicketManager.ScanMessages`, `TicketManager.LookupKey`, `TicketManager.IssuedTokenAdmits` and `TicketManager.ForgedSignatureRejected` |
| TicketManager.Dispatch | hooks/useTicketManager.ts:153-175 | (definition) steps 4-5 of a scan: not found, not sold, duplicate (naming the use time and the device, `null` for the NULL column of a row loaded from the server), or the ticket updated to USED; stated by `TicketManager.DispatchStep` and `TicketManager.ScanMessages` |
| TicketManager.Scan | hooks/useTicketManager.ts:109-176 | (definition) the lookup, then the dispatch; stated by `TicketManager.ScanStep`, `TicketManager.ScanMessages`, `TicketManager.SecondScanIsDuplicate` and `TicketManager.UsedIsTerminal` |
| TicketManager.DrawGateTag | hooks/useTicketManager.ts:167 | the device tag is `GATE-` followed by four alphabet characters |
| TicketManager.FindAfterApply | hooks/useTicketManager.ts:74-91 | after an update that keeps serial and token, the first match for the key is the old match merged with the update |
| TicketManager.FoundIsClean | hooks/useTicketManager.ts:69-72 | the ticket `findTicket` returns carries exactly the cleaned serial |
| TicketManager.SellStep | hooks/useTicketManager.ts:93-106 | a sale succeeds iff an UNSOLD ticket has the cleaned serial; a success answers with the ticket as it was, turns every entry with the serial to SOLD with `soldAt` set, and merges the same patch into the batch list; with distinct serials no other entry changes; a refusal changes nothing |
| TicketManager.SellMessages | hooks/useTicketManager.ts:94-105 | the not-found message when no entry has the cleaned serial, `Ticket already <status>.` when the first such entry is not UNSOLD, and the success message naming the serial as typed |
| TicketManager.DispatchStep | hooks/useTicketManager.ts:153-175 | the dispatch succeeds iff the lookup found a SOLD ticket; a success turns every entry of both lists with its serial to USED with the scan time and device, and answers with the updated entry; with distinct serials nothing else changes; a refusal changes nothing |
| TicketManager.ScanStep | hooks/useTicketManager.ts:109-176 | a refused scan changes nothing; an accepted one turns one SOLD entry to USED with the scan time and device and answers with it; with distinct serials no other entry changes |
| TicketManager.LookupKey | hooks/useTicketManager.ts:112-151 | a lookup that does not reject is `findTicket` of some serial (the decoded payload or the trimmed input) |
| TicketManager.ScanMessages | hooks/useTicketManager.ts:109-175 | every refusal with its message and the state unchanged: a bad signature on input with a '.' is a counterfeit; a token that does not decode, or whose payload has no non-empty `s`, is refused as such; a typed serial whose stored token fails is an internal validation error; a looked-up serial with no entry is not found; a found UNSOLD ticket is not sold yet, a found USED one is a duplicate naming its use time and device; a found SOLD one is admitted |
| TicketManager.UsedIsTerminal | hooks/useTicketManager.ts:93-176 | with distinct serials, no sale and no scan changes a USED ticket |
| TicketManager.DuplicateSerialUndoesUse | hooks/useTicketManager.ts:74-106 | with a repeated serial, selling the UNSOLD copy also rewrites the USED copy to SOLD |
| TicketManager.SecondScanIsDuplicate | hooks/useTicketManager.ts:160-170 | scanning the same data again right after an accepted scan is refused as already used |
| TicketManager.SignedTokenIsTrimmed | hooks/useTicketManager.ts:112-116 | a generated token has no outer whitespace and contains a dot, so the scan takes the token path |
| TicketManager.IssuedTokenAdmits | hooks/useTicketManager.ts:116-138 | scanning the token of a SOLD ticket admits it and returns that ticket |
| TicketManager.ForgedSignatureRejected | hooks/useTicketManager.ts:119-123 | a two-part token whose signature is not the expected one is refused as counterfeit, state unchanged |
| TicketManager.EmptyPayloadTokenUndecodable | hooks/useTicketManager.ts:126-132 | a token whose payload encoding failed verifies, but its scan is refused as undecodable |
| TicketManager.IssuedTicketVerifies | hooks/useTicketManager.ts:31-45 | every ticket a batch issues carries a verifying token |
| TicketManager.TotalQuantityAppend | hooks/useTicketManager.ts:31-32 | the quantity total of two lists of types is the sum of their totals |
| TicketManager.SlotsCount | hooks/useTicketManager.ts:31-45 | a batch has as many tickets as the types' quantities add up to, a non-positive quantity counting zero |
| TicketManager.Manager.constructor | hooks/useTicketManager.ts:7-8 | both ticket lists start out empty |
| TicketManager.Manager.Load | hooks/useTicketManager.ts:15-16 | the ticket list becomes the loaded list |
| TicketManager.Manager.FindTicket | hooks/useTicketManager.ts:69-72 | the result carries the cleaned serial and is the first such entry of the ticket list; none iff no entry has the cleaned serial |
| TicketManager.Manager.UpdateTicket | hooks/useTicketManager.ts:74-91 | both lists change as the `Update` step says: every entry of both lists whose serial is the cleaned serial is merged with the update, as `prev.map` does |
| TicketManager.Manager.ApplyUpdates | hooks/useTicketManager.ts:84-90 | each of the two lists is mapped with the merge applied to entries with the key |
| TicketManager.Manager.SellTicket | hooks/useTicketManager.ts:93-106 | the response and the new state are those of the `Sell` step |
| TicketManager.Manager.ScanTicket | hooks/useTicketManager.ts:109-176 | the response and the new state are those of the `Scan` step for some gate tag `GATE-XXXX` |
| TicketManager.Manager.GenerateTickets | hooks/useTicketManager.ts:27-67 | the batch has one ticket per quantity slot, each issued for its type with a verifying token, and is appended to the ticket list |
| TicketManager.Manager.DeleteTicket | hooks/useTicketManager.ts:187-197 | on success, entries with the serial leave both lists; on failure the error is returned and nothing changes |
| TicketManager.Manager.DeleteAllTickets | hooks/useTicketManager.ts:199-209 | on success, both lists are empty; on failure nothing changes |
| ServerDb.NewRow | server-db.js:73-91 | the inserted row: status defaults to SOLD, colour to the default stub colour, a falsy batch id becomes null, no use recorded |
| ServerDb.Insert | server-db.js:73-91 | (definition) `INSERT OR REPLACE` of one input: rows clashing on serial or token removed, then the new row; stated by `ServerDb.InsertEffect` and `ServerDb.InsertValid` |
| ServerDb.InsertAll | server-db.js:72-98 | (definition) the inputs inserted in order in one transaction; stated by `ServerDb.LastWins`, `ServerDb.UnrelatedRowsKept` and `ServerDb.InsertAllValid` |
| ServerDb.InsertEffect | server-db.js:73-76 | `INSERT OR REPLACE`: the new row sits under its serial, rows clashing on the token are dropped, and the others are kept |
| ServerDb.InsertValid | server-db.js:28-40 | an insert keeps the table's key and token-uniqueness constraints |
| ServerDb.InsertAllValid | server-db.js:72-98 | the bulk transaction keeps the constraints |
| ServerDb.LastWins | server-db.js:92-95 | an input no later input overrides, by serial or by token, ends up as its row |
| ServerDb.UnrelatedRowsKept | server-db.js:72-98 | a row whose serial and token no input carries survives unchanged |
| ServerDb.InsertClearsUse | server-db.js:73-76 | every row the bulk insert writes has no use time or device |
| ServerDb.RepeatedSerialOvercounts | server-db.js:97 | the returned count is the input length, so two inputs with one serial report 2 but leave 1 row |
| ServerDb.UpdateRow | server-db.js:111-129 | (definition) the single-row UPDATE, each of status, use time and device kept unless the update's value is truthy, `updatedAt` set; stated by `ServerDb.UpdateRowKeeps` and `ServerDb.UseCannotBeCleared` |
| ServerDb.UpdateRowKeeps | server-db.js:111-129 | `updateTicket` changes only status, use time, device and `updatedAt` |
| ServerDb.UseCannotBeCleared | server-db.js:123-125 | the `\|\|` fallbacks mean a recorded use is never cleared |
| ServerDb.UpdateAcceptsAnyTransition | server-db.js:111-129 | no transition is checked: a USED row is turned back to SOLD |
| ServerDb.StatsOf | server-db.js:132-139 | (definition) the row count and the number of rows with each of USED, SOLD and UNSOLD; stated by `ServerDb.StatsPartition` and `ServerDb.UnknownStatusUncounted` |
| ServerDb.StatsPartition | server-db.js:132-139 | when every status is SOLD, UNSOLD or USED, the total is the sum of the three counts |
| ServerDb.CountsPartition | server-db.js:132-139 | with three distinct status values covering every row, the counts add up to the row count |
| ServerDb.UnknownStatusUncounted | server-db.js:132-139 | a row with another status counts towards the total but towards none of the three |
| ServerDb.CreateUserValid | server-db.js:18-26 | creating a user keeps ids as keys and emails unique |
| ServerDb.UpdateDeleteValid | server-db.js:111-147 | updating or deleting a row keeps the constraints |
| ServerDb.ServerDatabase.constructor | server-db.js:18-40 | both tables start out empty |
| ServerDb.ServerDatabase.InsertTickets | server-db.js:72-98 | the table becomes the bulk insert's result and the count returned is the input length; the table's constraints are kept |
| ServerDb.ServerDatabase.GetTicket | server-db.js:106-108 | the row with the serial, present iff the key is |
| ServerDb.ServerDatabase.UpdateTicket | server-db.js:111-129 | "Ticket not found" for an unknown serial; otherwise the row is replaced by its update; the table's constraints are kept |
| ServerDb.ServerDatabase.DeleteTicket | server-db.js:142-147 | "Ticket not found" for an unknown serial; otherwise exactly that row is removed; the table's constraints are kept |
| ServerDb.ServerDatabase.ClearAllTickets | server-db.js:150-152 | the tickets table is emptied and the users are kept |
| ServerDb.ServerDatabase.GetStats | server-db.js:132-139 | (definition) `StatsOf` of the current table; stated by `ServerDb.StatsPartition` |
| ServerDb.ServerDatabase.CreateUser | server-db.js:193-209 | a taken id or email fails with SQLite's constraint message and changes nothing; otherwise the user is added; the table's constraints are kept |
| FixTicketStatus.PromoteUnsold | fix-ticket-status.js:7-11 | (definition) the UPDATE: UNSOLD rows become SOLD with the new `updatedAt`; stated by `FixTicketStatus.PromoteEffect` and `FixTicketStatus.PromoteCounts` |
| FixTicketStatus.ScriptStatsOf | fix-ticket-status.js:16-23 | (definition) the aggregate query: the count, and three sums that are NULL on an empty table; stated by `FixTicketStatus.ReportAfterMigration` and `FixTicketStatus.ReportOnEmptyTable` |
| FixTicketStatus.PromoteEffect | fix-ticket-status.js:7-11 | every UNSOLD row gets status SOLD and `updatedAt` now, and nothing else about it changes; every other row is unchanged; the keys are the same |
| FixTicketStatus.PromoteCounts | fix-ticket-status.js:7-13 | after the migration no row is UNSOLD, SOLD counts gain the former UNSOLD rows, and USED is unchanged |
| FixTicketStatus.PromotedSold | fix-ticket-status.js:7-13 | the SOLD count afterwards is the old SOLD count plus the old UNSOLD count |
| FixTicketStatus.PromotedUnsold | fix-ticket-status.js:7-11 | no UNSOLD row remains |
| FixTicketStatus.PromotedUsed | fix-ticket-status.js:7-11 | the USED count is unchanged |
| FixTicketStatus.ReportAfterMigration | fix-ticket-status.js:16-23 | on a non-empty table the report has total rows, 0 unsold, and the old sold plus unsold as sold |
| FixTicketStatus.ReportOnEmptyTable | fix-ticket-status.js:16-23 | on an empty table the sums are null |
| FixTicketStatus.Migrate | fix-ticket-status.js:7-23 | the table becomes the promoted table, the change count is the number of UNSOLD rows, and the report is that of the new table |
| BrowserDatabase.PutTicket | services/database.ts:49-56 | (definition) `put` on the tickets store: an upsert by serial refused by the unique token index; stated by `BrowserDatabase.PutTicketEffect` |
| BrowserDatabase.PutDesign | services/database.ts:168-175 | (definition) `put` on the designs store, an upsert by id that never fails |
| BrowserDatabase.PutBatch | services/database.ts:206-213 | (definition) `put` on the batches store: an upsert by id refused by the unique `batchId` index |
| BrowserDatabase.PutEach | services/database.ts:92-110 | (definition) puts in order, stopping at the first failure; stated by `BrowserDatabase.PutEachAppend`, `BrowserDatabase.PrefixFailure` and `BrowserDatabase.PutEachValid` |
| BrowserDatabase.PutEachAppend | services/database.ts:92-110 | putting `a + b` is putting `a`, then putting `b` unless `a` failed |
| BrowserDatabase.PrefixFailure | services/database.ts:92-110 | once a prefix of the puts fails, the remaining puts are never made |
| BrowserDatabase.FailRun | services/database.ts:295-297 | a clean run followed by a failing slice fails the whole run with the slice's error |
| BrowserDatabase.PutEachValid | services/database.ts:49-56 | every store a sequence of ticket puts passes through keeps the key and unique-token constraints |
| BrowserDatabase.PutTicketEffect | services/database.ts:49-56 | a put fails iff another serial holds the token; on success the record sits under its serial and other records are kept; it keeps the constraints |
| BrowserDatabase.UpdateInPlace | services/database.ts:150-155 | re-putting a stored record merged with an update that keeps serial and token succeeds and replaces exactly that record |
| BrowserDatabase.SerialChangeRejected | services/database.ts:150-155 | an update naming a new serial with the same token is rejected by the unique token index |
| BrowserDatabase.SlicesCover | services/database.ts:292-298 | the slices of `BATCH_SIZE` concatenate back to the ticket list |
| BrowserDatabase.SliceAt | services/database.ts:294-296 | the slice at offset `i` is `ts[i..min(i + 100, \|ts\|)]` |
| BrowserDatabase.SaveEachSlice | services/database.ts:292-298 | (definition) each slice saved in its own transaction, stopping at the first slice that fails, which is rolled back; stated by `BrowserDatabase.SlicedRun` and `BrowserDatabase.SliceStep` |
| BrowserDatabase.SlicedRun | services/database.ts:92-110 | saving slice by slice keeps exactly the slices before the first failing slice `k`, whose own puts fail, and reports the same error as one put after another over the concatenated list |
| BrowserDatabase.SliceStep | services/database.ts:292-298 | saving the slices from offset `i` is saving `ts[i..min(i + 100, \|ts\|)]`, then, unless that failed, the slices after it |
| BrowserDatabase.SlicesFrom | services/database.ts:294 | the slices of `ts[i..]` are `ts[i..min(i + 100, \|ts\|)]` followed by the slices of the rest |
| BrowserDatabase.Database.constructor | services/database.ts:33-34 | not open, all stores empty |
| BrowserDatabase.Database.Init | services/database.ts:36-73 | an open error is returned as the rejection; otherwise the database is open and the stores are untouched |
| BrowserDatabase.Database.SaveTicket | services/database.ts:83-90 | not initialised: rejected; otherwise the store is the put's result, or unchanged with the put's error; the constraints are kept |
| BrowserDatabase.Database.SaveTickets | services/database.ts:92-110 | all puts in one transaction: all saved, or the first error and the store unchanged; the constraints are kept |
| BrowserDatabase.Database.GetTicket | services/database.ts:112-119 | the record under the serial, none iff absent; an error iff not initialised |
| BrowserDatabase.Database.GetTicketsByBatch | services/database.ts:140-148 | exactly the stored records with that batch id |
| BrowserDatabase.Database.UpdateTicket | services/database.ts:150-155 | "Ticket not found" when absent; otherwise the merged record is put back, with the put's result or error; the constraints are kept |
| BrowserDatabase.Database.DeleteTicket | services/database.ts:157-164 | the key is removed, absent or not; the constraints are kept |
| BrowserDatabase.Database.SaveDesign | services/database.ts:168-175 | the design is upserted under its id |
| BrowserDatabase.Database.SaveBatch | services/database.ts:206-213 | the batch is put, or rejected by the unique `batchId` index |
| BrowserDatabase.Database.ClearAllData | services/database.ts:226-236 | all three stores are emptied |
| BrowserDatabase.Database.GetStats | services/database.ts:238-254 | the counts are the sizes of the three stores |
| BrowserDatabase.Database.ImportDatabase | services/database.ts:278-315 | unparsable data or data without `data` is rejected and no store changes; when the database is not open, any non-empty list fails with "Database not initialized" and nothing changes; when it is open, the tickets store is exactly the slices saved before the first failing one (`SaveEachSlice`), the answer is the first failing put's error in tickets, designs, batches order, else the three counts, and the designs and batches stores are the results of their puts, untouched once an earlier list failed |
| BrowserDatabase.Database.ImportTickets | services/database.ts:292-298 | when open, the error and the store are those of `SaveEachSlice` over the 100-ticket slices, so the slices before the first failing one stay saved and the failing one is rolled back; on failure `saved` is the start of the failing slice, the puts before it succeed and that slice's puts fail; the error is the first failing put's error over the whole list; when not open, "Database not initialized" for a non-empty list and no change |
| BrowserDatabase.Database.SaveSlice | services/database.ts:295-297 | one `saveTickets` call on `ts[i..end]`: when open its error is that slice's first failing put and success stores the slice's puts; success extends the clean run to `end`; a failure leaves the store as it was, is the whole run's first error, and lies within the puts up to `end` |
| BrowserDatabase.Database.ImportDesigns | services/database.ts:301-303 | when open, the error and the store are those of the puts in order (a design put never fails); when not open, "Database not initialized" for a non-empty list and no change |
| BrowserDatabase.Database.ImportBatches | services/database.ts:306-308 | when open, the error is the first failing put's error and the store holds the puts before it, each its own transaction; when not open, "Database not initialized" for a non-empty list and no change |
| ApiDatabase.GetTicket | services/api-database.ts:87-90 | the first fetched row with the serial; none iff no row has it |
| ApiDatabase.GetTicketByToken | services/api-database.ts:92-95 | the first fetched row with the token; none iff no row has it |
| ApiDatabase.GetTicketsByBatch | services/api-database.ts:105-108 | exactly the fetched rows with that batch id |
| ApiDatabase.TicketsByBatchInOrder | services/api-database.ts:105-108 | the batch's rows keep the fetched order |
| ApiDatabase.TruthyIds | services/api-database.ts:199 | `filter(Boolean)` over the batch ids: at most one id per row, and no empty id survives |
| ApiDatabase.Distinct | services/api-database.ts:199-200 | `new Set(...)` spread back: the same members, no duplicates, in first-appearance order |
| ApiDatabase.DistinctCountsSum | services/api-database.ts:199-204 | the occurrence counts of the distinct ids add up to the list length |
| ApiDatabase.BatchesFor | services/api-database.ts:201-206 | one batch per id, in order, with that id as `id` and `batchId` |
| ApiDatabase.GetAllBatches | services/api-database.ts:196-207 | (definition) one batch per distinct truthy batch id with its ticket count; stated by `ApiDatabase.BatchesAreDistinct` and `ApiDatabase.BatchCountsSum` |
| ApiDatabase.BatchCountIsOccurrences | services/api-database.ts:204 | a batch's ticket count is how often its id occurs among the rows |
| ApiDatabase.BatchesAreDistinct | services/api-database.ts:196-207 | one batch per distinct non-empty batch id of the rows, no id twice |
| ApiDatabase.BatchCountsSum | services/api-database.ts:196-207 | the batches' ticket counts add up to the number of rows with a non-empty batch id |
| ApiDatabase.GetStats | services/api-database.ts:215-231 | (definition) the number of rows, of designs and of batches; stated by `ApiDatabase.StatsCountDistinctBatches` |
| ApiDatabase.StatsCountDistinctBatches | services/api-database.ts:215-231 | total tickets is the row count, designs as given, and batches the number of distinct non-empty batch ids |
| ApiDatabase.AuthHeaders | services/api-database.ts:37-43 | always JSON content type; a bearer header iff a non-empty token is stored |
| ApiDatabase.MergedInput | services/api-database.ts:110-117 | (definition) `{ ...row, ...updates }` as the bulk route reads it; stated by `ApiDatabase.UpdateStoresMerge` and `ApiDatabase.UpdateErasesUse` |
| ApiDatabase.UpdateStoresMerge | services/api-database.ts:110-117 | the row stored by `updateTicket` carries the merged fields but no use time or device |
| ApiDatabase.UpdateErasesUse | services/api-database.ts:110-117 | an update of a used row, even with no change, erases its use time |
| ApiDatabase.CorrectedUpdateKeepsUse | services/api-database.ts:110-117 | the corrected save keeps or replaces use time and device, touches the same keys, and keeps the constraints |
| ApiDatabase.ApiDatabaseService.constructor | services/api-database.ts:34-35 | not initialised |
| ApiDatabase.ApiDatabaseService.Init | services/api-database.ts:45-57 | an unreachable server gives the port-4000 message; otherwise success, initialised when the reply was ok |
| ApiDatabase.ApiDatabaseService.PostBulk | server.js:185-196 | an accepted request inserts the inputs in one transaction; a refused one returns its error and changes nothing |
| ApiDatabase.ApiDatabaseService.SaveTicket | services/api-database.ts:61-71 | accepted: the ticket is inserted; otherwise "Failed to save ticket" and nothing changes |
| ApiDatabase.ApiDatabaseService.SaveTickets | services/api-database.ts:73-85 | accepted: all tickets inserted; otherwise "Failed to save tickets" and nothing changes |
| ApiDatabase.ApiDatabaseService.UpdateTicket | services/api-database.ts:110-117 | "Ticket not found" when absent; otherwise the merged row is re-inserted, or "Failed to save ticket" |
| ApiDatabase.ApiDatabaseService.UpdateTicketKeepingUse | services/api-database.ts:110-117 | as `UpdateTicket`, but the stored row keeps its recorded use |
| ApiDatabase.ApiDatabaseService.DeleteTicket | services/api-database.ts:119-130 | accepted and known: the row is removed; otherwise "Failed to delete ticket" and nothing changes |
| ApiDatabase.ApiDatabaseService.DeleteAllTickets | services/api-database.ts:132-143 | accepted: the table is emptied; otherwise "Failed to delete all tickets" |
| ApiDatabase.ApiDatabaseService.SaveBatch | services/api-database.ts:191-194 | a no-op that always succeeds |
| ApiDatabase.ApiDatabaseService.ClearAllData | services/api-database.ts:211-213 | a no-op that always succeeds |

## Left out

- Asynchrony and concurrency: every promise is one atomic step. Two gates scanning the same ticket at once cannot be expressed. The un-awaited `db.updateTicket` calls of `sellTicket` and `scanTicket` are not modelled; only the in-memory state is.
- `toUpperCase` is modelled for ASCII letters only, and `trim` over a fixed set of whitespace characters.
- `JSON.stringify`, `btoa`, `atob`/`JSON.parse` and SHA-256 are opaque function values. What the proofs need of them is assumed through `Base64Alphabet`, `PayloadRoundTrips` and `EmptyIsUndecodable`.
- `Math.random`, `Date.now`, `new Date().toISOString()` and `toLocaleString` become parameters or arbitrary choices.
- The React UI, `auth.js` and the routing of `server.js` are not modelled. The auth verdict and each HTTP reply become the `accepted` parameter. The sync route is covered by `ServerDb.ServerDatabase.UpdateTicket`.
- `useDesignManager` and the design operations other than `saveDesign` (`getDesign`, `getAllDesigns`, `deleteDesign`) are not modelled. A design keeps only its id and name.
- The `ORDER BY createdAt DESC` of `getAllTickets` is not modelled: the fetched row list is a parameter, taken in whatever order it arrives.
- BrowserDatabase.Database.GetTicketsByBatch: returns a set, so the index's key order is not modelled.
- `getTicketByToken` and `getAllTickets` of `services/database.ts`, `exportDatabase` and `downloadBackup` are not modelled. They read or serialise the stores without changing them.
- TicketManager.Lookup: the payload's `s` is a string or absent, so a signed payload whose `s` is truthy but not a string (`{"s":123}`, signable because the secret ships with the client code) is not modelled; for it `findTicket`'s `toUpperCase` throws outside the `try` and `scanTicket` rejects with no response.
- Ticket status is the three-value enum of `types.ts`, so a free-text status loaded from the server (server-db.js stores any TEXT) is not modelled, and with it the "Unknown ticket status." branch of `scanTicket` and `sellTicket`'s "Ticket already …" message for a status other than SOLD or USED.
- `substring` and `padEnd` count UTF-16 code units; the model counts characters, so strings with characters outside the Basic Multilingual Plane are not modelled faithfully.
- The reads of `services/api-database.ts` can throw "Failed to fetch tickets" when the server answers with an error; the model's fetched row list is always given, so that failure, and `updateTicket` failing with it, are not modelled.
- `importDatabase` throws a TypeError when the JSON is `null` or a list field is `null`; the model treats only an absent list as empty.
- `getAllBatches` stamps each batch with its own `new Date().toISOString()`; the model gives all batches one `now` parameter.
- Ticket quantities are integers; fractional quantities are not modelled.
- The serial in the DELETE URL is not URL-encoded; the model passes it as is.
- IndexedDB's open and upgrade events, SQLite's NOT NULL errors, and `getUserByEmail` and the other user queries are not modelled.
- ApiDatabase.StatsCountDistinctBatches: `getStats` fetches the ticket list more than once; the model uses one snapshot.
- TicketManager.Manager.GenerateTickets: does not model the remote save or `saveBatch`, whose failures the hook only logs.
- ApiDatabase.ApiDatabaseService.Init: the `initialized` flag it sets is read nowhere else.

Two behaviours of the source are stated as lemmas rather than corrected:

- `TicketManager.DuplicateSerialUndoesUse`: the hook updates every entry with the serial, so a repeated serial lets a sale overwrite a used ticket.
- `ServerDb.RepeatedSerialOvercounts`: `insertTickets` reports the input length, not the number of rows written.

## Findings

| source | as written | input that shows it | evidently intended | confidence | as-written member | corrected member |
|---|---|---|---|---|---|---|
| services/api-database.ts:110-117 | `updateTicket` saves the merged ticket through the bulk `INSERT OR REPLACE` of server-db.js:73-76, whose column list has no `usedAt` or `usedByDevice` | a stored row with `usedAt` set, updated with an empty patch or with the patch a scan sends | the stored row keeps its recorded use, or records the new one | not executed | ApiDatabase.UpdateErasesUse | ApiDatabase.CorrectedUpdateKeepsUse |
