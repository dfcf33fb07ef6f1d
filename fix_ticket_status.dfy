/**
 * The one-off migration fix-ticket-status.js: a bulk UPDATE that turns
 * every UNSOLD row of the server's `tickets` table into SOLD, then the
 * aggregate query whose figures the script reports.
 */
module FixTicketStatus {
  import opened Tickets
  import opened ServerDb

  /**
   * The script's aggregate row. `COUNT(*)` is always a number, but SQL's
   * `SUM` over no rows is NULL, so the three sums are absent on an empty table.
   */
  datatype ScriptStats = ScriptStats(total: nat, sold: Option<nat>, used: Option<nat>, unsold: Option<nat>)

  /** `UPDATE tickets SET status = 'SOLD', updatedAt = ? WHERE status = 'UNSOLD'`. */
  function PromoteUnsold(rows: map<string, Row>, now: string): map<string, Row>
  {
    map k | k in rows :: if rows[k].status == "UNSOLD" then rows[k].(status := "SOLD", updatedAt := now) else rows[k]
  }

  /** The aggregate query: the row count and the three conditional sums. */
  function ScriptStatsOf(rows: map<string, Row>): ScriptStats
  {
    if |rows| == 0 then ScriptStats(0, None, None, None)
    else ScriptStats(|rows|, Some(CountStatus(rows, "SOLD")), Some(CountStatus(rows, "USED")),
                     Some(CountStatus(rows, "UNSOLD")))
  }

  /**
   * The same rows, each UNSOLD one now SOLD with the new `updatedAt` and
   * every other column (`usedAt` among them) untouched; SOLD, USED and any
   * other rows are unchanged.
   */
  lemma PromoteEffect(rows: map<string, Row>, now: string)
    ensures PromoteUnsold(rows, now).Keys == rows.Keys
    ensures forall k :: k in rows && rows[k].status == "UNSOLD" ==>
      PromoteUnsold(rows, now)[k] == rows[k].(status := "SOLD", updatedAt := now)
    ensures forall k :: k in rows && rows[k].status != "UNSOLD" ==> PromoteUnsold(rows, now)[k] == rows[k]
  {
  }

  /** The migration empties UNSOLD into SOLD and leaves the USED count and the total alone. */
  lemma PromoteCounts(rows: map<string, Row>, now: string)
    ensures |PromoteUnsold(rows, now)| == |rows|
    ensures CountStatus(PromoteUnsold(rows, now), "UNSOLD") == 0
    ensures CountStatus(PromoteUnsold(rows, now), "SOLD") == CountStatus(rows, "SOLD") + CountStatus(rows, "UNSOLD")
    ensures CountStatus(PromoteUnsold(rows, now), "USED") == CountStatus(rows, "USED")
  {
    var p := PromoteUnsold(rows, now);
    PromoteEffect(rows, now);
    assert |p| == |p.Keys| && |rows| == |rows.Keys|;
    PromotedSold(rows, now);
    PromotedUnsold(rows, now);
    PromotedUsed(rows, now);
  }

  lemma PromotedSold(rows: map<string, Row>, now: string)
    ensures CountStatus(PromoteUnsold(rows, now), "SOLD") == CountStatus(rows, "SOLD") + CountStatus(rows, "UNSOLD")
  {
    var p := PromoteUnsold(rows, now);
    PromoteEffect(rows, now);
    StatusLiteralsDiffer();
    var sold := set k | k in rows && rows[k].status == "SOLD";
    var unsold := set k | k in rows && rows[k].status == "UNSOLD";
    var sold' := set k | k in p && p[k].status == "SOLD";
    forall k ensures k in sold' <==> k in sold + unsold {
      if k in rows && rows[k].status != "UNSOLD" {
        assert p[k] == rows[k];
      }
    }
    assert sold' == sold + unsold;
    assert sold * unsold == {};
  }

  lemma PromotedUnsold(rows: map<string, Row>, now: string)
    ensures CountStatus(PromoteUnsold(rows, now), "UNSOLD") == 0
  {
    var p := PromoteUnsold(rows, now);
    PromoteEffect(rows, now);
    StatusLiteralsDiffer();
    var unsold' := set k | k in p && p[k].status == "UNSOLD";
    assert unsold' == {};
  }

  lemma PromotedUsed(rows: map<string, Row>, now: string)
    ensures CountStatus(PromoteUnsold(rows, now), "USED") == CountStatus(rows, "USED")
  {
    var p := PromoteUnsold(rows, now);
    PromoteEffect(rows, now);
    StatusLiteralsDiffer();
    var used := set k | k in rows && rows[k].status == "USED";
    var used' := set k | k in p && p[k].status == "USED";
    forall k ensures k in used' <==> k in used {
      if k in rows && rows[k].status != "UNSOLD" {
        assert p[k] == rows[k];
      }
    }
    assert used' == used;
  }

  /** What the script prints after migrating a non-empty table, in terms of the table before it. */
  lemma ReportAfterMigration(rows: map<string, Row>, now: string)
    requires |rows| > 0
    ensures ScriptStatsOf(PromoteUnsold(rows, now)) ==
      ScriptStats(|rows|, Some(CountStatus(rows, "SOLD") + CountStatus(rows, "UNSOLD")),
                  Some(CountStatus(rows, "USED")), Some(0))
  {
    PromoteCounts(rows, now);
  }

  /** On an empty table the three sums come back NULL. */
  lemma ReportOnEmptyTable(now: string)
    ensures ScriptStatsOf(PromoteUnsold(map[], now)) == ScriptStats(0, None, None, None)
  {
    PromoteCounts(map[], now);
  }

  /**
   * The script: run the UPDATE at clock reading `now`, report its change
   * count (the rows the WHERE clause matched), then read the aggregate.
   */
  method Migrate(db: ServerDatabase, now: string) returns (changes: nat, stats: ScriptStats)
    modifies db
    ensures db.tickets == PromoteUnsold(old(db.tickets), now) && db.users == old(db.users)
    ensures changes == CountStatus(old(db.tickets), "UNSOLD")
    ensures stats == ScriptStatsOf(db.tickets)
  {
    changes := CountStatus(db.tickets, "UNSOLD");
    db.tickets := PromoteUnsold(db.tickets, now);
    stats := ScriptStatsOf(db.tickets);
  }
}
