/**
 * The shapes every other module shares: the ticket record and its status
 * enum (types.ts), the `Partial<Ticket>` update object and its spread-merge,
 * the JavaScript string operations the ticket code leans on
 * (`toUpperCase`, `trim`, `includes`), and first-match search.
 */
module Tickets {

  datatype Option<T> = None | Some(value: T)

  /** A thrown `Error` is modelled as `Err` carrying the error's message. */
  datatype Result<T> = Ok(value: T) | Err(error: string)

  // ---------------------------------------------------------------- types.ts

  datatype TicketStatus = UNSOLD | SOLD | USED

  /** The string value of each enum member (`TicketStatus.SOLD === 'SOLD'`). */
  function StatusName(s: TicketStatus): string
  {
    match s
    case UNSOLD => "UNSOLD"
    case SOLD => "SOLD"
    case USED => "USED"
  }

  datatype Ticket = Ticket(
    serial: string,
    token: string,
    status: TicketStatus,
    ticketTypeName: string,
    price: int,
    printBatchId: string,
    soldAt: Option<string>,
    usedAt: Option<string>,
    usedByDevice: Option<string>,
    stubColor: Option<string>)

  datatype TicketTypeInfo = TicketTypeInfo(
    id: string,
    name: string,
    quantity: int,
    price: int,
    stubColor: Option<string>)

  /**
   * `Partial<Ticket>`: a field that is `Some` is present in the update
   * object; a field that is `None` is absent.
   */
  datatype Patch = Patch(
    serial: Option<string>,
    token: Option<string>,
    status: Option<TicketStatus>,
    ticketTypeName: Option<string>,
    price: Option<int>,
    printBatchId: Option<string>,
    soldAt: Option<string>,
    usedAt: Option<string>,
    usedByDevice: Option<string>,
    stubColor: Option<string>)

  const NoChange := Patch(None, None, None, None, None, None, None, None, None, None)

  function Pick<T>(o: Option<T>, d: T): T
  {
    if o.Some? then o.value else d
  }

  function PickOpt<T>(o: Option<T>, d: Option<T>): Option<T>
  {
    if o.Some? then o else d
  }

  /** `{ ...t, ...u }`: every field present in `u` overrides the one in `t`. */
  function Merge(t: Ticket, u: Patch): Ticket
  {
    Ticket(
      Pick(u.serial, t.serial),
      Pick(u.token, t.token),
      Pick(u.status, t.status),
      Pick(u.ticketTypeName, t.ticketTypeName),
      Pick(u.price, t.price),
      Pick(u.printBatchId, t.printBatchId),
      PickOpt(u.soldAt, t.soldAt),
      PickOpt(u.usedAt, t.usedAt),
      PickOpt(u.usedByDevice, t.usedByDevice),
      PickOpt(u.stubColor, t.stubColor))
  }

  /** Does the update leave the ticket's identity (serial and token) alone? */
  predicate KeepsIdentity(u: Patch)
  {
    u.serial.None? && u.token.None?
  }

  // ------------------------------------------------------ JavaScript strings

  /**
   * The characters `String.prototype.trim` removes: the ECMAScript
   * WhiteSpace set (tab, vertical tab, form feed, space, no-break space, the
   * byte order mark and every Unicode space separator) and the
   * LineTerminator set (line feed, carriage return, U+2028, U+2029).
   */
  predicate IsSpace(c: char)
  {
    || '\t' <= c <= '\r'
    || c == ' ' || c == '\U{00A0}' || c == '\U{1680}'
    || '\U{2000}' <= c <= '\U{200A}'
    || c == '\U{2028}' || c == '\U{2029}' || c == '\U{202F}' || c == '\U{205F}'
    || c == '\U{3000}' || c == '\U{FEFF}'
  }

  function UpperChar(c: char): char
  {
    if 'a' <= c <= 'z' then (c as int - 32) as char else c
  }

  predicate IsUpper(s: string)
  {
    forall i :: 0 <= i < |s| ==> UpperChar(s[i]) == s[i]
  }

  /** `toUpperCase`, on the ASCII letters. */
  function Upper(s: string): string
  {
    if s == [] then [] else [UpperChar(s[0])] + Upper(s[1..])
  }

  lemma {:induction false} UpperPointwise(s: string)
    ensures |Upper(s)| == |s|
    ensures forall i :: 0 <= i < |s| ==> Upper(s)[i] == UpperChar(s[i])
  {
    if s != [] {
      UpperPointwise(s[1..]);
      forall i | 1 <= i < |s| ensures Upper(s)[i] == UpperChar(s[i]) {
        assert Upper(s)[i] == Upper(s[1..])[i - 1];
      }
    }
  }

  function TrimStart(s: string): string
  {
    if s != [] && IsSpace(s[0]) then TrimStart(s[1..]) else s
  }

  /** `trimStart` drops exactly the leading whitespace. */
  lemma {:induction false} TrimStartSpec(s: string)
    ensures |TrimStart(s)| <= |s| && TrimStart(s) == s[|s| - |TrimStart(s)|..]
    ensures TrimStart(s) == [] || !IsSpace(TrimStart(s)[0])
    ensures forall i :: 0 <= i < |s| - |TrimStart(s)| ==> IsSpace(s[i])
  {
    if s != [] && IsSpace(s[0]) {
      var t := s[1..];
      TrimStartSpec(t);
      var r := TrimStart(t);
      assert TrimStart(s) == r;
      assert r == t[|t| - |r|..] == s[|s| - |r|..];
      forall i | 0 <= i < |s| - |r| ensures IsSpace(s[i]) {
        if i > 0 {
          assert s[i] == t[i - 1];
        }
      }
    }
  }

  function TrimEnd(s: string): string
  {
    if s != [] && IsSpace(s[|s| - 1]) then TrimEnd(s[..|s| - 1]) else s
  }

  /** `trimEnd` drops exactly the trailing whitespace. */
  lemma {:induction false} TrimEndSpec(s: string)
    ensures |TrimEnd(s)| <= |s| && TrimEnd(s) == s[..|TrimEnd(s)|]
    ensures TrimEnd(s) == [] || !IsSpace(TrimEnd(s)[|TrimEnd(s)| - 1])
    ensures forall i :: |TrimEnd(s)| <= i < |s| ==> IsSpace(s[i])
  {
    if s != [] && IsSpace(s[|s| - 1]) {
      TrimEndSpec(s[..|s| - 1]);
    }
  }

  /** `trim`: `s` with its leading and trailing whitespace removed. */
  function Trim(s: string): (r: string)
  {
    TrimEnd(TrimStart(s))
  }

  /** The key `findTicket` and `updateTicket` look a serial up by: `s.toUpperCase().trim()`. */
  function Clean(s: string): string
  {
    Trim(Upper(s))
  }

  /** Trimming removes exactly a whitespace prefix and a whitespace suffix. */
  lemma {:induction false} TrimIsInfix(s: string)
    ensures exists i, j :: 0 <= i <= j <= |s| && Trim(s) == s[i..j]
              && (forall k :: 0 <= k < i ==> IsSpace(s[k]))
              && (forall k :: j <= k < |s| ==> IsSpace(s[k]))
    ensures Trim(s) == [] || (!IsSpace(Trim(s)[0]) && !IsSpace(Trim(s)[|Trim(s)| - 1]))
  {
    var a := TrimStart(s);
    TrimStartSpec(s);
    var i := |s| - |a|;
    var b := TrimEnd(a);
    TrimEndSpec(a);
    var j := i + |b|;
    assert b == s[i..j];
    forall k | j <= k < |s| ensures IsSpace(s[k]) {
      assert s[k] == a[k - i];
    }
    if b != [] {
      assert b[0] == a[0];
    }
    assert 0 <= i <= j <= |s| && Trim(s) == s[i..j];
  }

  lemma {:induction false} TrimStartFixed(s: string)
    requires s == [] || !IsSpace(s[0])
    ensures TrimStart(s) == s
  {
  }

  lemma {:induction false} TrimEndFixed(s: string)
    requires s == [] || !IsSpace(s[|s| - 1])
    ensures TrimEnd(s) == s
  {
  }

  lemma {:induction false} TrimIdempotent(s: string)
    ensures Trim(Trim(s)) == Trim(s)
  {
    var t := Trim(s);
    TrimIsInfix(s);
    TrimStartFixed(t);
    TrimEndFixed(t);
  }

  lemma {:induction false} UpperFixed(s: string)
    requires IsUpper(s)
    ensures Upper(s) == s
  {
    if s != [] {
      assert IsUpper(s[1..]) by {
        forall i | 0 <= i < |s[1..]| ensures UpperChar(s[1..][i]) == s[1..][i] {
          assert s[1..][i] == s[i + 1];
        }
      }
      UpperFixed(s[1..]);
    }
  }

  /** Cleaning is idempotent: a cleaned serial cleans to itself. */
  lemma {:induction false} CleanIdempotent(s: string)
    ensures Clean(Clean(s)) == Clean(s)
  {
    var u := Upper(s);
    UpperPointwise(s);
    var c := Trim(u);
    TrimIsInfix(u);
    var i, j :| 0 <= i <= j <= |u| && c == u[i..j];
    forall k | 0 <= k < |c| ensures UpperChar(c[k]) == c[k] {
      assert c[k] == u[i + k] == UpperChar(s[i + k]);
    }
    UpperFixed(c);
    TrimIdempotent(u);
  }

  /** A string with no lower-case ASCII letter and no whitespace at either end cleans to itself. */
  lemma {:induction false} CleanFixed(s: string)
    requires IsUpper(s)
    requires s == [] || (!IsSpace(s[0]) && !IsSpace(s[|s| - 1]))
    ensures Clean(s) == s
  {
    UpperFixed(s);
    TrimStartFixed(s);
    TrimEndFixed(s);
  }

  // --------------------------------------------------- first-match search

  function SerialOf(t: Ticket): string { t.serial }

  /** The index of the first element whose key is `k` (what `Array.prototype.find` stops at). */
  function IndexWhere<T>(xs: seq<T>, key: T -> string, k: string): (r: Option<nat>)
    ensures r.Some? ==> r.value < |xs| && key(xs[r.value]) == k
    ensures r.Some? ==> forall j :: 0 <= j < r.value ==> key(xs[j]) != k
    ensures r.None? <==> forall j :: 0 <= j < |xs| ==> key(xs[j]) != k
  {
    if xs == [] then None
    else if key(xs[0]) == k then Some(0)
    else match IndexWhere(xs[1..], key, k)
      case None => None
      case Some(i) => Some(i + 1)
  }

  /** `Array.prototype.filter` by key. */
  function FilterWhere<T(!new)>(xs: seq<T>, key: T -> Option<string>, k: string): (r: seq<T>)
    ensures |r| <= |xs|
    ensures forall x :: x in r <==> x in xs && key(x) == Some(k)
  {
    if xs == [] then []
    else
      var rest := FilterWhere(xs[1..], key, k);
      assert xs == [xs[0]] + xs[1..];
      if key(xs[0]) == Some(k) then [xs[0]] + rest else rest
  }

  /** Filtering distributes over concatenation, so it keeps the original order. */
  lemma {:induction false} FilterAppend<T(!new)>(a: seq<T>, b: seq<T>, key: T -> Option<string>, k: string)
    ensures FilterWhere(a + b, key, k) == FilterWhere(a, key, k) + FilterWhere(b, key, k)
  {
    if a != [] {
      var ab := a + b;
      assert ab[0] == a[0];
      assert ab[1..] == a[1..] + b;
      FilterAppend(a[1..], b, key, k);
    } else {
      assert a + b == b;
    }
  }
}
