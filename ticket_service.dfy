/**
 * Serial numbers and signed tokens (services/ticketService.ts).
 *
 * The foreign primitives the service calls -- the SHA-256 digest of the
 * UTF-8 bytes, `btoa`, `JSON.stringify` of the payload, and the
 * `JSON.parse(atob(..))?.s` that reads it back -- are the fields of a
 * `Primitives` value, so every property below holds for ANY such functions
 * unless a lemma names an assumption about them. The lower-case hex encoding
 * of the digest is written out, so "the signature has no '.'" is proved.
 */
module TicketService {
  import opened Tickets

  /** The ambiguity-reduced alphabet: no digit 0 and no letter O. */
  const Alphabet: string := "ABCDEFGHIJKLMNPQRSTUVWXYZ123456789"

  const MockSecretKey: string := "a-very-secret-key-for-titan-tix-demo"

  /** The alphabet's characters, by range: A to Z without O, then 1 to 9. */
  predicate InAlphabet(c: char)
  {
    ('A' <= c <= 'Z' && c != 'O') || ('1' <= c <= '9')
  }

  lemma AlphabetFacts()
    ensures |Alphabet| == 34
    ensures forall d :: 0 <= d < |Alphabet| ==> InAlphabet(Alphabet[d])
    ensures '0' !in Alphabet && 'O' !in Alphabet && '.' !in Alphabet
  {
    assert Alphabet == seq(14, (i: int) requires 0 <= i < 14 => ('A' as int + i) as char)
                     + seq(11, (i: int) requires 0 <= i < 11 => ('P' as int + i) as char)
                     + seq(9, (i: int) requires 0 <= i < 9 => ('1' as int + i) as char);
  }

  /** Alphabet characters are upper-case, not whitespace and not '.'. */
  lemma AlphabetCharFacts(c: char)
    requires c in Alphabet
    ensures UpperChar(c) == c && !IsSpace(c) && c != '.' && c != '0' && c != 'O'
  {
    AlphabetFacts();
  }

  // ------------------------------------------------------------ randomness

  /**
   * `generateRandomChars`: each character is `Alphabet[draw]` for an
   * arbitrary draw in [0, 34), the value of
   * `Math.floor(Math.random() * characters.length)`.
   */
  method GenerateRandomChars(length: nat) returns (result: string)
    ensures |result| == length
    ensures forall i :: 0 <= i < |result| ==> result[i] in Alphabet
  {
    result := "";
    for i := 0 to length
      invariant |result| == i
      invariant forall k :: 0 <= k < i ==> result[k] in Alphabet
    {
      var draw: nat :| draw < |Alphabet|;
      result := result + [Alphabet[draw]];
    }
  }

  // --------------------------------------------------------------- serials

  /** `s.padEnd(n, c)`. */
  function PadEnd(s: string, n: nat, c: char): (r: string)
    ensures |r| == if |s| < n then n else |s|
    ensures r[..|s|] == s
    ensures forall i :: |s| <= i < |r| ==> r[i] == c
    decreases n - |s|
  {
    if |s| >= n then s else PadEnd(s + [c], n, c)
  }

  /** `typePrefix.substring(0, 3).toUpperCase().padEnd(3, 'X')`. */
  function SerialPrefix(typeName: string): (p: string)
    ensures |p| == 3
    ensures forall i :: 0 <= i < 3 ==> p[i] == if i < |typeName| then UpperChar(typeName[i]) else 'X'
  {
    var take := typeName[..if |typeName| < 3 then |typeName| else 3];
    var head := Upper(take);
    UpperPointwise(take);
    var p := PadEnd(head, 3, 'X');
    assert forall i :: 0 <= i < |head| ==> p[i] == p[..|head|][i] == head[i];
    p
  }

  predicate IsGroup(g: string)
  {
    |g| == 4 && forall i :: 0 <= i < 4 ==> g[i] in Alphabet
  }

  /** `PPP-XXXX-XXXX-XXXX`, with `PPP` the prefix of the type name. */
  predicate IsSerialFor(serial: string, typeName: string)
  {
    && |serial| == 18
    && serial[..3] == SerialPrefix(typeName)
    && serial[3] == '-' && serial[8] == '-' && serial[13] == '-'
    && IsGroup(serial[4..8]) && IsGroup(serial[9..13]) && IsGroup(serial[14..18])
  }

  method GenerateSerial(typePrefix: string) returns (serial: string)
    ensures IsSerialFor(serial, typePrefix)
  {
    var prefix := SerialPrefix(typePrefix);
    var part1 := GenerateRandomChars(4);
    var part2 := GenerateRandomChars(4);
    var part3 := GenerateRandomChars(4);
    assert IsGroup(part1) && IsGroup(part2) && IsGroup(part3);
    serial := prefix + "-" + part1 + "-" + part2 + "-" + part3;
    assert serial[..3] == prefix;
    assert serial[4..8] == part1;
    assert serial[9..13] == part2;
    assert serial[14..18] == part3;
  }

  /**
   * A serial generated for a type name whose first three characters hold no
   * '.' and do not start with whitespace has no '.' and is its own cleaned
   * form, so typing it in by hand takes the bare-serial path of the gate scan
   * and `findTicket` matches it.
   */
  lemma {:induction false} SerialIsCanonical(serial: string, typeName: string)
    requires IsSerialFor(serial, typeName)
    requires forall i :: 0 <= i < |typeName| && i < 3 ==> typeName[i] != '.'
    requires typeName == [] || !IsSpace(typeName[0])
    ensures '.' !in serial
    ensures Clean(serial) == serial
  {
    var p := SerialPrefix(typeName);
    forall i | 0 <= i < 18 ensures serial[i] != '.' && UpperChar(serial[i]) == serial[i] {
      if i < 3 {
        assert serial[i] == serial[..3][i] == p[i];
      } else if 4 <= i < 8 {
        assert serial[i] == serial[4..8][i - 4];
        AlphabetCharFacts(serial[i]);
      } else if 9 <= i < 13 {
        assert serial[i] == serial[9..13][i - 9];
        AlphabetCharFacts(serial[i]);
      } else if 14 <= i < 18 {
        assert serial[i] == serial[14..18][i - 14];
        AlphabetCharFacts(serial[i]);
      }
    }
    assert serial[0] == serial[..3][0] == p[0];
    assert serial[17] == serial[14..18][3];
    AlphabetCharFacts(serial[17]);
    CleanFixed(serial);
  }

  /** A type name with a '.' among its first three characters yields a serial that contains a '.'. */
  lemma DottedTypeNameGivesDottedSerial(serial: string)
    requires IsSerialFor(serial, "V.I.P")
    ensures '.' in serial
  {
    assert serial[..3][1] == '.';
  }

  // ------------------------------------------------------------------- hex

  type Byte = x: int | 0 <= x < 256

  const HexDigits: string := "0123456789abcdef"

  /** `b.toString(16).padStart(2, '0')`. */
  function HexByte(b: Byte): string
  {
    [HexDigits[b / 16], HexDigits[b % 16]]
  }

  /** `hashArray.map(b => b.toString(16).padStart(2, '0')).join('')`. */
  function Hex(bytes: seq<Byte>): (h: string)
    ensures |h| == 2 * |bytes|
  {
    if bytes == [] then [] else HexByte(bytes[0]) + Hex(bytes[1..])
  }

  predicate IsHexDigit(c: char)
  {
    '0' <= c <= '9' || 'a' <= c <= 'f'
  }

  function DigitValue(c: char): int
  {
    if '0' <= c <= '9' then c as int - '0' as int
    else if 'a' <= c <= 'f' then c as int - 'a' as int + 10
    else 0
  }

  /** Reads lower-case hex back into bytes, two characters per byte. */
  function UnHex(h: string): seq<int>
    decreases |h|
  {
    if |h| < 2 then [] else [16 * DigitValue(h[0]) + DigitValue(h[1])] + UnHex(h[2..])
  }

  lemma HexDigitValues()
    ensures forall d :: 0 <= d < 16 ==> IsHexDigit(HexDigits[d]) && DigitValue(HexDigits[d]) == d
  {
    assert HexDigits == seq(10, (i: int) requires 0 <= i < 10 => ('0' as int + i) as char)
                      + seq(6, (i: int) requires 0 <= i < 6 => ('a' as int + i) as char);
  }

  /** The signature is lower-case hex throughout. */
  lemma {:induction false} HexIsLowerHex(bytes: seq<Byte>)
    ensures forall i :: 0 <= i < |Hex(bytes)| ==> IsHexDigit(Hex(bytes)[i])
  {
    if bytes != [] {
      var h := Hex(bytes);
      var hb := HexByte(bytes[0]);
      assert h == hb + Hex(bytes[1..]);
      HexDigitValues();
      assert IsHexDigit(hb[0]) && IsHexDigit(hb[1]);
      HexIsLowerHex(bytes[1..]);
    }
  }

  /** Each byte's two digits read back as the byte. */
  lemma HexByteReadsBack(b: Byte)
    ensures 16 * DigitValue(HexByte(b)[0]) + DigitValue(HexByte(b)[1]) == b
  {
    HexDigitValues();
  }

  /** Hex encoding loses nothing: the digest bytes can be read back from the signature. */
  lemma {:induction false} UnHexHex(bytes: seq<Byte>)
    ensures UnHex(Hex(bytes)) == bytes
  {
    if bytes != [] {
      var h := Hex(bytes);
      var hb := HexByte(bytes[0]);
      assert h == hb + Hex(bytes[1..]);
      assert h[0] == hb[0] && h[1] == hb[1];
      HexByteReadsBack(bytes[0]);
      assert h[2..] == Hex(bytes[1..]);
      UnHexHex(bytes[1..]);
      assert UnHex(h) == [bytes[0]] + bytes[1..];
    }
  }

  lemma HexHasNoDot(bytes: seq<Byte>)
    ensures '.' !in Hex(bytes)
  {
    HexIsLowerHex(bytes);
  }

  // ------------------------------------------------------- foreign pieces

  /** What `JSON.parse(atob(x))?.s` produced: a throw, or the field `s` if present. */
  datatype Payload = Undecodable | Decoded(s: Option<string>)

  datatype Primitives = Primitives(
    /** `crypto.subtle.digest('SHA-256', new TextEncoder().encode(x))`. */
    digest: string -> seq<Byte>,
    /** `btoa(x)`; `None` when it throws (a character above U+00FF). */
    btoa: string -> Option<string>,
    /** `JSON.stringify({ s: serial, iat })`. */
    stringify: (string, int) -> string,
    /** `JSON.parse(atob(x))?.s`; `Undecodable` when either call throws. */
    decode: string -> Payload)

  /** RFC 4648 section 4: the base64 alphabet and its pad character. */
  predicate IsBase64Char(c: char)
  {
    'A' <= c <= 'Z' || 'a' <= c <= 'z' || '0' <= c <= '9' || c == '+' || c == '/' || c == '='
  }

  /** `btoa` writes only base64 characters. */
  ghost predicate Base64Alphabet(p: Primitives)
  {
    forall s, i :: p.btoa(s).Some? && 0 <= i < |p.btoa(s).value| ==> IsBase64Char(p.btoa(s).value[i])
  }

  /** `atob` inverts `btoa` and `JSON.parse` inverts `JSON.stringify`, so the payload gives its serial back. */
  ghost predicate PayloadRoundTrips(p: Primitives)
  {
    forall serial, iat :: p.btoa(p.stringify(serial, iat)).Some? ==>
      p.decode(p.btoa(p.stringify(serial, iat)).value) == Decoded(Some(serial))
  }

  /** `atob('')` is `''` and `JSON.parse('')` throws. */
  ghost predicate EmptyIsUndecodable(p: Primitives)
  {
    p.decode("") == Undecodable
  }

  // ---------------------------------------------------------------- tokens

  /** `base64Encode`: the `btoa` result, or `""` when `btoa` throws. */
  function Base64Encode(p: Primitives, str: string): string
  {
    match p.btoa(str)
    case Some(e) => e
    case None => ""
  }

  /** `simpleHash`: lower-case hex of the SHA-256 digest. */
  function SimpleHash(p: Primitives, data: string): (h: string)
    ensures '.' !in h
    ensures forall i :: 0 <= i < |h| ==> IsHexDigit(h[i])
  {
    HexIsLowerHex(p.digest(data));
    Hex(p.digest(data))
  }

  /** The signature a token's payload part must carry. */
  function ExpectedSignature(p: Primitives, encodedPayload: string): string
  {
    SimpleHash(p, encodedPayload + "." + MockSecretKey)
  }

  function EncodedPayload(p: Primitives, serial: string, iat: int): string
  {
    Base64Encode(p, p.stringify(serial, iat))
  }

  /** `generateSignedToken(serial)` at clock reading `iat` (`Date.now()`). */
  function GenerateSignedToken(p: Primitives, serial: string, iat: int): string
  {
    var encodedPayload := EncodedPayload(p, serial, iat);
    encodedPayload + "." + ExpectedSignature(p, encodedPayload)
  }

  /** `token` was signed for `serial` at some instant. */
  ghost predicate IsTokenFor(p: Primitives, token: string, serial: string)
  {
    exists iat :: token == GenerateSignedToken(p, serial, iat)
  }

  // ----------------------------------------------------------------- split

  function CountDots(s: string): nat
  {
    if s == [] then 0 else (if s[0] == '.' then 1 else 0) + CountDots(s[1..])
  }

  /** `s.split('.')`. */
  function Split(s: string): (parts: seq<string>)
    ensures |parts| == CountDots(s) + 1
    ensures forall i :: 0 <= i < |parts| ==> '.' !in parts[i]
  {
    if s == [] then [""]
    else
      var rest := Split(s[1..]);
      if s[0] == '.' then [""] + rest
      else [[s[0]] + rest[0]] + rest[1..]
  }

  /** `parts.join('.')`. */
  function Join(parts: seq<string>): string
    requires |parts| >= 1
  {
    if |parts| == 1 then parts[0] else parts[0] + "." + Join(parts[1..])
  }

  /** Splitting on '.' loses nothing: joining the parts gives the string back. */
  lemma {:induction false} SplitJoin(s: string)
    ensures Join(Split(s)) == s
  {
    if s != [] {
      var rest := Split(s[1..]);
      SplitJoin(s[1..]);
      if s[0] == '.' {
        assert Split(s)[1..] == rest;
      } else {
        var parts := Split(s);
        if |rest| == 1 {
          assert parts == [[s[0]] + rest[0]];
        } else {
          assert parts[1..] == rest[1..];
          assert Join(rest) == rest[0] + "." + Join(rest[1..]);
        }
      }
    }
  }

  lemma {:induction false} SplitDotFree(a: string)
    requires '.' !in a
    ensures Split(a) == [a]
  {
    if a != [] {
      SplitDotFree(a[1..]);
      assert a == [a[0]] + a[1..];
    }
  }

  lemma {:induction false} SplitAfterDotFree(a: string, b: string)
    requires '.' !in a
    ensures Split(a + "." + b) == [a] + Split(b)
  {
    if a == [] {
      assert a + "." + b == ['.'] + b;
      assert (['.'] + b)[1..] == b;
    } else {
      assert (a + "." + b)[1..] == a[1..] + "." + b;
      SplitAfterDotFree(a[1..], b);
      assert a == [a[0]] + a[1..];
    }
  }

  lemma {:induction false} DotIsCounted(s: string, i: nat)
    requires i < |s| && s[i] == '.'
    ensures CountDots(s) >= 1
  {
    if i > 0 {
      DotIsCounted(s[1..], i - 1);
    }
  }

  /** `token` is `enc + "." + sig` with neither part holding a '.'. */
  predicate TwoParts(token: string, enc: string, sig: string)
  {
    token == enc + "." + sig && '.' !in enc && '.' !in sig
  }

  lemma SplitTwoParts(enc: string, sig: string)
    requires '.' !in enc && '.' !in sig
    ensures Split(enc + "." + sig) == [enc, sig]
  {
    SplitAfterDotFree(enc, sig);
    SplitDotFree(sig);
  }

  // ---------------------------------------------------------------- verify

  /** `verifyToken`: exactly two '.'-separated parts, the second the signature of the first. */
  function VerifyToken(p: Primitives, token: string): (ok: bool)
    ensures CountDots(token) != 1 ==> !ok
  {
    var parts := Split(token);
    |parts| == 2 && parts[1] == ExpectedSignature(p, parts[0])
  }

  /**
   * A token verifies exactly when it is `enc + "." + sig` with no further '.'
   * and `sig` is the expected signature of `enc`; any other signature is
   * rejected.
   */
  lemma VerifyTokenExact(p: Primitives, token: string)
    ensures VerifyToken(p, token) <==>
      exists enc, sig :: TwoParts(token, enc, sig) && sig == ExpectedSignature(p, enc)
  {
    var parts := Split(token);
    if VerifyToken(p, token) {
      SplitJoin(token);
      assert Join(parts) == parts[0] + "." + Join(parts[1..]);
      assert TwoParts(token, parts[0], parts[1]);
    }
    forall enc, sig | TwoParts(token, enc, sig) && sig == ExpectedSignature(p, enc)
      ensures VerifyToken(p, token)
    {
      SplitTwoParts(enc, sig);
    }
  }

  /** A token's payload part holds no '.' and does not start with whitespace. */
  lemma EncodedPayloadShape(p: Primitives, serial: string, iat: int)
    requires Base64Alphabet(p)
    ensures '.' !in EncodedPayload(p, serial, iat)
    ensures forall k :: 0 <= k < |EncodedPayload(p, serial, iat)| ==> !IsSpace(EncodedPayload(p, serial, iat)[k])
  {
    var enc := EncodedPayload(p, serial, iat);
    forall k | 0 <= k < |enc| ensures enc[k] != '.' && !IsSpace(enc[k]) {
      assert IsBase64Char(enc[k]);
    }
  }

  /** Round trip: every token the service signs verifies. */
  lemma SignThenVerify(p: Primitives, serial: string, iat: int)
    requires Base64Alphabet(p)
    ensures VerifyToken(p, GenerateSignedToken(p, serial, iat))
  {
    var enc := EncodedPayload(p, serial, iat);
    EncodedPayloadShape(p, serial, iat);
    SplitTwoParts(enc, ExpectedSignature(p, enc));
  }

  /** A signed token is a well-formed two-part token whose payload part decodes to the serial. */
  lemma SignedTokenDecodes(p: Primitives, serial: string, iat: int)
    requires Base64Alphabet(p) && PayloadRoundTrips(p)
    requires p.btoa(p.stringify(serial, iat)).Some?
    ensures Split(GenerateSignedToken(p, serial, iat))[0] == EncodedPayload(p, serial, iat)
    ensures p.decode(EncodedPayload(p, serial, iat)) == Decoded(Some(serial))
  {
    var enc := EncodedPayload(p, serial, iat);
    EncodedPayloadShape(p, serial, iat);
    SplitTwoParts(enc, ExpectedSignature(p, enc));
  }

  /** Replacing any one character of a signed token's signature makes it fail verification. */
  lemma TamperedSignatureRejected(p: Primitives, serial: string, iat: int, i: nat, c: char)
    requires Base64Alphabet(p)
    requires i < |ExpectedSignature(p, EncodedPayload(p, serial, iat))|
    requires c != ExpectedSignature(p, EncodedPayload(p, serial, iat))[i]
    ensures !VerifyToken(p, EncodedPayload(p, serial, iat) + "." +
                            ExpectedSignature(p, EncodedPayload(p, serial, iat))[i := c])
  {
    var enc := EncodedPayload(p, serial, iat);
    var sig := ExpectedSignature(p, enc)[i := c];
    EncodedPayloadShape(p, serial, iat);
    if c == '.' {
      DotIsCounted(sig, i);
      SplitAfterDotFree(enc, sig);
    } else {
      assert '.' !in sig by {
        forall k | 0 <= k < |sig| ensures sig[k] != '.' {
          if k != i {
            assert sig[k] == ExpectedSignature(p, enc)[k];
          }
        }
      }
      SplitTwoParts(enc, sig);
      assert sig[i] != ExpectedSignature(p, enc)[i];
    }
  }

  /**
   * When `btoa` throws, `base64Encode` returns "" and the token is
   * `"." + signature`: it still verifies, though its payload decodes to nothing.
   */
  lemma EmptyPayloadTokenVerifies(p: Primitives, serial: string, iat: int)
    requires p.btoa(p.stringify(serial, iat)).None?
    ensures GenerateSignedToken(p, serial, iat) == "." + ExpectedSignature(p, "")
    ensures VerifyToken(p, GenerateSignedToken(p, serial, iat))
    ensures Split(GenerateSignedToken(p, serial, iat))[0] == ""
  {
    SplitTwoParts("", ExpectedSignature(p, ""));
    assert "" + "." + ExpectedSignature(p, "") == "." + ExpectedSignature(p, "");
  }
}
