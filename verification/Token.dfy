/** The visitor session credential: printing it, checking it, and the exact window it is good for.
    The MAC is any function from a key and a message to 32 bytes. */
module Token {
  import opened Basics

  type Byte = n: int | 0 <= n < 256
  type Bytes16 = s: seq<Byte> | |s| == 16 witness seq(16, _ => 0)
  type Bytes32 = s: seq<Byte> | |s| == 32 witness seq(32, _ => 0)
  type Hmac = (seq<Byte>, string) -> Bytes32

  const LIFETIME: int := 1800
  const TOKEN_LENGTH: nat := 108

  // ---------------------------------------------------------------- hexadecimal

  const HEX_DIGITS: string := "0123456789abcdef"

  function Hex(bytes: seq<Byte>): (text: string)
    ensures |text| == 2 * |bytes|
  {
    if bytes == [] then ""
    else [HEX_DIGITS[bytes[0] / 16], HEX_DIGITS[bytes[0] % 16]] + Hex(bytes[1..])
  }

  predicate HexDigit(c: char) {
    '0' <= c <= '9' || 'a' <= c <= 'f' || 'A' <= c <= 'F'
  }

  /** What hex.DecodeString accepts: digits of either case, in pairs. */
  predicate IsHex(text: string) {
    |text| % 2 == 0 && forall k :: 0 <= k < |text| ==> HexDigit(text[k])
  }

  lemma DigitsAreHex(n: nat)
    requires n < 16
    ensures HexDigit(HEX_DIGITS[n])
  {
  }

  lemma {:induction false} HexIsHex(bytes: seq<Byte>)
    ensures IsHex(Hex(bytes))
  {
    if bytes == [] {
    } else {
      DigitsAreHex(bytes[0] / 16);
      DigitsAreHex(bytes[0] % 16);
      HexIsHex(bytes[1..]);
    }
  }

  function NibbleOf(c: char): int {
    if '0' <= c <= '9' then c as int - '0' as int else c as int - 'a' as int + 10
  }

  lemma NibbleRoundTrip(n: nat)
    requires n < 16
    ensures NibbleOf(HEX_DIGITS[n]) == n
  {
  }

  function Unhex(text: string): seq<int> {
    if |text| < 2 then [] else [16 * NibbleOf(text[0]) + NibbleOf(text[1])] + Unhex(text[2..])
  }

  lemma UnhexPair(high: char, low: char, rest: string)
    ensures Unhex([high, low] + rest) == [16 * NibbleOf(high) + NibbleOf(low)] + Unhex(rest)
  {
    assert ([high, low] + rest)[2..] == rest;
  }

  lemma ByteRoundTrip(b: Byte)
    ensures 16 * NibbleOf(HEX_DIGITS[b / 16]) + NibbleOf(HEX_DIGITS[b % 16]) == b
  {
    NibbleRoundTrip(b / 16);
    NibbleRoundTrip(b % 16);
  }

  /** Reading pairs of digits back gives the bytes that were printed, so an identifier determines them. */
  lemma {:induction false} HexRoundTrip(bytes: seq<Byte>)
    ensures Unhex(Hex(bytes)) == bytes
  {
    if bytes == [] {
    } else {
      var first, rest := bytes[0], bytes[1..];
      HexRoundTrip(rest);
      ByteRoundTrip(first);
      UnhexPair(HEX_DIGITS[first / 16], HEX_DIGITS[first % 16], Hex(rest));
      assert bytes == [first] + rest;
    }
  }

  // ---------------------------------------------------------------- decimal

  function Digit(d: nat): (c: char)
    requires d < 10
    ensures c == "0123456789"[d]
  {
    '0' + d as char
  }

  function Format(n: nat): (text: string)
    ensures |text| >= 1
  {
    if n < 10 then [Digit(n)] else Format(n / 10) + [Digit(n % 10)]
  }

  function DigitValue(c: char): Option<nat> {
    if '0' <= c <= '9' then Some((c - '0') as nat) else None
  }

  function ParseDigits(text: string): Option<nat> {
    if text == "" then Some(0)
    else
      match (ParseDigits(text[..|text| - 1]), DigitValue(text[|text| - 1]))
      case (Some(high), Some(low)) => Some(10 * high + low)
      case _ => None
  }

  /** strconv.ParseInt in base ten, for texts too short to overflow: an optional sign, then digits. */
  function ParseInt(text: string): Option<int> {
    var signed := |text| > 0 && (text[0] == '+' || text[0] == '-');
    var body := if signed then text[1..] else text;
    if body == "" then None
    else
      match ParseDigits(body)
      case None => None
      case Some(n) =>
        var value: int := n;
        Some(if signed && text[0] == '-' then -value else value)
  }

  /** Exactly the texts of digits after at most one sign are numbers; a minus negates. */
  lemma ParseIntIff(text: string)
    ensures ParseInt(text).Some? <==>
      var body := if |text| > 0 && (text[0] == '+' || text[0] == '-') then text[1..] else text;
      body != "" && forall k :: 0 <= k < |body| ==> '0' <= body[k] <= '9'
    ensures ParseInt(text).Some? && |text| > 0 && text[0] == '-' ==> ParseInt(text).value <= 0
  {
    ParseDigitsIff(if |text| > 0 && (text[0] == '+' || text[0] == '-') then text[1..] else text);
  }

  lemma {:induction false} ParseDigitsIff(text: string)
    ensures ParseDigits(text).Some? <==> forall k :: 0 <= k < |text| ==> '0' <= text[k] <= '9'
  {
    if text == "" {
    } else {
      var rest := text[..|text| - 1];
      ParseDigitsIff(rest);
      assert forall k :: 0 <= k < |rest| ==> text[k] == rest[k];
    }
  }

  lemma DigitRoundTrip(d: nat)
    requires d < 10
    ensures DigitValue(Digit(d)) == Some(d)
  {
  }

  predicate AllDigits(text: string) {
    forall k :: 0 <= k < |text| ==> DigitValue(text[k]).Some?
  }

  lemma ParseAppended(text: string, c: char)
    requires ParseDigits(text).Some? && DigitValue(c).Some?
    ensures ParseDigits(text + [c]) == Some(10 * ParseDigits(text).value + DigitValue(c).value)
  {
    assert (text + [c])[..|text|] == text;
  }

  lemma {:induction false} DecimalRoundTrip(n: nat)
    ensures ParseDigits(Format(n)) == Some(n)
  {
    DigitRoundTrip(n % 10);
    if n < 10 {
      ParseAppended("", Digit(n));
      assert "" + [Digit(n)] == Format(n);
    } else {
      var high, low := n / 10, n % 10;
      DecimalRoundTrip(high);
      ParseAppended(Format(high), Digit(low));
      assert Format(n) == Format(high) + [Digit(low)] && n == 10 * high + low;
    }
  }

  lemma {:induction false} FormatDigits(n: nat)
    ensures AllDigits(Format(n))
  {
    DigitRoundTrip(n % 10);
    if n < 10 {
    } else {
      FormatDigits(n / 10);
    }
  }

  lemma FormatParses(n: nat)
    ensures ParseInt(Format(n)) == Some(n)
    ensures '.' !in Format(n)
  {
    DecimalRoundTrip(n);
    FormatDigits(n);
    assert DigitValue(Format(n)[0]).Some?;
  }

  lemma SignedParses(n: int)
    requires n >= 0
    ensures ParseInt("+" + Format(n)) == Some(n) && ParseInt("-" + Format(n)) == Some(-n)
  {
    DecimalRoundTrip(n);
    assert ("+" + Format(n))[1..] == Format(n) && ("-" + Format(n))[1..] == Format(n);
  }

  function Power10(k: nat): nat {
    if k == 0 then 1 else 10 * Power10(k - 1)
  }

  lemma {:induction false} PowerGrows(k: nat)
    ensures Power10(k) >= 1
    ensures k >= 1 ==> Power10(k) >= 10
  {
    if k == 0 {
    } else {
      PowerGrows(k - 1);
    }
  }

  /** A number has `k` digits exactly when it lies between two neighbouring powers of ten. */
  lemma {:induction false} FormatLength(n: nat, k: nat)
    requires k >= 1
    ensures |Format(n)| == k <==> n < Power10(k) && (k > 1 ==> Power10(k - 1) <= n)
  {
    if k == 1 {
    } else {
      PowerGrows(k - 1);
      if n >= 10 {
        FormatLength(n / 10, k - 1);
      }
    }
  }

  lemma TenDigits()
    ensures Power10(9) == 1_000_000_000 && Power10(10) == 10_000_000_000
  {
  }

  // ---------------------------------------------------------------- splitting

  function IndexOf(text: string, c: char): (k: nat)
    ensures k <= |text|
    ensures k < |text| ==> text[k] == c
    ensures c !in text[..k]
  {
    if text == "" || text[0] == c then 0
    else
      var k := 1 + IndexOf(text[1..], c);
      assert text[..k] == [text[0]] + text[1..][..k - 1];
      k
  }

  /** strings.SplitN(text, ".", 3): the last part keeps any further separators. */
  function SplitInThree(text: string): Option<(string, string, string)> {
    var i := IndexOf(text, '.');
    if i == |text| then None
    else
      var rest := text[i + 1..];
      var j := IndexOf(rest, '.');
      if j == |rest| then None else Some((text[..i], rest[..j], rest[j + 1..]))
  }

  lemma CutOnce(text: string, i: nat)
    requires i < |text| && text[i] == '.'
    ensures text == text[..i] + "." + text[i + 1..]
  {
  }

  /** The parts joined again give the text, and the first two contain no separator. */
  lemma SplitJoins(text: string)
    requires SplitInThree(text).Some?
    ensures var (a, b, c) := SplitInThree(text).value;
      text == a + "." + b + "." + c && '.' !in a && '.' !in b
  {
    var i := IndexOf(text, '.');
    var rest := text[i + 1..];
    var j := IndexOf(rest, '.');
    CutOnce(text, i);
    CutOnce(rest, j);
    JoinThree(text[..i], rest[..j], rest[j + 1..]);
  }

  lemma JoinThree(a: string, b: string, c: string)
    ensures a + "." + (b + "." + c) == a + "." + b + "." + c
  {
  }

  lemma {:induction false} FirstSeparator(a: string, rest: string)
    requires '.' !in a
    ensures IndexOf(a + "." + rest, '.') == |a|
  {
    if a == "" {
      assert a + "." + rest == "." + rest;
    } else {
      assert (a + "." + rest)[1..] == a[1..] + "." + rest;
      FirstSeparator(a[1..], rest);
    }
  }

  lemma SplitUnique(a: string, b: string, c: string)
    requires '.' !in a && '.' !in b
    ensures SplitInThree(a + "." + b + "." + c) == Some((a, b, c))
  {
    var text, rest := a + "." + b + "." + c, b + "." + c;
    assert text == a + "." + rest;
    FirstSeparator(a, rest);
    assert text[|a| + 1..] == rest && text[..|a|] == a;
    FirstSeparator(b, c);
    assert rest[|b| + 1..] == c && rest[..|b|] == b;
  }

  // ---------------------------------------------------------------- issue and validate

  function SessionMac(hmac: Hmac, key: seq<Byte>, payload: string): (mac: string)
    ensures |mac| == 64
  {
    Hex(hmac(key, "relay-sandbox-v1:" + payload))
  }

  datatype Credential = Credential(token: string, id: string)

  /** A credential issued at Unix second `now`, for random identifier `random`. */
  function Issue(hmac: Hmac, key: seq<Byte>, now: int, random: Bytes16): Option<Credential> {
    if |key| != 32 then None
    else if now < 1_000_000_000 || now > 9_999_998_199 then None
    else
      var id := Hex(random);
      var payload := id + "." + Format(now + LIFETIME);
      Some(Credential(payload + "." + SessionMac(hmac, key, payload), id))
  }

  /** The checks on the three parts of a token, in order. */
  function CheckParts(hmac: Hmac, key: seq<Byte>, id: string, expiry: string, mac: string, now: int): Option<string> {
    if |id| != 32 || |expiry| != 10 || |mac| != 64 then None
    else if !IsHex(id) then None
    else if SessionMac(hmac, key, id + "." + expiry) != mac then None
    else
      match ParseInt(expiry)
      case None => None
      case Some(expires) => if expires <= now || expires > now + LIFETIME then None else Some(id)
  }

  /** The identifier in a token that is intact and good at Unix second `now`. */
  function Validate(hmac: Hmac, key: seq<Byte>, token: string, now: int): Option<string> {
    if |key| != 32 || |token| != TOKEN_LENGTH then None
    else
      match SplitInThree(token)
      case None => None
      case Some((id, expiry, mac)) => CheckParts(hmac, key, id, expiry, mac, now)
  }

  lemma PrefixOf(id: string, expiry: string)
    ensures "relay-sandbox-v1:" + (id + "." + expiry) == "relay-sandbox-v1:" + id + "." + expiry
  {
  }

  /** Everything about an issued token's shape: 108 characters, a ten-digit expiry, and one way to split it,
      into the identifier, the expiry, and the MAC of both under the key and the version prefix. */
  lemma IssuedShape(hmac: Hmac, key: seq<Byte>, now: int, random: Bytes16)
    requires |key| == 32 && 1_000_000_000 <= now <= 9_999_998_199
    ensures var issued := Issue(hmac, key, now, random);
      && issued.Some? && |issued.value.token| == TOKEN_LENGTH
      && |Format(now + LIFETIME)| == 10
      && issued.value.id == Hex(random)
      && SplitInThree(issued.value.token) == Some((Hex(random), Format(now + 1800),
           Hex(hmac(key, "relay-sandbox-v1:" + Hex(random) + "." + Format(now + 1800)))))
  {
    TenDigits();
    FormatLength(now + LIFETIME, 10);
    HexIsHex(random);
    FormatParses(now + LIFETIME);
    IssuedParts(hmac, key, Hex(random), Format(now + LIFETIME));
  }

  lemma IssuedParts(hmac: Hmac, key: seq<Byte>, id: string, expiry: string)
    requires '.' !in id && '.' !in expiry && |id| == 32 && |expiry| == 10
    ensures var token := id + "." + expiry + "." + SessionMac(hmac, key, id + "." + expiry);
      && |token| == TOKEN_LENGTH
      && SplitInThree(token) == Some((id, expiry, Hex(hmac(key, "relay-sandbox-v1:" + id + "." + expiry))))
  {
    SplitUnique(id, expiry, SessionMac(hmac, key, id + "." + expiry));
    PrefixOf(id, expiry);
  }

  lemma PartsRoundTrip(hmac: Hmac, key: seq<Byte>, issue: int, random: Bytes16, now: int)
    requires 1_000_000_000 <= issue && |Format(issue + LIFETIME)| == 10
    ensures var id, expiry := Hex(random), Format(issue + LIFETIME);
      CheckParts(hmac, key, id, expiry, SessionMac(hmac, key, id + "." + expiry), now)
      == if issue <= now < issue + 1800 then Some(id) else None
  {
    HexIsHex(random);
    FormatParses(issue + LIFETIME);
  }

  /** Any token that splits into what was issued is good for exactly the half hour from its issue. */
  lemma PartsAccepted(hmac: Hmac, key: seq<Byte>, issue: int, random: Bytes16, token: string, now: int)
    requires |key| == 32 && |token| == 108 && 1_000_000_000 <= issue && |Format(issue + LIFETIME)| == 10
    requires SplitInThree(token) == Some((Hex(random), Format(issue + 1800),
      Hex(hmac(key, "relay-sandbox-v1:" + Hex(random) + "." + Format(issue + 1800)))))
    ensures Validate(hmac, key, token, now) == if issue <= now < issue + 1800 then Some(Hex(random)) else None
  {
    PrefixOf(Hex(random), Format(issue + LIFETIME));
    PartsRoundTrip(hmac, key, issue, random, now);
  }

  /** Round trip: an issued token names its own identifier from the second of issue up to, and not
      including, the second half an hour later, and is refused at every other second. */
  lemma TokenRoundTrip(hmac: Hmac, key: seq<Byte>, issue: int, random: Bytes16, now: int)
    requires |key| == 32 && 1_000_000_000 <= issue <= 9_999_998_199
    ensures Issue(hmac, key, issue, random).Some?
    ensures var c := Issue(hmac, key, issue, random).value;
      Validate(hmac, key, c.token, now) == if issue <= now < issue + 1800 then Some(c.id) else None
  {
    IssuedShape(hmac, key, issue, random);
    PartsAccepted(hmac, key, issue, random, Issue(hmac, key, issue, random).value.token, now);
  }

  /** A credential is issued exactly for a 32-byte key and a second that itself has at least ten digits
      and whose expiry has no more. A ten-digit expiry alone is not enough: the last half hour before
      second 1 000 000 000 has one, too, and is refused. */
  lemma IssueDomain(hmac: Hmac, key: seq<Byte>, now: int, random: Bytes16)
    ensures Issue(hmac, key, now, random).Some?
      <==> |key| == 32 && now >= 1_000_000_000 && |Format(now + LIFETIME)| == 10
  {
    TenDigits();
    if now >= 1_000_000_000 {
      FormatLength(now + LIFETIME, 10);
    }
  }

  lemma RefusedWithTenDigits(hmac: Hmac, key: seq<Byte>, random: Bytes16)
    ensures |Format(999_999_000 + LIFETIME)| == 10 && Issue(hmac, key, 999_999_000, random).None?
  {
    TenDigits();
    FormatLength(999_999_000 + LIFETIME, 10);
  }

  /** Whatever is accepted carries a MAC under this key over exactly the identifier and expiry it is
      accepted for, and expires within the next half hour. */
  lemma AcceptedIsAuthentic(hmac: Hmac, key: seq<Byte>, token: string, now: int, expiry: string)
    requires Validate(hmac, key, token, now).Some?
    requires SplitInThree(token).Some? && SplitInThree(token).value.1 == expiry
    ensures var id := Validate(hmac, key, token, now).value;
      && token == id + "." + expiry + "." + Hex(hmac(key, "relay-sandbox-v1:" + id + "." + expiry))
      && |id| == 32 && |expiry| == 10
      && (forall k :: 0 <= k < |id| ==> '0' <= id[k] <= '9' || 'a' <= id[k] <= 'f' || 'A' <= id[k] <= 'F')
      && ParseInt(expiry).Some? && now < ParseInt(expiry).value <= now + 1800
  {
    SplitJoins(token);
    PrefixOf(Validate(hmac, key, token, now).value, expiry);
  }

  /** Exactly what is accepted: under a 32-byte key, an identifier of 32 hexadecimal digits and an expiry of
      ten characters that reads as a second within the next half hour, with the MAC of the two. */
  lemma AcceptedIff(hmac: Hmac, key: seq<Byte>, id: string, expiry: string, mac: string, now: int)
    requires '.' !in id && '.' !in expiry
    ensures Validate(hmac, key, id + "." + expiry + "." + mac, now) == Some(id)
      <==> |key| == 32 && |id| == 32 && |expiry| == 10
           && mac == Hex(hmac(key, "relay-sandbox-v1:" + id + "." + expiry))
           && (forall k :: 0 <= k < |id| ==> '0' <= id[k] <= '9' || 'a' <= id[k] <= 'f' || 'A' <= id[k] <= 'F')
           && ParseInt(expiry).Some? && now < ParseInt(expiry).value <= now + 1800
    ensures Validate(hmac, key, id + "." + expiry + "." + mac, now).Some?
      ==> Validate(hmac, key, id + "." + expiry + "." + mac, now) == Some(id)
  {
    SplitUnique(id, expiry, mac);
    PrefixOf(id, expiry);
  }

  lemma HexInjective(a: seq<Byte>, b: seq<Byte>)
    requires Hex(a) == Hex(b)
    ensures a == b
  {
    HexRoundTrip(a);
    HexRoundTrip(b);
  }

  lemma SameParts(id: string, expiry: string, mac: string, id': string, expiry': string, mac': string)
    requires |id| == |id'| && |expiry| == |expiry'|
    requires id + "." + expiry + "." + mac == id' + "." + expiry' + "." + mac'
    ensures id == id' && expiry == expiry' && mac == mac'
  {
    var token, token' := id + "." + expiry + "." + mac, id' + "." + expiry' + "." + mac';
    assert id == token[..|id|] && id' == token'[..|id|];
    assert expiry == token[|id| + 1..|id| + 1 + |expiry|] && expiry' == token'[|id| + 1..|id| + 1 + |expiry|];
    assert mac == token[|id| + |expiry| + 2..] && mac' == token'[|id| + |expiry| + 2..];
  }

  /** A MAC does not travel: moved to another key, identifier or expiry, a token is refused at every second,
      unless the MAC function itself gives both the same value. */
  lemma MovedMacRefused(hmac: Hmac, key: seq<Byte>, id: string, expiry: string,
                        key': seq<Byte>, id': string, expiry': string, now: int)
    requires |id'| == 32 && |expiry'| == 10
    requires hmac(key, "relay-sandbox-v1:" + id + "." + expiry) != hmac(key', "relay-sandbox-v1:" + id' + "." + expiry')
    ensures var mac := Hex(hmac(key, "relay-sandbox-v1:" + id + "." + expiry));
      Validate(hmac, key', id' + "." + expiry' + "." + mac, now).None?
  {
    var mac := Hex(hmac(key, "relay-sandbox-v1:" + id + "." + expiry));
    var token := id' + "." + expiry' + "." + mac;
    if Validate(hmac, key', token, now).Some? {
      var (a, b, c) := SplitInThree(token).value;
      AcceptedIsAuthentic(hmac, key', token, now, b);
      SameParts(id', expiry', mac, a, b, c);
      HexInjective(hmac(key, "relay-sandbox-v1:" + id + "." + expiry),
                   hmac(key', "relay-sandbox-v1:" + id' + "." + expiry'));
      assert false;
    }
  }

  /** Two tokens accepted under one key for the same identifier and expiry are the same token. */
  lemma NoSecondToken(hmac: Hmac, key: seq<Byte>, s: string, t: string, now: int, later: int)
    requires Validate(hmac, key, s, now).Some? && Validate(hmac, key, t, later).Some?
    requires Validate(hmac, key, s, now) == Validate(hmac, key, t, later)
    requires SplitInThree(s).Some? && SplitInThree(t).Some? && SplitInThree(s).value.1 == SplitInThree(t).value.1
    ensures s == t
  {
    SplitJoins(s);
    SplitJoins(t);
  }
}
