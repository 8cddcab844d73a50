/** The Home Assistant skill: switching a device on or off by posting an event
    to Home Assistant's REST API. The skill's configuration, the entities the
    utterance produced and the HTTP status Home Assistant answers with are
    inputs. Line numbers in this module refer to `packages/hass/hass.py`. */
module Hass {
  import opened Wrappers
  import opened Strings

  // ---------------------------------------------------------------------
  // Inputs
  // ---------------------------------------------------------------------

  /** An entity extracted from the utterance. */
  datatype Entity = Entity(entity: string, sourceText: string)

  /** The three settings the skill reads with `utils.config`. The key may be
      missing; the port is kept as the text `str.format` renders it as. */
  datatype Config = Config(apikey: Option<string>, hostname: string, port: string)

  /** The test `not utils.config('apikey')` fails: the key is set and non-empty. */
  predicate KeyProvided(apikey: Option<string>)
  {
    apikey.Some? && apikey.value != ""
  }

  datatype Action = TurnOn | TurnOff

  /** The `action` field each skill posts. */
  function ActionText(a: Action): string
  {
    match a
    case TurnOn => "turn on"
    case TurnOff => "turn off"
  }

  /** The answer given to `utils.output('end', ...)`. */
  datatype Answer =
    | KeyNotProvided
    | DeviceNotProvided
    | ConnectionFailed(code: int)
    | TurnedOnDevice(device: string)
    | TurnedOffDevice(device: string)

  /** The answer of a successful post. */
  function Done(a: Action, device: string): Answer
  {
    match a
    case TurnOn => TurnedOnDevice(device)
    case TurnOff => TurnedOffDevice(device)
  }

  // ---------------------------------------------------------------------
  // Device selection
  // ---------------------------------------------------------------------

  /** The `sourceText` of the last entity of kind `device`, or `""`: either
      way the text of some device entity, unless it is `""`. */
  function LastDevice(entities: seq<Entity>): (r: string)
    ensures r == "" || exists k :: 0 <= k < |entities| && entities[k] == Entity("device", r)
  {
    if |entities| == 0 then ""
    else if entities[|entities| - 1].entity == "device" then entities[|entities| - 1].sourceText
    else LastDevice(entities[..|entities| - 1])
  }

  /** No entity at index `k` or later is a device. */
  predicate NoDeviceFrom(entities: seq<Entity>, k: nat)
  {
    forall j :: k <= j < |entities| ==> entities[j].entity != "device"
  }

  /** Without a device entity the device is `""`; otherwise it is the text of
      a device entity that no other device entity follows. */
  lemma {:induction false} LastDeviceIsLast(entities: seq<Entity>)
    ensures NoDeviceFrom(entities, 0) ==> LastDevice(entities) == ""
    ensures !NoDeviceFrom(entities, 0) ==>
      exists k :: 0 <= k < |entities| && entities[k].entity == "device"
        && NoDeviceFrom(entities, k + 1) && LastDevice(entities) == entities[k].sourceText
  {
    if |entities| > 0 {
      var n := |entities| - 1;
      var init := entities[..n];
      if entities[n].entity == "device" {
        assert NoDeviceFrom(entities, n + 1);
      } else {
        LastDeviceIsLast(init);
        if NoDeviceFrom(init, 0) {
          assert NoDeviceFrom(entities, 0) by {
            forall j | 0 <= j < |entities| ensures entities[j].entity != "device" {
              if j < n { assert entities[j] == init[j]; }
            }
          }
        } else {
          var k :| 0 <= k < |init| && init[k].entity == "device"
            && NoDeviceFrom(init, k + 1) && LastDevice(init) == init[k].sourceText;
          assert entities[k] == init[k];
          assert NoDeviceFrom(entities, k + 1) by {
            forall j | k + 1 <= j < |entities| ensures entities[j].entity != "device" {
              if j < n { assert entities[j] == init[j]; }
            }
          }
        }
      }
    }
  }

  /** Lines 16-18 and 37-39: the scan that overwrites `device` at every device
      entity. */
  method SelectDevice(entities: seq<Entity>) returns (device: string)
    ensures device == LastDevice(entities)
  {
    device := "";
    for i := 0 to |entities|
      invariant device == LastDevice(entities[..i])
    {
      assert entities[..i + 1][..i] == entities[..i];
      if entities[i].entity == "device" {
        device := entities[i].sourceText;
      }
    }
    assert entities[..|entities|] == entities;
  }

  // ---------------------------------------------------------------------
  // The hostname and the request
  // ---------------------------------------------------------------------

  /** `http://` followed by anything contains `://`. */
  lemma SchemeContainsSeparator(hostname: string)
    ensures Contains("http://" + hostname, "://")
  {
    assert ("http://" + hostname)[4..7] == "://";
    assert OccursAt("http://" + hostname, "://", 4);
  }

  /** Lines 55-56: a hostname without `://` gets the `http://` scheme. */
  function NormalizeHostname(hostname: string): (r: string)
    ensures Contains(r, "://")
    ensures r == hostname <==> Contains(hostname, "://")
    ensures r == hostname || r == "http://" + hostname
  {
    if Contains(hostname, "://") then hostname
    else
      SchemeContainsSeparator(hostname);
      "http://" + hostname
  }

  /** Normalising a normalised hostname changes nothing. */
  lemma NormalizeHostnameIdempotent(hostname: string)
    ensures NormalizeHostname(NormalizeHostname(hostname)) == NormalizeHostname(hostname)
  {
  }

  /** The JSON document posted to Home Assistant. */
  datatype Payload = Payload(action: string, device: string)

  /** An HTTP request as `requests.Request` assembles it. */
  datatype Request = Request(verb: string, url: string, body: string, headers: seq<(string, string)>)

  const EventPath: string := "/api/events/script_started"

  /** `'Bearer {}'.format(apikey)`; a missing key formats as `None`. */
  function Bearer(apikey: Option<string>): string
  {
    match apikey
    case Some(k) => "Bearer " + k
    case None => "Bearer None"
  }

  /** Line 63: the event URL is the normalised hostname, a colon, the port
      and the event path, in that order; it always names a scheme. */
  function EventUrl(config: Config): (url: string)
    ensures var host := NormalizeHostname(config.hostname);
      && |url| == |host| + 1 + |config.port| + |EventPath|
      && url[..|host|] == host
      && url[|host|] == ':'
      && url[|host| + 1..|url| - |EventPath|] == config.port
      && url[|url| - |EventPath|..] == EventPath
    ensures Contains(url, "://")
  {
    var host := NormalizeHostname(config.hostname);
    var rest := ":" + config.port + EventPath;
    ContainsInPrefix(host, rest, "://");
    var url := host + ":" + config.port + EventPath;
    assert host + rest == url;
    assert url[|host| + 1..|url| - |EventPath|] == config.port;
    url
  }

  /** Lines 54-69: the event request for `payload`. */
  function PostRequest(config: Config, payload: Payload): (req: Request)
    ensures ParsePayload(req.body) == Some(payload)
  {
    DumpsRoundTrip(payload);
    Request("POST", EventUrl(config), Dumps(payload),
            [("Authorization", Bearer(config.apikey)), ("Content-Type", "application/json")])
  }

  /** An occurrence stays one when more text is appended. */
  lemma ContainsInPrefix(s: string, more: string, t: string)
    requires Contains(s, t)
    ensures Contains(s + more, t)
  {
    var i :| OccursAt(s, t, i);
    assert (s + more)[i..i + |t|] == s[i..i + |t|];
    assert OccursAt(s + more, t, i);
  }

  /** Lines 50-73, with the HTTP exchange as the parameter `send`: the
      hostname is normalised in place, the request assembled and sent, and
      its status returned. */
  method PostDataToHass(config: Config, payload: Payload, send: Request -> int)
    returns (req: Request, status: int)
    ensures req == PostRequest(config, payload)
    ensures req.verb == "POST"
    ensures req.url == EventUrl(config)
    ensures req.headers == [("Authorization", Bearer(config.apikey)), ("Content-Type", "application/json")]
    ensures status == send(req)
  {
    var hostname := config.hostname;
    if !Contains(hostname, "://") {
      hostname := "http://" + hostname;
    }
    var raw := Dumps(payload);
    req := Request("POST", hostname + ":" + config.port + EventPath, raw,
                   [("Authorization", Bearer(config.apikey)), ("Content-Type", "application/json")]);
    status := send(req);
  }

  // ---------------------------------------------------------------------
  // json.dumps of the payload
  // ---------------------------------------------------------------------

  /** A lower-case hexadecimal digit. */
  function HexDigit(d: nat): (c: char)
    requires d < 16
    ensures '0' <= c <= '9' || 'a' <= c <= 'f'
  {
    if d < 10 then ('0' as int + d) as char else ('a' as int + d - 10) as char
  }

  /** The value of a hexadecimal digit in either case. */
  function HexValue(c: char): (r: Option<nat>)
    ensures r.Some? ==> r.value < 16
  {
    if '0' <= c <= '9' then Some(c as int - '0' as int)
    else if 'a' <= c <= 'f' then Some(c as int - 'a' as int + 10)
    else if 'A' <= c <= 'F' then Some(c as int - 'A' as int + 10)
    else None
  }

  /** The last `width` hexadecimal digits of `n`. */
  function Hex(n: nat, width: nat): (r: string)
    ensures |r| == width
    ensures forall i :: 0 <= i < |r| ==> '0' <= r[i] <= '9' || 'a' <= r[i] <= 'f'
  {
    if width == 0 then "" else Hex(n / 16, width - 1) + [HexDigit(n % 16)]
  }

  /** A string of hexadecimal digits read as a number. */
  function ParseHex(s: string): (r: Option<nat>)
    ensures r.Some? ==> r.value < Pow16(|s|)
  {
    if s == [] then Some(0)
    else
      match (ParseHex(s[..|s| - 1]), HexValue(s[|s| - 1]))
      case (Some(high), Some(low)) => Some(high * 16 + low)
      case _ => None
  }

  function Pow16(width: nat): nat
  {
    if width == 0 then 1 else 16 * Pow16(width - 1)
  }

  /** Reading back the digits of a number that fits gives the number. */
  lemma {:induction false} HexRoundTrip(n: nat, width: nat)
    requires n < Pow16(width)
    ensures ParseHex(Hex(n, width)) == Some(n)
  {
    if width > 0 {
      var q, d := n / 16, n % 16;
      DigitsBound(n, Pow16(width - 1));
      HexRoundTrip(q, width - 1);
      HexValueOfDigit(d);
      ParseHexAppend(Hex(q, width - 1), HexDigit(d));
      assert Hex(n, width) == Hex(q, width - 1) + [HexDigit(d)];
    }
  }

  /** Reading one more digit shifts the value read so far. */
  lemma ParseHexAppend(prefix: string, c: char)
    ensures ParseHex(prefix + [c]) ==
      match (ParseHex(prefix), HexValue(c))
      case (Some(high), Some(low)) => Some(high * 16 + low)
      case _ => None
  {
    assert (prefix + [c])[..|prefix|] == prefix;
  }

  lemma DigitsBound(n: nat, k: nat)
    requires n < 16 * k
    ensures n / 16 < k && n == n / 16 * 16 + n % 16
  {
  }

  lemma HexValueOfDigit(d: nat)
    requires d < 16
    ensures HexValue(HexDigit(d)) == Some(d)
  {
  }

  /** One character as `json.dumps` writes it with `ensure_ascii`: quote and
      backslash escaped, the five control characters that have a short escape
      written with it, other printable ASCII as is, the rest as `\uXXXX` in
      lower-case hex, outside the Basic Multilingual Plane as a surrogate pair. */
  function EscapeChar(c: char): (r: string)
    ensures |r| > 0
    ensures Printable(r)
  {
    if c == '"' then "\\\""
    else if c == '\\' then "\\\\"
    else if c == '\n' then "\\n"
    else if c == '\r' then "\\r"
    else if c == '\t' then "\\t"
    else if c as int == 8 then "\\b"
    else if c as int == 12 then "\\f"
    else if ' ' <= c <= '~' then [c]
    else if c as int < 0x10000 then "\\u" + Hex(c as int, 4)
    else
      var v := c as int - 0x10000;
      "\\u" + Hex(0xD800 + v / 0x400, 4) + "\\u" + Hex(0xDC00 + v % 0x400, 4)
  }

  /** The quoted contents of a JSON string written by `json.dumps`: only
      printable ASCII. */
  function Escape(s: string): (r: string)
    ensures Printable(r)
  {
    if s == [] then [] else EscapeChar(s[0]) + Escape(s[1..])
  }

  /** The text of the payload document around its two escaped strings:
      `{"action": "`, then `", "device": "` and `"}`, each closing quote
      written separately. */
  const PayloadOpen: string := "{\"action\": \""
  const PayloadMiddle: string := ", \"device\": \""
  const PayloadClose: string := "}"

  /** Line 58: `json.dumps({"action": ..., "device": ...})` with the default
      separators, keys in insertion order; the document is printable ASCII. */
  function Dumps(p: Payload): (r: string)
    ensures Printable(r)
  {
    var q := "\"";
    var o, a, m, d := PayloadOpen, Escape(p.action), PayloadMiddle, Escape(p.device);
    PrintableConcat(o, a);
    PrintableConcat(o + a, q);
    PrintableConcat(o + a + q, m);
    PrintableConcat(o + a + q + m, d);
    PrintableConcat(o + a + q + m + d, q);
    PrintableConcat(o + a + q + m + d + q, PayloadClose);
    PayloadOpen + Escape(p.action) + "\"" + PayloadMiddle + Escape(p.device) + "\"" + PayloadClose
  }

  /** Only printable ASCII characters. */
  predicate Printable(s: string)
  {
    forall i :: 0 <= i < |s| ==> ' ' <= s[i] <= '~'
  }

  lemma PrintableConcat(a: string, b: string)
    requires Printable(a) && Printable(b)
    ensures Printable(a + b)
  {
    forall i | 0 <= i < |a + b| ensures ' ' <= (a + b)[i] <= '~' {
      if i >= |a| { assert (a + b)[i] == b[i - |a|]; }
    }
  }

  // ---------------------------------------------------------------------
  // Reading the payload back
  // ---------------------------------------------------------------------

  /** The escape sequence at the front of `s`, decoded, with its length. Only
      sequences that denote a Unicode scalar value are accepted. */
  function EscapeAt(s: string): (r: Option<(char, nat)>)
    ensures r.Some? ==> 2 <= r.value.1 <= |s|
  {
    assert Pow16(4) == 0x10000;
    if |s| < 2 || s[0] != '\\' then None
    else if s[1] == '"' then Some(('"', 2))
    else if s[1] == '\\' then Some(('\\', 2))
    else if s[1] == '/' then Some(('/', 2))
    else if s[1] == 'b' then Some((8 as char, 2))
    else if s[1] == 'f' then Some((12 as char, 2))
    else if s[1] == 'n' then Some(('\n', 2))
    else if s[1] == 'r' then Some(('\r', 2))
    else if s[1] == 't' then Some(('\t', 2))
    else if s[1] != 'u' || |s| < 6 then None
    else
      match ParseHex(s[2..6])
      case None => None
      case Some(high) =>
        if 0xDC00 <= high < 0xE000 then None
        else if high < 0xD800 || 0xE000 <= high then Some((high as char, 6))
        else if |s| < 12 || s[6] != '\\' || s[7] != 'u' then None
        else
          match ParseHex(s[8..12])
          case None => None
          case Some(low) =>
            if 0xDC00 <= low < 0xE000 && high < 0xDC00 then Some(((0x10000 + (high - 0xD800) * 0x400 + (low - 0xDC00)) as char, 12))
            else None
  }

  /** Puts `c` in front of the text read. */
  function Prepend(c: char, r: Option<(string, string)>): Option<(string, string)>
  {
    match r
    case None => None
    case Some((text, rest)) => Some(([c] + text, rest))
  }

  /** The body of a JSON string up to its closing quote: the text it denotes
      and what follows the quote. */
  function ReadString(s: string): Option<(string, string)>
  {
    if |s| == 0 then None
    else if s[0] == '"' then Some(("", s[1..]))
    else if s[0] == '\\' then
      match EscapeAt(s)
      case None => None
      case Some((c, n)) => Prepend(c, ReadString(s[n..]))
    else if s[0] < ' ' then None
    else Prepend(s[0], ReadString(s[1..]))
  }

  /** What follows `prefix` in `s`, if `s` starts with it. */
  function StripPrefix(prefix: string, s: string): Option<string>
  {
    if |s| < |prefix| || s[..|prefix|] != prefix then None else Some(s[|prefix|..])
  }

  lemma StripPrefixOf(prefix: string, rest: string)
    ensures StripPrefix(prefix, prefix + rest) == Some(rest)
  {
    assert (prefix + rest)[..|prefix|] == prefix;
    assert (prefix + rest)[|prefix|..] == rest;
  }

  /** The document `Dumps` writes, read back. */
  function ParsePayload(doc: string): Option<Payload>
  {
    match StripPrefix(PayloadOpen, doc)
    case None => None
    case Some(afterOpen) =>
      match ReadString(afterOpen)
      case None => None
      case Some((action, rest)) =>
        match StripPrefix(PayloadMiddle, rest)
        case None => None
        case Some(afterMiddle) =>
          match ReadString(afterMiddle)
          case None => None
          case Some((device, tail)) => if tail == PayloadClose then Some(Payload(action, device)) else None
  }

  /** A character written as itself is read as itself. */
  lemma ReadPlain(c: char, tail: string)
    requires ' ' <= c <= '~' && c != '"' && c != '\\'
    ensures ReadString([c] + tail) == Prepend(c, ReadString(tail))
  {
    assert ([c] + tail)[1..] == tail;
  }

  /** A two-character escape is read as the character it stands for. */
  lemma ReadShortEscape(c: char, e: char, tail: string)
    requires EscapeAt(['\\', e] + tail) == Some((c, 2))
    ensures ReadString(['\\', e] + tail) == Prepend(c, ReadString(tail))
  {
    assert (['\\', e] + tail)[2..] == tail;
  }

  /** The fields of one `\uXXXX` unit at the front of a string. */
  lemma UnitFields(code: nat, tail: string)
    requires code < 0x10000
    ensures var s := "\\u" + Hex(code, 4) + tail;
      |s| >= 6 && s[0] == '\\' && s[1] == 'u' && ParseHex(s[2..6]) == Some(code) && s[6..] == tail
  {
    var s := "\\u" + Hex(code, 4) + tail;
    assert s[2..6] == Hex(code, 4);
    assert s[6..] == tail;
    assert Pow16(4) == 0x10000;
    HexRoundTrip(code, 4);
  }

  /** A `\uXXXX` escape of a character of the Basic Multilingual Plane is
      read as that character. */
  lemma ReadUnicodeEscape(c: char, tail: string)
    requires c as int < 0x10000
    ensures ReadString("\\u" + Hex(c as int, 4) + tail) == Prepend(c, ReadString(tail))
  {
    UnitFields(c as int, tail);
    assert EscapeAt("\\u" + Hex(c as int, 4) + tail) == Some((c, 6));
  }

  /** A surrogate pair is read as the character it encodes. */
  lemma ReadSurrogatePair(c: char, tail: string)
    requires c as int >= 0x10000
    ensures var v := c as int - 0x10000;
      ReadString("\\u" + Hex(0xD800 + v / 0x400, 4) + "\\u" + Hex(0xDC00 + v % 0x400, 4) + tail)
        == Prepend(c, ReadString(tail))
  {
    var v := c as int - 0x10000;
    var high, low := 0xD800 + v / 0x400, 0xDC00 + v % 0x400;
    var second := "\\u" + Hex(low, 4) + tail;
    var s := "\\u" + Hex(high, 4) + second;
    assert s == "\\u" + Hex(high, 4) + "\\u" + Hex(low, 4) + tail;
    UnitFields(high, second);
    UnitFields(low, tail);
    assert s[6..][2..6] == s[8..12];
    assert s[6..][6..] == s[12..];
    assert 0x10000 + (high - 0xD800) * 0x400 + (low - 0xDC00) == c as int;
    assert EscapeAt(s) == Some((c, 12));
  }

  /** Every character `EscapeChar` writes is read back. */
  lemma ReadEscapedChar(c: char, tail: string)
    ensures ReadString(EscapeChar(c) + tail) == Prepend(c, ReadString(tail))
  {
    if c == '"' {
      ReadShortEscape(c, '"', tail);
    } else if c == '\\' {
      ReadShortEscape(c, '\\', tail);
    } else if c == '\n' {
      ReadShortEscape(c, 'n', tail);
    } else if c == '\r' {
      ReadShortEscape(c, 'r', tail);
    } else if c == '\t' {
      ReadShortEscape(c, 't', tail);
    } else if c as int == 8 {
      ReadShortEscape(c, 'b', tail);
    } else if c as int == 12 {
      ReadShortEscape(c, 'f', tail);
    } else if ' ' <= c <= '~' {
      ReadPlain(c, tail);
    } else if c as int < 0x10000 {
      ReadUnicodeEscape(c, tail);
    } else {
      ReadSurrogatePair(c, tail);
    }
  }

  /** An escaped string followed by a quote is read back whole, and reading
      stops right after the quote. */
  lemma {:induction false} ReadEscaped(t: string, rest: string)
    ensures ReadString(Escape(t) + "\"" + rest) == Some((t, rest))
  {
    if t == [] {
      assert Escape(t) + "\"" + rest == "\"" + rest;
    } else {
      ReadEscaped(t[1..], rest);
      assert Escape(t) + "\"" + rest == EscapeChar(t[0]) + (Escape(t[1..]) + "\"" + rest);
      ReadEscapedChar(t[0], Escape(t[1..]) + "\"" + rest);
      assert [t[0]] + t[1..] == t;
    }
  }

  /** The posted body is the JSON of the payload: reading it back gives the
      payload. */
  lemma DumpsRoundTrip(p: Payload)
    ensures ParsePayload(Dumps(p)) == Some(p)
  {
    var a, d := Escape(p.action), Escape(p.device);
    var afterMiddle := d + "\"" + PayloadClose;
    var afterAction := PayloadMiddle + afterMiddle;
    var afterOpen := a + "\"" + afterAction;
    Regroup(PayloadOpen, a, "\"", PayloadMiddle, d, PayloadClose);
    StripPrefixOf(PayloadOpen, afterOpen);
    ReadEscaped(p.action, afterAction);
    StripPrefixOf(PayloadMiddle, afterMiddle);
    ReadEscaped(p.device, PayloadClose);
  }

  lemma Regroup(o: string, a: string, q: string, m: string, d: string, c: string)
    ensures o + a + q + m + d + q + c == o + (a + q + (m + (d + q + c)))
  {
  }

  // ---------------------------------------------------------------------
  // The two skills
  // ---------------------------------------------------------------------

  /** What a skill answers, and the request it posted, if any. */
  datatype Response = Response(answer: Answer, posted: Option<Request>)

  /** Lines 11-27 and 32-48: the key, then the device, then the status. A
      failed connection is only ever reported after a post, and never for
      status 200. */
  function Respond(a: Action, config: Config, entities: seq<Entity>, send: Request -> int): (r: Response)
    ensures r.answer.ConnectionFailed? ==> r.posted.Some? && r.answer.code != 200
  {
    if !KeyProvided(config.apikey) then Response(KeyNotProvided, None)
    else
      var device := LastDevice(entities);
      if device == "" then Response(DeviceNotProvided, None)
      else
        var req := PostRequest(config, Payload(ActionText(a), device));
        var status := send(req);
        if status != 200 then Response(ConnectionFailed(status), Some(req))
        else Response(Done(a, device), Some(req))
  }

  /** Without a key the answer is `key_not_provided` whatever the entities
      and Home Assistant would say, and nothing is posted. */
  lemma KeyCheckedFirst(a: Action, config: Config, e1: seq<Entity>, e2: seq<Entity>,
                        s1: Request -> int, s2: Request -> int)
    requires !KeyProvided(config.apikey)
    ensures Respond(a, config, e1, s1) == Respond(a, config, e2, s2) == Response(KeyNotProvided, None)
  {
  }

  /** With a key, `device_not_provided` is answered exactly when no device
      entity has a non-empty text last, and then nothing is posted. */
  lemma DeviceCheckedSecond(a: Action, config: Config, entities: seq<Entity>, send: Request -> int)
    requires KeyProvided(config.apikey)
    ensures Respond(a, config, entities, send).answer == DeviceNotProvided <==> LastDevice(entities) == ""
    ensures NoDeviceFrom(entities, 0) ==> Respond(a, config, entities, send) == Response(DeviceNotProvided, None)
  {
    LastDeviceIsLast(entities);
  }

  /** Exactly the runs that get past both checks post, they post the JSON of
      the action and the device to the event URL, and the status decides the
      answer: 200 reports the device switched, anything else the code. */
  lemma StatusDecides(a: Action, config: Config, entities: seq<Entity>, send: Request -> int)
    ensures var r := Respond(a, config, entities, send);
      r.posted.Some? <==> KeyProvided(config.apikey) && LastDevice(entities) != ""
    ensures var r := Respond(a, config, entities, send);
      r.posted.Some? ==> (
        && ParsePayload(r.posted.value.body) == Some(Payload(ActionText(a), LastDevice(entities)))
        && r.posted.value.url == EventUrl(config)
        && r.answer == if send(r.posted.value) == 200 then Done(a, LastDevice(entities))
                       else ConnectionFailed(send(r.posted.value)))
  {
  }

  /** The answer of `power_off` for the answer of `power_on`. */
  function Mirrored(a: Answer): Answer
  {
    match a
    case TurnedOnDevice(device) => TurnedOffDevice(device)
    case _ => a
  }

  /** The two skills take the same branch on the same inputs and post the
      same request but for the action in its body. */
  lemma OnAndOffPostAlike(config: Config, entities: seq<Entity>, send: Request -> int)
    ensures var on, off := Respond(TurnOn, config, entities, send), Respond(TurnOff, config, entities, send);
      && (on.posted.None? ==> off == on)
      && (on.posted.Some? ==> (
            && off.posted.Some?
            && off.posted.value == on.posted.value.(body := Dumps(Payload("turn off", LastDevice(entities))))))
  {
    var device := LastDevice(entities);
    var on, off := Respond(TurnOn, config, entities, send), Respond(TurnOff, config, entities, send);
    if !KeyProvided(config.apikey) {
      assert on == off == Response(KeyNotProvided, None);
    } else if device == "" {
      assert on == off == Response(DeviceNotProvided, None);
    } else {
      var reqOn := PostRequest(config, Payload(ActionText(TurnOn), device));
      var reqOff := PostRequest(config, Payload(ActionText(TurnOff), device));
      assert on.posted == Some(reqOn) && off.posted == Some(reqOff);
      assert reqOff == reqOn.(body := Dumps(Payload("turn off", device)));
    }
  }

  /** Given the same status, the two skills answer alike but for the word
      of the success answer. */
  lemma OnAndOffAnswerAlike(config: Config, entities: seq<Entity>, send: Request -> int)
    ensures var on, off := Respond(TurnOn, config, entities, send), Respond(TurnOff, config, entities, send);
      on.posted.Some? && send(on.posted.value) == send(off.posted.value) ==> off.answer == Mirrored(on.answer)
  {
  }

  /** The entity scan, the checks and the post of one skill, in source order. */
  method Switch(a: Action, config: Config, entities: seq<Entity>, send: Request -> int)
    returns (response: Response)
    ensures response == Respond(a, config, entities, send)
  {
    if !KeyProvided(config.apikey) {
      return Response(KeyNotProvided, None);
    }
    var device := SelectDevice(entities);
    if device == "" {
      return Response(DeviceNotProvided, None);
    }
    var req, status := PostDataToHass(config, Payload(ActionText(a), device), send);
    if status != 200 {
      return Response(ConnectionFailed(status), Some(req));
    }
    response := Response(Done(a, device), Some(req));
  }

  /** Lines 8-27. */
  method PowerOn(config: Config, entities: seq<Entity>, send: Request -> int) returns (response: Response)
    ensures response == Respond(TurnOn, config, entities, send)
  {
    response := Switch(TurnOn, config, entities, send);
  }

  /** Lines 29-48. */
  method PowerOff(config: Config, entities: seq<Entity>, send: Request -> int) returns (response: Response)
    ensures response == Respond(TurnOff, config, entities, send)
  {
    response := Switch(TurnOff, config, entities, send);
  }
}
