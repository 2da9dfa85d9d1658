/**
  The BambooHR request layer (`send_bamboo_request`) and the working-day count (`count_working_days`).
  The HTTP round trip itself is outside this model: a request is a value, and the reply a
  `Response` value supplied by the environment.
*/
module BambooHttp {
  import opened Wrappers
  import opened Json
  import opened Text
  import opened Encoding
  import opened Dates

  datatype Method = GET | POST | PUT

  /** The `requests.request(method, url, headers=headers, json=data)` call, as data. */
  datatype Request = Request(verb: Method, url: string, headers: map<string, string>, body: Option<Json>)

  /** The parts of a reply that the integrations read: status code, `Location` header, decoded JSON body. */
  datatype Response = Response(status: int, location: Option<string>, body: Option<Json>)

  /** The configuration `send_bamboo_request` reads. */
  datatype Settings = Settings(apiKey: string, baseUrl: string)

  const DefaultBaseUrl: string := "https://api.bamboohr.com/api/gateway.php/stackonetest/v1"

  /** `"Basic " + base64(f"{api_key}:x")`: HTTP Basic credentials with the API key as user and `x` as password. */
  function AuthorizationHeader(apiKey: string): (h: string)
    ensures |h| >= 6 && h[..6] == "Basic "
  {
    "Basic " + Base64Encode(Utf8(apiKey + ":x"), false)
  }

  /** The credentials can be read back from the header: the API key, a colon and `x`. */
  lemma AuthorizationHeaderDecodes(apiKey: string)
    ensures Base64Decode(AuthorizationHeader(apiKey)[6..], false) == Some(Utf8(apiKey + ":x"))
  {
    var h := AuthorizationHeader(apiKey);
    assert h[6..] == Base64Encode(Utf8(apiKey + ":x"), false);
    Base64RoundTrip(Utf8(apiKey + ":x"), false);
  }

  /** `send_bamboo_request(url_path, method, data)`: the request it sends. */
  function BambooRequest(settings: Settings, path: string, verb: Method, data: Option<Json>): (r: Request)
    ensures r.verb == verb && r.body == data
    ensures r.url == settings.baseUrl + path
    ensures r.headers.Keys == {"Authorization", "accept"}
    ensures r.headers["Authorization"] == AuthorizationHeader(settings.apiKey)
    ensures r.headers["accept"] == "application/json"
  {
    Request(verb, settings.baseUrl + path,
            map["Authorization" := AuthorizationHeader(settings.apiKey), "accept" := "application/json"],
            data)
  }

  /** The status check that follows every request but one: anything other than `expected` raises `message`. */
  function ExpectStatus(res: Response, expected: int, message: string): (r: Result<()>)
    ensures r.Ok? <==> res.status == expected
    ensures r.Err? ==> r.error == message
  {
    if res.status != expected then Err(message) else Ok(())
  }

  /** `res.json()`: the decoded body, raising when the body is not JSON. */
  function ResponseJson(res: Response): (r: Result<Json>)
    ensures r.Ok? <==> res.body.Some?
    ensures r.Ok? ==> r.value == res.body.value
  {
    if res.body.None? then Err("response body is not valid JSON") else Ok(res.body.value)
  }

  /** `res.headers["Location"].split("/")[-1]`: the id at the end of the new resource's location. */
  function LocationId(res: Response): (r: Result<string>)
    ensures r.Ok? <==> res.location.Some?
  {
    if res.location.None? then Err("response has no Location header") else Ok(LastSegment(res.location.value, '/'))
  }

  /** The id contains no `/` and is what follows the last `/` of the location (or all of it). */
  lemma LocationIdIsLastSegment(res: Response)
    requires res.location.Some?
    ensures var id := LocationId(res).value; var loc := res.location.value;
      '/' !in id && |id| <= |loc| && loc[|loc| - |id|..] == id
      && (|id| < |loc| ==> loc[|loc| - |id| - 1] == '/')
  {
    LastSegmentIsSuffix(res.location.value, '/');
  }

  // ---------------------------------------------------------------------------------------------
  // urllib.parse.urlencode over string pairs (quote_plus on each key and value)

  predicate IsUnreserved(b: byte)
  {
    || 'A' as int <= b <= 'Z' as int || 'a' as int <= b <= 'z' as int || '0' as int <= b <= '9' as int
    || b == '_' as int || b == '.' as int || b == '-' as int || b == '~' as int
  }

  function HexDigit(v: int): char
    requires 0 <= v < 16
  {
    if v < 10 then ('0' as int + v) as char else ('A' as int + (v - 10)) as char
  }

  function HexValue(c: char): Option<int>
  {
    if '0' <= c <= '9' then Some(c as int - '0' as int)
    else if 'A' <= c <= 'F' then Some(c as int - 'A' as int + 10)
    else None
  }

  /** How `quote_plus` writes one byte: unreserved bytes stay, a space becomes `+`, any other byte becomes `%XY`. */
  function QuoteByte(b: byte): (r: string)
    ensures '&' !in r && '=' !in r
    ensures 1 <= |r| <= 3
  {
    if IsUnreserved(b) then [b as char]
    else if b == 32 then "+"
    else "%" + [HexDigit(b / 16), HexDigit(b % 16)]
  }

  /** `quote_plus` on bytes: each byte quoted in turn. */
  function QuotePlusBytes(bs: seq<byte>): (r: string)
    ensures '&' !in r && '=' !in r
  {
    if |bs| == 0 then "" else QuoteByte(bs[0]) + QuotePlusBytes(bs[1..])
  }

  /**
    The inverse of `QuotePlusBytes`: `+` is a space and `%XX` a byte. `None` on a malformed escape
    or a character above 255, which the quoting never writes.
  */
  function UnquotePlusBytes(s: string): Option<seq<byte>>
    decreases |s|
  {
    if |s| == 0 then Some([])
    else if s[0] == '+' then
      var rest := UnquotePlusBytes(s[1..]);
      if rest.None? then None else Some([32] + rest.value)
    else if s[0] == '%' then
      if |s| < 3 || HexValue(s[1]).None? || HexValue(s[2]).None? then None
      else
        var rest := UnquotePlusBytes(s[3..]);
        if rest.None? then None else Some([HexValue(s[1]).value * 16 + HexValue(s[2]).value] + rest.value)
    else if s[0] as int < 256 then
      var rest := UnquotePlusBytes(s[1..]);
      if rest.None? then None else Some([s[0] as int] + rest.value)
    else None
  }

  lemma HexRoundTrip(v: int)
    requires 0 <= v < 16
    ensures HexValue(HexDigit(v)) == Some(v)
  {
  }

  /** Decoding a quoted byte in front of decodable text yields the byte in front of the decoded text. */
  lemma UnquoteQuotedByte(b: byte, tail: string)
    requires UnquotePlusBytes(tail).Some?
    ensures UnquotePlusBytes(QuoteByte(b) + tail) == Some([b] + UnquotePlusBytes(tail).value)
  {
    var q := QuoteByte(b) + tail;
    if IsUnreserved(b) {
      assert q[0] == b as char && q[1..] == tail;
    } else if b == 32 {
      assert q[0] == '+' && q[1..] == tail;
    } else {
      HexRoundTrip(b / 16);
      HexRoundTrip(b % 16);
      assert q[0] == '%' && q[1] == HexDigit(b / 16) && q[2] == HexDigit(b % 16);
      assert q[3..] == tail;
    }
  }

  /** `unquote_plus` undoes `quote_plus` (on the UTF-8 bytes). */
  lemma {:induction false} QuotePlusRoundTrip(bs: seq<byte>)
    ensures UnquotePlusBytes(QuotePlusBytes(bs)) == Some(bs)
    decreases |bs|
  {
    if |bs| > 0 {
      QuotePlusRoundTrip(bs[1..]);
      UnquoteQuotedByte(bs[0], QuotePlusBytes(bs[1..]));
      assert [bs[0]] + bs[1..] == bs;
    }
  }

  /** `quote_plus(s)`. */
  function QuotePlus(s: string): string
  {
    QuotePlusBytes(Utf8(s))
  }

  /** The characters `quote_plus` leaves alone: ASCII letters, digits and `_.-~`. */
  predicate IsPlainChar(c: char)
  {
    c as int < 0x80 && IsUnreserved(c as int)
  }

  /** Text made only of plain characters is its own quoting (a `YYYY-MM-DD` date, say). */
  lemma {:induction false} QuotePlusPlain(s: string)
    requires forall i :: 0 <= i < |s| ==> IsPlainChar(s[i])
    ensures QuotePlus(s) == s
    decreases |s|
  {
    if |s| > 0 {
      QuotePlusPlain(s[1..]);
      var bs := Utf8(s);
      assert bs == [s[0] as int] + Utf8(s[1..]);
      assert bs[1..] == Utf8(s[1..]);
      assert [s[0]] + s[1..] == s;
    }
  }

  /** One `key=value` pair of a query string. */
  function QueryPair(p: (string, string)): string
  {
    QuotePlus(p.0) + "=" + QuotePlus(p.1)
  }

  /** `urlencode(params)`: the encoded pairs in order, joined with `&`. */
  function UrlEncode(params: seq<(string, string)>): string
  {
    Join("&", seq(|params|, i requires 0 <= i < |params| => QueryPair(params[i])))
  }

  /** The query string splits back on `&` into exactly the encoded pairs, in order. */
  lemma UrlEncodeSplits(params: seq<(string, string)>)
    requires |params| >= 1
    ensures SplitOn(UrlEncode(params), '&') == seq(|params|, i requires 0 <= i < |params| => QueryPair(params[i]))
  {
    var parts := seq(|params|, i requires 0 <= i < |params| => QueryPair(params[i]));
    forall i | 0 <= i < |parts| ensures '&' !in parts[i] {
      assert parts[i] == QuotePlus(params[i].0) + "=" + QuotePlus(params[i].1);
    }
    SplitOnJoin(parts, '&');
  }

  // ---------------------------------------------------------------------------------------------
  // count_working_days

  /** The day test as written: the day number modulo 7 is one of 0, 1, 2, 3, 4. */
  predicate IsCountedDay(d: int)
  {
    d % 7 in {0, 1, 2, 3, 4}
  }

  /**
    `count_working_days(start, end)` on day numbers: the days `d` of `[start, end)` (numpy's
    `arange`) with `IsCountedDay(d)`. numpy's `%` on int64 takes the sign of the divisor, which
    agrees with Dafny's `%` for the divisor 7.
  */
  function CountWorkingDays(start: int, end: int): (n: nat)
    ensures end <= start ==> n == 0
    ensures end > start ==> n <= end - start
    decreases end - start
  {
    if end <= start then 0
    else (if IsCountedDay(start) then 1 else 0) + CountWorkingDays(start + 1, end)
  }

  /** Counting is additive over adjacent ranges. */
  lemma {:induction false} CountWorkingDaysAdditive(a: int, b: int, c: int)
    requires a <= b <= c
    ensures CountWorkingDays(a, c) == CountWorkingDays(a, b) + CountWorkingDays(b, c)
    decreases b - a
  {
    if a < b {
      CountWorkingDaysAdditive(a + 1, b, c);
    }
  }

  /** A day is counted exactly when it passes the residue test: the count is the size of that set of days. */
  lemma {:induction false} CountWorkingDaysIsSetSize(start: int, end: int)
    ensures CountWorkingDays(start, end) == |set d | start <= d < end && IsCountedDay(d)|
    decreases end - start
  {
    var s := set d | start <= d < end && IsCountedDay(d);
    if end <= start {
      assert s == {};
    } else {
      var s' := set d | start + 1 <= d < end && IsCountedDay(d);
      CountWorkingDaysIsSetSize(start + 1, end);
      if IsCountedDay(start) {
        assert start !in s';
        assert s == {start} + s';
      } else {
        assert s == s';
      }
    }
  }

  function CountedBit(d: int): int
  {
    if IsCountedDay(d) then 1 else 0
  }

  /** Of any seven consecutive day numbers, exactly five pass the residue test. */
  lemma CountedBitsInWeek(a: int)
    ensures CountedBit(a) + CountedBit(a + 1) + CountedBit(a + 2) + CountedBit(a + 3)
      + CountedBit(a + 4) + CountedBit(a + 5) + CountedBit(a + 6) == 5
  {
    var q, r := a / 7, a % 7;
    assert a == 7 * q + r;
    assert (a + 1) % 7 == (r + 1) % 7 by { assert a + 1 == 7 * q + (r + 1); }
    assert (a + 2) % 7 == (r + 2) % 7 by { assert a + 2 == 7 * q + (r + 2); }
    assert (a + 3) % 7 == (r + 3) % 7 by { assert a + 3 == 7 * q + (r + 3); }
    assert (a + 4) % 7 == (r + 4) % 7 by { assert a + 4 == 7 * q + (r + 4); }
    assert (a + 5) % 7 == (r + 5) % 7 by { assert a + 5 == 7 * q + (r + 5); }
    assert (a + 6) % 7 == (r + 6) % 7 by { assert a + 6 == 7 * q + (r + 6); }
  }

  /** Any seven consecutive days contain exactly five counted days. */
  lemma CountWorkingDaysWeek(a: int)
    ensures CountWorkingDays(a, a + 7) == 5
  {
    assert CountWorkingDays(a, a + 7) == CountedBit(a) + CountWorkingDays(a + 1, a + 7);
    assert CountWorkingDays(a + 1, a + 7) == CountedBit(a + 1) + CountWorkingDays(a + 2, a + 7);
    assert CountWorkingDays(a + 2, a + 7) == CountedBit(a + 2) + CountWorkingDays(a + 3, a + 7);
    assert CountWorkingDays(a + 3, a + 7) == CountedBit(a + 3) + CountWorkingDays(a + 4, a + 7);
    assert CountWorkingDays(a + 4, a + 7) == CountedBit(a + 4) + CountWorkingDays(a + 5, a + 7);
    assert CountWorkingDays(a + 5, a + 7) == CountedBit(a + 5) + CountWorkingDays(a + 6, a + 7);
    assert CountWorkingDays(a + 6, a + 7) == CountedBit(a + 6);
    CountedBitsInWeek(a);
  }

  /** `k` whole weeks contain exactly `5 * k` counted days. */
  lemma {:induction false} CountWorkingDaysWeeks(a: int, k: nat)
    ensures CountWorkingDays(a, a + 7 * k) == 5 * k
  {
    if k > 0 {
      CountWorkingDaysWeeks(a, k - 1);
      CountWorkingDaysWeek(a + 7 * (k - 1));
      CountWorkingDaysAdditive(a, a + 7 * (k - 1), a + 7 * k);
    }
  }

  /** `count_working_days(start_date, end_date)` on `YYYY-MM-DD` strings; `Err` where numpy cannot read a date. */
  function CountWorkingDaysBetween(startDate: string, endDate: string): (r: Result<nat>)
    ensures r.Ok? <==> ParseDate(startDate).Some? && ParseDate(endDate).Some?
    ensures r.Ok? ==> r.value == CountWorkingDays(DaysFromCivil(ParseDate(startDate).value), DaysFromCivil(ParseDate(endDate).value))
  {
    var s := ParseDate(startDate);
    var e := ParseDate(endDate);
    if s.None? || e.None? then Err("invalid date") else Ok(CountWorkingDays(DaysFromCivil(s.value), DaysFromCivil(e.value)))
  }

  /** Python's `date.weekday()` of a day number: Monday is 0 and Sunday 6 (1970-01-01 was a Thursday, 3). */
  function Weekday(d: int): (w: int)
    ensures 0 <= w < 7
  {
    (d + 3) % 7
  }

  /** The Saturday 2024-01-06 is counted as a working day, and the Tuesday after it is not. */
  lemma WorkingDaysCountsSaturday()
    ensures DaysFromCivil(Date(2024, 1, 6)) == 19728 && Weekday(19728) == 5
    ensures CountWorkingDays(19728, 19729) == 1
    ensures Weekday(19731) == 1 && CountWorkingDays(19731, 19732) == 0
  {
    assert MarchYearStart(2023) == 738885 by {
      assert 2023 / 400 == 5;
    }
  }

  /** The count the comment describes: the days of `[start, end)` that fall on Monday to Friday. */
  function CountMondayToFriday(start: int, end: int): (n: nat)
    ensures end <= start ==> n == 0
    decreases end - start
  {
    if end <= start then 0
    else (if Weekday(start) < 5 then 1 else 0) + CountMondayToFriday(start + 1, end)
  }

  /** Counting Monday to Friday is the residue count moved by three days. */
  lemma {:induction false} MondayToFridayIsShiftedCount(start: int, end: int)
    ensures CountMondayToFriday(start, end) == CountWorkingDays(start + 3, end + 3)
    decreases end - start
  {
    if start < end {
      MondayToFridayIsShiftedCount(start + 1, end);
    }
  }

  /** The corrected count takes exactly the days from Monday to Friday. */
  lemma {:induction false} MondayToFridayIsSetSize(start: int, end: int)
    ensures CountMondayToFriday(start, end) == |set d | start <= d < end && Weekday(d) < 5|
    decreases end - start
  {
    var s := set d | start <= d < end && Weekday(d) < 5;
    if end <= start {
      assert s == {};
    } else {
      var s' := set d | start + 1 <= d < end && Weekday(d) < 5;
      MondayToFridayIsSetSize(start + 1, end);
      if Weekday(start) < 5 {
        assert start !in s';
        assert s == {start} + s';
      } else {
        assert s == s';
      }
    }
  }

  /** Any seven consecutive days contain exactly five days from Monday to Friday. */
  lemma MondayToFridayWeek(a: int)
    ensures CountMondayToFriday(a, a + 7) == 5
  {
    MondayToFridayIsShiftedCount(a, a + 7);
    CountWorkingDaysWeek(a + 3);
  }

  /** On the weekend 2024-01-06 to 2024-01-07 the code counts two working days where there are none. */
  lemma WeekendDiscrepancy()
    ensures CountWorkingDays(19728, 19730) == 2
    ensures CountMondayToFriday(19728, 19730) == 0
  {
  }
}
