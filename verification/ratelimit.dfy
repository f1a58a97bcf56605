/** Rate-limit annotations: the three quota headers Zoom sends are read with
    Go's decimal `strconv.ParseInt(s, 10, 64)`; one unreadable header fails
    the whole extraction, and `parseResp` then attaches no annotation at all
    rather than failing the call. */
module RateLimit {
  import opened Base
  import opened Http
  import opened Sdk

  const RemainingHeader: string := "X-Ratelimit-Remaining"
  const LimitHeader: string := "X-Ratelimit-Limit"
  const ResetHeader: string := "Retry-After"

  const Int64Min: int := -0x8000_0000_0000_0000
  const Int64Max: int := 0x7FFF_FFFF_FFFF_FFFF

  predicate IsDigit(c: char) { '0' <= c <= '9' }

  predicate AllDigits(s: string)
  {
    forall i :: 0 <= i < |s| ==> IsDigit(s[i])
  }

  /** The value of a string of decimal digits, most significant first. */
  function DigitsValue(s: string): nat
    requires AllDigits(s)
    decreases |s|
  {
    if s == [] then 0
    else DigitsValue(s[..|s| - 1]) * 10 + ((s[|s| - 1] as int) - ('0' as int))
  }

  /** An optional leading '+' or '-' split off: (negative?, the rest). */
  function SplitSign(s: string): (r: (bool, string))
    ensures |r.1| <= |s|
  {
    if |s| > 0 && (s[0] == '+' || s[0] == '-') then (s[0] == '-', s[1..]) else (false, s)
  }

  /** `strconv.ParseInt(s, 10, 64)`: an optional sign followed by at least one
      decimal digit, whose value fits in a signed 64-bit integer; anything
      else (an empty string, a lone sign, any other character, an
      out-of-range value) is an error. */
  function ParseInt64(s: string): (r: Option<int>)
    ensures r.Some? ==> Int64Min <= r.value <= Int64Max
    ensures r.Some? ==> (|s| > 0 && AllDigits(s)) || (|s| > 1 && (s[0] == '+' || s[0] == '-') && AllDigits(s[1..]))
    ensures s == "" || s == "+" || s == "-" ==> r.None?
  {
    var (negative, digits) := SplitSign(s);
    if |digits| == 0 || !AllDigits(digits) then None
    else
      var v: int := if negative then 0 - (DigitsValue(digits) as int) else DigitsValue(digits);
      if Int64Min <= v <= Int64Max then Some(v) else None
  }

  function DigitChar(d: nat): (c: char)
    requires d < 10
    ensures IsDigit(c) && (c as int) - ('0' as int) == d
  {
    (('0' as int) + d) as char
  }

  /** The decimal digits of `n`, without leading zeros. */
  function DigitsOf(n: nat): (s: string)
    ensures |s| > 0 && AllDigits(s)
    decreases n
  {
    if n < 10 then [DigitChar(n)] else DigitsOf(n / 10) + [DigitChar(n % 10)]
  }

  /** The decimal text of `n`, as a server would send it in a header. */
  function FormatInt(n: int): string
  {
    if n < 0 then "-" + DigitsOf(-n) else DigitsOf(n)
  }

  lemma {:induction false} DigitsOfValue(n: nat)
    ensures DigitsValue(DigitsOf(n)) == n
    decreases n
  {
    var s := DigitsOf(n);
    if n >= 10 {
      DigitsOfValue(n / 10);
      assert s[..|s| - 1] == DigitsOf(n / 10);
    }
  }

  /** Every signed 64-bit value written in decimal is read back exactly. */
  lemma ParseFormatRoundTrip(n: int)
    requires Int64Min <= n <= Int64Max
    ensures ParseInt64(FormatInt(n)) == Some(n)
  {
    if n < 0 {
      DigitsOfValue(-n);
      assert SplitSign(FormatInt(n)).1 == DigitsOf(-n);
    } else {
      DigitsOfValue(n);
      assert SplitSign(FormatInt(n)) == (false, DigitsOf(n));
    }
  }

  /** The value `ParseInt` gives for a sign ("", "+" or "-") followed by
      decimal digits: the signed value of the digits (leading zeros allowed)
      when it fits in 64 bits, an error otherwise. */
  lemma ParseInt64Value(sign: string, d: string)
    requires sign == "" || sign == "+" || sign == "-"
    requires |d| > 0 && AllDigits(d)
    ensures var v: int := if sign == "-" then 0 - (DigitsValue(d) as int) else DigitsValue(d);
            ParseInt64(sign + d) == if Int64Min <= v <= Int64Max then Some(v) else None
  {
    if sign == "" {
      assert sign + d == d;
      assert IsDigit(d[0]);
    } else {
      assert (sign + d)[1..] == d;
    }
  }

  /** Decimal text of a value outside the signed 64-bit range is rejected:
      together with the round trip, the text of `n` reads back iff `n` fits. */
  lemma FormatOutOfRangeRejected(n: int)
    requires n < Int64Min || Int64Max < n
    ensures ParseInt64(FormatInt(n)) == None
  {
    if n < 0 {
      DigitsOfValue(-n);
      ParseInt64Value("-", DigitsOf(-n));
    } else {
      DigitsOfValue(n);
      ParseInt64Value("", DigitsOf(n));
      assert "" + DigitsOf(n) == DigitsOf(n);
    }
  }

  /** The header is absent (or empty) or holds a readable int64. */
  predicate Readable(resp: HttpResponse, name: string)
  {
    Header(resp, name) == "" || ParseInt64(Header(resp, name)).Some?
  }

  /** A readable header's value; an absent header reads as zero. */
  function HeaderValue(resp: HttpResponse, name: string): int
    requires Readable(resp, name)
  {
    if Header(resp, name) == "" then 0 else ParseInt64(Header(resp, name)).value
  }

  /** One header read with `ParseInt`: absent gives None, readable gives its
      value, unreadable fails naming the header. */
  function ReadHeader(resp: HttpResponse, name: string): (r: Result<Option<int>>)
    ensures r.Ok? <==> Readable(resp, name)
    ensures r.Err? ==> r.error == RateLimitParse(name)
    ensures r.Ok? ==> (r.value.None? <==> Header(resp, name) == "")
    ensures r.Ok? && r.value.Some? ==> r.value.value == HeaderValue(resp, name)
  {
    var s := Header(resp, name);
    if s == "" then Ok(None)
    else match ParseInt64(s)
      case None => Err(RateLimitParse(name))
      case Some(v) => Ok(Some(v))
  }

  /** `extractRateLimitData`: the rate-limit description of a response. No
      response is an error; an absent header leaves its field at zero (no
      reset time); a present but unreadable header fails the whole
      extraction, the first such header in the order remaining, limit,
      reset being the one reported. */
  function ExtractRateLimitData(resp: Option<HttpResponse>): (r: Result<RateLimitDescription>)
    ensures resp.None? ==> r == Err(NilResponse)
    ensures r.Ok? <==> resp.Some? && Readable(resp.value, RemainingHeader) && Readable(resp.value, LimitHeader)
                                  && Readable(resp.value, ResetHeader)
    ensures r.Ok? ==> && r.value.remaining == HeaderValue(resp.value, RemainingHeader)
                      && r.value.limit == HeaderValue(resp.value, LimitHeader)
                      && (r.value.resetAt.None? <==> Header(resp.value, ResetHeader) == "")
                      && (r.value.resetAt.Some? ==>
                            r.value.resetAt.value.seconds == HeaderValue(resp.value, ResetHeader))
    ensures r.Ok? ==> Int64Min <= r.value.remaining <= Int64Max && Int64Min <= r.value.limit <= Int64Max
    ensures resp.Some? && !Readable(resp.value, RemainingHeader) ==> r == Err(RateLimitParse(RemainingHeader))
    ensures resp.Some? && Readable(resp.value, RemainingHeader) && !Readable(resp.value, LimitHeader) ==>
              r == Err(RateLimitParse(LimitHeader))
    ensures resp.Some? && Readable(resp.value, RemainingHeader) && Readable(resp.value, LimitHeader)
            && !Readable(resp.value, ResetHeader) ==>
              r == Err(RateLimitParse(ResetHeader))
  {
    match resp
    case None => Err(NilResponse)
    case Some(rsp) =>
      match ReadHeader(rsp, RemainingHeader)
      case Err(e) => Err(e)
      case Ok(remaining) =>
        match ReadHeader(rsp, LimitHeader)
        case Err(e) => Err(e)
        case Ok(limit) =>
          match ReadHeader(rsp, ResetHeader)
          case Err(e) => Err(e)
          case Ok(reset) =>
            Ok(RateLimitDescription(
                 if limit.Some? then limit.value else 0,
                 if remaining.Some? then remaining.value else 0,
                 if reset.Some? then Some(Timestamp(reset.value)) else None))
  }

  /** `parseResp`: never an error; one rate-limit annotation exactly when there
      is a response and its headers could all be read, none otherwise. */
  function ParseResp(resp: Option<HttpResponse>): (r: (Annotations, Option<Error>))
    ensures r.1.None?
    ensures |r.0| <= 1
    ensures |r.0| == 1 <==> resp.Some? && ExtractRateLimitData(resp).Ok?
    ensures |r.0| == 1 ==> r.0[0] == ExtractRateLimitData(resp).value
  {
    if resp.Some? then
      match ExtractRateLimitData(resp)
      case Ok(desc) => ([desc], None)
      case Err(_) => ([], None)
    else ([], None)
  }

  /** A response without quota headers gives the zero description: nothing
      about the headers' absence is an error. */
  lemma NoHeadersReadAsZero(resp: HttpResponse)
    requires RemainingHeader !in resp.headers && LimitHeader !in resp.headers && ResetHeader !in resp.headers
    ensures ExtractRateLimitData(Some(resp)) == Ok(RateLimitDescription(0, 0, None))
    ensures ParseResp(Some(resp)) == ([RateLimitDescription(0, 0, None)], None)
  {
  }

  /** One unreadable quota header costs the readable ones too: no annotation
      is attached at all. */
  lemma OneBadHeaderDropsAll(resp: HttpResponse, name: string)
    requires name == RemainingHeader || name == LimitHeader || name == ResetHeader
    requires !Readable(resp, name)
    ensures ExtractRateLimitData(Some(resp)).Err?
    ensures ParseResp(Some(resp)).0 == []
  {
  }

  /** Headers written as a server writes them (decimal text of in-range
      values) are read back as exactly those values, and `parseResp`
      attaches that description. */
  lemma HeadersRoundTrip(status: int, body: string, remaining: int, limit: int, reset: int)
    requires Int64Min <= remaining <= Int64Max && Int64Min <= limit <= Int64Max && Int64Min <= reset <= Int64Max
    ensures var resp := HttpResponse(status, map[RemainingHeader := FormatInt(remaining),
                                                 LimitHeader := FormatInt(limit),
                                                 ResetHeader := FormatInt(reset)], body);
            && ExtractRateLimitData(Some(resp)) == Ok(RateLimitDescription(limit, remaining, Some(Timestamp(reset))))
            && ParseResp(Some(resp)).0 == [RateLimitDescription(limit, remaining, Some(Timestamp(reset)))]
  {
    ParseFormatRoundTrip(remaining);
    ParseFormatRoundTrip(limit);
    ParseFormatRoundTrip(reset);
  }
}
