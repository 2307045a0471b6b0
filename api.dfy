/** The second API client: quote mapping, the holding-period offset, the
    API-key guard and the put-option selection. HTTP responses are inputs;
    the date library enters as a function parameter `calendar`, which maps
    a day number to the formatted date of the next Friday after it. */
module Api {
  import opened Common
  import opened Nearest

  datatype ApiError =
    | InvalidTicker(ticker: string)  // the chart response has no `meta`
    | ApiKeyRequired                 // empty or whitespace-only API key
    | NoPutOptions                   // no entry has side "put"
    | OptionsRequestFailed           // the options request itself failed
    | OptionsFetchFailed             // the options body is not an array

  // ---------------------------------------------------------------------
  // getCurrentPrice

  /** The fields read from `chart.result[0].meta`; `None` is an absent field. */
  datatype Meta = Meta(
    symbol: string,
    regularMarketPrice: Option<real>,
    previousClose: Option<real>,
    currency: Option<string>,
    marketState: Option<string>)

  /** `price` is `None` when neither price field is present. */
  datatype StockQuote = StockQuote(symbol: string, price: Option<real>, currency: string, marketState: string)

  /** JavaScript's `a || b` on an optional number: `a` unless absent or zero. */
  function OrNumber(a: Option<real>, b: Option<real>): Option<real> {
    if a.Some? && a.value != 0.0 then a else b
  }

  /** JavaScript's `a || fallback` on an optional string: `a` unless absent or empty. */
  function OrString(a: Option<string>, fallback: string): string {
    if a.Some? && a.value != "" then a.value else fallback
  }

  function CurrentPrice(ticker: string, meta: Option<Meta>): (r: Result<StockQuote, ApiError>)
    ensures r.Failure? <==> meta.None?
    ensures r.Failure? ==> r.error == InvalidTicker(ticker)
    ensures r.Success? ==>
              var m, q := meta.value, r.value;
              && q.symbol == m.symbol
              && (m.regularMarketPrice.Some? && m.regularMarketPrice.value != 0.0 ==> q.price == m.regularMarketPrice)
              && (m.regularMarketPrice.None? || m.regularMarketPrice.value == 0.0 ==> q.price == m.previousClose)
              && (m.currency.None? || m.currency.value == "" ==> q.currency == "USD")
              && (m.marketState.None? || m.marketState.value == "" ==> q.marketState == "REGULAR")
              && (m.currency.Some? && m.currency.value != "" ==> q.currency == m.currency.value)
              && (m.marketState.Some? && m.marketState.value != "" ==> q.marketState == m.marketState.value)
  {
    match meta
    case None => Failure(InvalidTicker(ticker))
    case Some(m) =>
      Success(StockQuote(
        m.symbol,
        OrNumber(m.regularMarketPrice, m.previousClose),
        OrString(m.currency, "USD"),
        OrString(m.marketState, "REGULAR")))
  }

  // ---------------------------------------------------------------------
  // getExpirationDate

  /** Days added to today before taking the next Friday. */
  function DayOffset(holdingPeriod: string): (days: int)
    ensures days == 0 || days == 7 || days == 28
    ensures days == 7 <==> holdingPeriod == "2w"
    ensures days == 28 <==> holdingPeriod == "1m"
  {
    match holdingPeriod
    case "1w" => 0
    case "2w" => 7
    case "1m" => 28
    case _ => 0
  }

  /** The next Friday after today, after a week for "2w", after four weeks for "1m". */
  function ExpirationDate(holdingPeriod: string, today: int, calendar: int -> string): (date: string)
    ensures holdingPeriod == "2w" ==> date == calendar(today + 7)
    ensures holdingPeriod == "1m" ==> date == calendar(today + 28)
    ensures holdingPeriod != "2w" && holdingPeriod != "1m" ==> date == calendar(today)
  {
    calendar(today + DayOffset(holdingPeriod))
  }

  /** Every holding period other than "2w" and "1m" expires like "1w". */
  lemma UnknownPeriodIsOneWeek(holdingPeriod: string, today: int, calendar: int -> string)
    requires holdingPeriod != "2w" && holdingPeriod != "1m"
    ensures ExpirationDate(holdingPeriod, today, calendar) == ExpirationDate("1w", today, calendar)
  {
  }

  // ---------------------------------------------------------------------
  // The API-key guard of getPutPremium

  /** The characters `String.prototype.trim` removes: white space and line terminators. */
  predicate IsJsWhitespace(c: char) {
    c == ' ' || c == '\t' || c == '\n' || c == '\r' || c == '\U{000B}' || c == '\U{000C}'
    || c == '\U{00A0}' || c == '\U{1680}' || ('\U{2000}' <= c <= '\U{200A}')
    || c == '\U{2028}' || c == '\U{2029}' || c == '\U{202F}' || c == '\U{205F}'
    || c == '\U{3000}' || c == '\U{FEFF}'
  }

  predicate AllWhitespace(s: string) {
    forall i :: 0 <= i < |s| ==> IsJsWhitespace(s[i])
  }

  /** Leading white space removed. */
  function TrimStart(s: string): string
    decreases |s|
  {
    if s != [] && IsJsWhitespace(s[0]) then TrimStart(s[1..]) else s
  }

  /** Trailing white space removed. */
  function TrimEnd(s: string): string
    decreases |s|
  {
    if s != [] && IsJsWhitespace(s[|s| - 1]) then TrimEnd(s[..|s| - 1]) else s
  }

  /** `TrimStart` leaves a suffix of `s` with only white space in front of
      it; it is empty exactly when `s` is all white space, and otherwise
      starts with a character that is not white space. */
  lemma {:induction false} TrimStartSuffix(s: string)
    ensures var t := TrimStart(s);
      && |t| <= |s| && t == s[|s| - |t|..]
      && AllWhitespace(s[..|s| - |t|])
      && (t == [] <==> AllWhitespace(s))
      && (t != [] ==> !IsJsWhitespace(t[0]))
    decreases |s|
  {
    if s != [] && IsJsWhitespace(s[0]) {
      TrimStartSuffix(s[1..]);
      TrimStartStep(s, TrimStart(s[1..]));
    } else {
      assert s != [] ==> !AllWhitespace(s);
    }
  }

  /** One leading white-space character more: what holds of `t` against
      `s[1..]` holds against `s`. */
  lemma TrimStartStep(s: string, t: string)
    requires s != [] && IsJsWhitespace(s[0])
    requires |t| <= |s| - 1 && t == s[1..][|s| - 1 - |t|..]
    requires AllWhitespace(s[1..][..|s| - 1 - |t|])
    requires t == [] <==> AllWhitespace(s[1..])
    ensures t == s[|s| - |t|..]
    ensures AllWhitespace(s[..|s| - |t|])
    ensures t == [] <==> AllWhitespace(s)
  {
  }

  /** `TrimEnd` leaves a prefix of `s` with only white space after it; it
      is empty exactly when `s` is all white space, and otherwise ends with
      a character that is not white space. */
  lemma {:induction false} TrimEndPrefix(s: string)
    ensures var t := TrimEnd(s);
      && |t| <= |s| && t == s[..|t|]
      && AllWhitespace(s[|t|..])
      && (t == [] <==> AllWhitespace(s))
      && (t != [] ==> !IsJsWhitespace(t[|t| - 1]))
    decreases |s|
  {
    if s != [] && IsJsWhitespace(s[|s| - 1]) {
      TrimEndPrefix(s[..|s| - 1]);
      TrimEndStep(s, TrimEnd(s[..|s| - 1]));
    } else {
      assert s != [] ==> !AllWhitespace(s);
    }
  }

  /** One trailing white-space character more: what holds of `t` against
      `s[..|s| - 1]` holds against `s`. */
  lemma TrimEndStep(s: string, t: string)
    requires s != [] && IsJsWhitespace(s[|s| - 1])
    requires |t| <= |s| - 1 && t == s[..|s| - 1][..|t|]
    requires AllWhitespace(s[..|s| - 1][|t|..])
    requires t == [] <==> AllWhitespace(s[..|s| - 1])
    ensures t == s[..|t|]
    ensures AllWhitespace(s[|t|..])
    ensures t == [] <==> AllWhitespace(s)
  {
  }

  /** `String.prototype.trim`: the slice `s[i..j]` left after removing
      white space from both ends; it is empty or starts and ends with a
      character that is not white space. */
  function Trim(s: string): (t: string)
    ensures exists i, j :: 0 <= i <= j <= |s| && t == s[i..j]
              && AllWhitespace(s[..i]) && AllWhitespace(s[j..])
    ensures t != [] ==> !IsJsWhitespace(t[0]) && !IsJsWhitespace(t[|t| - 1])
  {
    var u := TrimStart(s);
    TrimStartSuffix(s);
    TrimEndPrefix(u);
    TrimBothEnds(s, u, TrimEnd(u));
    TrimEnd(u)
  }

  /** Trimming the end of the suffix `TrimStart` leaves cuts a slice of `s`
      out of it, with white space on either side. */
  lemma TrimBothEnds(s: string, u: string, t: string)
    requires |u| <= |s| && u == s[|s| - |u|..] && AllWhitespace(s[..|s| - |u|])
    requires u != [] ==> !IsJsWhitespace(u[0])
    requires |t| <= |u| && t == u[..|t|] && AllWhitespace(u[|t|..])
    requires t != [] ==> !IsJsWhitespace(t[|t| - 1])
    ensures exists i, j :: 0 <= i <= j <= |s| && t == s[i..j]
              && AllWhitespace(s[..i]) && AllWhitespace(s[j..])
    ensures t != [] ==> !IsJsWhitespace(t[0])
  {
  }

  /** `!apiKey || !apiKey.trim()`: the key is empty after trimming, which
      happens exactly when every character of it is white space (the empty
      key included). */
  predicate IsBlankKey(apiKey: string)
    ensures IsBlankKey(apiKey) <==> AllWhitespace(apiKey)
  {
    TrimStartSuffix(apiKey);
    TrimEndPrefix(TrimStart(apiKey));
    Trim(apiKey) == ""
  }

  // ---------------------------------------------------------------------
  // getRealPutPremium and getPutPremium

  datatype RawOptionData = RawOptionData(side: string, strike: real, bid: real, ask: real)

  datatype OptionData = OptionData(strike: real, bid: real, ask: real, midPrice: real, expiration: string)

  /** The options request: it failed, its body is not an array, or the entries. */
  datatype OptionsReply = RequestFailed | NotAnArray | Entries(entries: seq<RawOptionData>)

  /** `filter(option => option.side === "put")`. */
  function PutOptions(entries: seq<RawOptionData>): (puts: seq<RawOptionData>)
    ensures |puts| <= |entries|
    ensures forall o :: o in puts <==> o in entries && o.side == "put"
  {
    if entries == [] then []
    else (if entries[0].side == "put" then [entries[0]] else []) + PutOptions(entries[1..])
  }

  /** The filter keeps the response's order: filtering a concatenation is
      concatenating the filtered parts. */
  lemma {:induction false} PutOptionsAppend(x: seq<RawOptionData>, y: seq<RawOptionData>)
    ensures PutOptions(x + y) == PutOptions(x) + PutOptions(y)
    decreases |x|
  {
    if x == [] {
      assert x + y == y;
    } else {
      var head := if x[0].side == "put" then [x[0]] else [];
      assert (x + y)[0] == x[0] && (x + y)[1..] == x[1..] + y;
      PutOptionsAppend(x[1..], y);
      assert PutOptions(x + y) == head + (PutOptions(x[1..]) + PutOptions(y));
      assert PutOptions(x) == head + PutOptions(x[1..]);
    }
  }

  function StrikeOf(o: RawOptionData): real {
    o.strike
  }

  function RealPutPremium(strike: real, expirationDate: string, reply: OptionsReply): (r: Result<OptionData, ApiError>)
    ensures reply.RequestFailed? ==> r == Failure(OptionsRequestFailed)
    ensures reply.NotAnArray? ==> r == Failure(OptionsFetchFailed)
    ensures reply.Entries? ==> (r.Failure? <==> PutOptions(reply.entries) == [])
    ensures reply.Entries? && r.Failure? ==> r.error == NoPutOptions
    ensures r.Success? ==>
              var puts, o := PutOptions(reply.entries), r.value;
              && o.midPrice == (o.bid + o.ask) / 2.0
              && o.expiration == expirationDate
              && (exists k :: IsEarliestClosest(Strikes(puts, StrikeOf), strike, k)
                     && o.strike == puts[k].strike && o.bid == puts[k].bid && o.ask == puts[k].ask)
              && (forall p :: p in reply.entries && p.side == "put" ==> Dist(o.strike, strike) <= Dist(p.strike, strike))
  {
    match reply
    case RequestFailed => Failure(OptionsRequestFailed)
    case NotAnArray => Failure(OptionsFetchFailed)
    case Entries(entries) =>
      var putOptions := PutOptions(entries);
      if |putOptions| == 0 then Failure(NoPutOptions)
      else
        var k := Closest(Strikes(putOptions, StrikeOf), strike);
        var closest := putOptions[k];
        assert forall p :: p in putOptions ==> Dist(closest.strike, strike) <= Dist(p.strike, strike);
        Success(OptionData(closest.strike, closest.bid, closest.ask, (closest.bid + closest.ask) / 2.0, expirationDate))
  }

  /** `getPutPremium`: rejects a blank key before any request is made,
      otherwise the mid price of the put `getRealPutPremium` selects for the
      holding period's expiration date. */
  function GetPutPremium(strike: real, holdingPeriod: string, apiKey: string, today: int,
                         calendar: int -> string, fetch: string -> OptionsReply): (r: Result<real, ApiError>)
    ensures IsBlankKey(apiKey) ==> r == Failure(ApiKeyRequired)
    ensures !IsBlankKey(apiKey) ==>
              var option := RealPutPremium(strike, ExpirationDate(holdingPeriod, today, calendar),
                                           fetch(ExpirationDate(holdingPeriod, today, calendar)));
              && (r.Success? <==> option.Success?)
              && (r.Success? ==> r.value == option.value.midPrice)
              && (r.Failure? ==> r.error == option.error)
  {
    if IsBlankKey(apiKey) then Failure(ApiKeyRequired)
    else
      var expirationDate := ExpirationDate(holdingPeriod, today, calendar);
      match RealPutPremium(strike, expirationDate, fetch(expirationDate))
      case Success(option) => Success(option.midPrice)
      case Failure(e) => Failure(e)
  }
}
