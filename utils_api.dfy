/** The price and premium lookups the sizer calls. The HTTP response is an
    input: the chart quote's `regularMarketPrice` field, and the body of the
    options request. A field that is not a JavaScript number is `None`. */
module UtilsApi {
  import opened Common
  import opened Nearest

  datatype PriceError = MissingPrice

  /** `getCurrentPrice`: the quote's `regularMarketPrice`, which must be a number. */
  function CurrentPrice(regularMarketPrice: Option<real>): (r: Result<real, PriceError>)
    ensures r.Failure? <==> regularMarketPrice.None?
    ensures r.Success? ==> r.value == regularMarketPrice.value
  {
    match regularMarketPrice
    case None => Failure(MissingPrice)
    case Some(p) => Success(p)
  }

  /** One entry of the options list; `bid` and `ask` are `None` when not numbers. */
  datatype RawOption = RawOption(strike: real, bid: Option<real>, ask: Option<real>)

  /** The response body: something other than an array, or an array of options. */
  datatype OptionsResponse = NotAnArray | Options(items: seq<RawOption>)

  datatype PremiumError =
    | NoOptionsData        // not an array, or an empty one
    | NoBidAsk             // the closest option lacks a numeric bid or ask
    | NoViableOptions      // every option has neither a positive bid nor a positive ask
    | NoBidAskAfterFilter  // the re-selected option lacks a numeric bid or ask

  function StrikeOf(o: RawOption): real {
    o.strike
  }

  /** Both bid and ask are numbers. */
  predicate Quoted(o: RawOption) {
    o.bid.Some? && o.ask.Some?
  }

  predicate BothZero(o: RawOption) {
    o.bid == Some(0.0) && o.ask == Some(0.0)
  }

  /** `opt.bid > 0 || opt.ask > 0`; a non-number compares false. */
  predicate HasPositiveQuote(o: RawOption) {
    (o.bid.Some? && o.bid.value > 0.0) || (o.ask.Some? && o.ask.value > 0.0)
  }

  function Mid(o: RawOption): real
    requires Quoted(o)
  {
    (o.bid.value + o.ask.value) / 2.0
  }

  /** The fallback filter: the options with a positive bid or ask, in order. */
  function Viable(opts: seq<RawOption>): (v: seq<RawOption>)
    ensures |v| <= |opts|
    ensures forall o :: o in v <==> o in opts && HasPositiveQuote(o)
  {
    if opts == [] then []
    else (if HasPositiveQuote(opts[0]) then [opts[0]] else []) + Viable(opts[1..])
  }

  /** The filter keeps the response's order: filtering a concatenation is
      concatenating the filtered parts. */
  lemma {:induction false} ViableAppend(x: seq<RawOption>, y: seq<RawOption>)
    ensures Viable(x + y) == Viable(x) + Viable(y)
    decreases |x|
  {
    if x == [] {
      assert x + y == y;
    } else {
      var head := if HasPositiveQuote(x[0]) then [x[0]] else [];
      assert (x + y)[0] == x[0] && (x + y)[1..] == x[1..] + y;
      ViableAppend(x[1..], y);
      assert Viable(x + y) == head + (Viable(x[1..]) + Viable(y));
      assert Viable(x) == head + Viable(x[1..]);
    }
  }

  /** No option that survives the fallback filter has both bid and ask zero. */
  lemma ViableNeverBothZero(opts: seq<RawOption>, o: RawOption)
    requires o in Viable(opts)
    ensures !BothZero(o)
  {
  }

  /** The option the scan settles on. */
  function Chosen(opts: seq<RawOption>, strike: real): RawOption
    requires |opts| > 0
  {
    opts[Closest(Strikes(opts, StrikeOf), strike)]
  }

  /** The scan for the option whose strike is closest to `strike`: it keeps
      the first option and moves only to a strictly closer one. */
  method FindClosest(opts: seq<RawOption>, strike: real) returns (closestOption: RawOption)
    requires |opts| > 0
    ensures closestOption == Chosen(opts, strike)
    ensures closestOption in opts
    ensures forall j :: 0 <= j < |opts| ==>
              Dist(closestOption.strike, strike) <= Dist(opts[j].strike, strike)
  {
    ghost var strikes := Strikes(opts, StrikeOf);
    assert forall j :: 0 <= j < |opts| ==> strikes[j] == opts[j].strike;
    closestOption := opts[0];
    var minDifference := Abs(closestOption.strike - strike);
    ghost var k := 0;
    assert strikes[..1] == [strikes[0]];
    for i := 1 to |opts|
      invariant k == Closest(strikes[..i], strike)
      invariant closestOption == opts[k]
      invariant minDifference == Dist(closestOption.strike, strike)
    {
      ClosestExtend(strikes, strike, i);
      var currentDifference := Abs(opts[i].strike - strike);
      if currentDifference < minDifference {
        minDifference := currentDifference;
        closestOption := opts[i];
        k := i;
      }
    }
    assert strikes[..|opts|] == strikes;
  }

  /** `getPutPremium`: the mid price of the option closest to `strike`,
      falling back to the closest option with a positive bid or ask when
      the closest one is quoted at zero on both sides. */
  method GetPutPremium(response: OptionsResponse, strike: real) returns (r: Result<real, PremiumError>)
    ensures r == Failure(NoOptionsData) <==> response.NotAnArray? || response.items == []
    ensures response.Options? && response.items != [] ==>
              var first := Chosen(response.items, strike);
              && (!Quoted(first) ==> r == Failure(NoBidAsk))
              && (Quoted(first) && !BothZero(first) ==> r == Success(Mid(first)))
              && (Quoted(first) && BothZero(first) && Viable(response.items) == [] ==>
                    r == Failure(NoViableOptions))
              && (Quoted(first) && BothZero(first) && Viable(response.items) != [] ==>
                    var second := Chosen(Viable(response.items), strike);
                    r == if Quoted(second) then Success(Mid(second)) else Failure(NoBidAskAfterFilter))
    ensures r.Success? ==>
              response.Options? &&
              exists o :: o in response.items && Quoted(o) && !BothZero(o) && r.value == Mid(o)
  {
    if response.NotAnArray? || |response.items| == 0 {
      return Failure(NoOptionsData);
    }
    var data := response.items;
    var closestOption := FindClosest(data, strike);
    if !Quoted(closestOption) {
      return Failure(NoBidAsk);
    }
    if BothZero(closestOption) {
      var viableOptions := Viable(data);
      if |viableOptions| == 0 {
        return Failure(NoViableOptions);
      }
      closestOption := FindClosest(viableOptions, strike);
      ViableNeverBothZero(data, closestOption);
      if !Quoted(closestOption) || BothZero(closestOption) {
        return Failure(NoBidAskAfterFilter);
      }
    }
    var midPrice := Mid(closestOption);
    return Success(midPrice);
  }
}
