/** The protective-put position sizer: given the current price S, the strike
    K (the user's stop loss), the per-share put premium P and the loss budget,
    it buys N shares and C put contracts (one contract insures 100 shares)
    so that the loss if the price falls to K stays within the budget.

    The two network lookups (current price, put premium) are inputs here:
    `None` stands for a lookup that threw. Money is `real`; `Math.floor`
    is `.Floor` and `Math.ceil(N / 100)` for a whole N >= 0 is `(N + 99) / 100`. */
module Calculator {
  import opened Common

  /** Why a successful calculation has its shares and contracts; every
      variant but `Calculated` comes with the zero position. */
  datatype Message =
    | PremiumExceedsBudget                                  // one contract's premium alone is over budget
    | NoSharesAtInitialEstimate                             // one contract leaves no room for a share
    | PremiumStillTooHigh(contracts: int, premiumCost: real) // over budget even after dropping a contract
    | BudgetBelowOneContract                                // safeguard, never produced
    | NoSharesAfterAdjustment(shares: int, contracts: int)  // the contracts leave no room for a share
    | InitialEstimateNotPositive                            // safeguard, never produced
    | NoSharesAfterAllAdjustments                           // safeguard, never produced
    | Calculated(shares: int, contracts: int)
    | NoValidPosition                                       // never produced

  /** The thrown errors of `calculatePosition`. */
  datatype SizingError =
    | InvalidTicker          // the price lookup threw
    | StopLossNotBelowPrice  // S <= stop loss
    | PremiumUnavailable     // the premium lookup threw, or P <= 0
    | StrategyNotViable      // safeguard, never produced

  /** The `PositionResult` record, with the echoed inputs always present. */
  datatype Position = Position(
    shares: int,
    contracts: int,
    totalCost: real,
    calculatedMaxLoss: real,
    currentPrice: real,
    putPremium: real,
    putStrike: real,
    expirationDate: string,
    ticker: string,
    targetStopLoss: real,
    targetMaxLoss: real,
    message: Message)

  // ---------------------------------------------------------------------
  // The sizing rule, stated on values

  /** Premium paid for `contracts` put contracts of 100 shares each. */
  function PremiumCost(P: real, contracts: int): real {
    P * 100.0 * contracts as real
  }

  /** Loss if the price ends exactly at the strike K: every share has lost
      S - K and the whole premium is spent. */
  function RealizedLoss(S: real, K: real, P: real, shares: int, contracts: int): real {
    (S - K) * shares as real + PremiumCost(P, contracts)
  }

  lemma FloorBounds(x: real, d: real)
    requires d > 0.0
    ensures (x / d).Floor as real * d <= x < ((x / d).Floor + 1) as real * d
  {
    var q := x / d;
    var f := q.Floor;
    assert q * d == x;
    assert f as real <= q < f as real + 1.0;
    MulMonotone(f as real, q, d);
    assert (f + 1) as real == f as real + 1.0;
    MulMonotone(q, (f + 1) as real, d);
    assert x < (f + 1) as real * d;
  }

  lemma MulMonotone(a: real, b: real, d: real)
    requires d > 0.0 && a <= b
    ensures a * d <= b * d
    ensures a < b ==> a * d < b * d
  {
  }

  /** More shares at the same contract count never lose less at the strike. */
  lemma LossMonotone(S: real, K: real, P: real, a: int, b: int, contracts: int)
    requires S > K && a <= b
    ensures RealizedLoss(S, K, P, a, contracts) <= RealizedLoss(S, K, P, b, contracts)
    ensures a < b ==> RealizedLoss(S, K, P, a, contracts) < RealizedLoss(S, K, P, b, contracts)
  {
  }

  /** `floor((maxLoss - premium of `contracts`) / (S - K))`: the largest share
      count whose loss at the strike, together with the premium of `contracts`,
      stays within `maxLoss`. */
  function SharesFor(S: real, K: real, P: real, maxLoss: real, contracts: int): (n: int)
    requires S > K
    ensures RealizedLoss(S, K, P, n, contracts) <= maxLoss
    ensures maxLoss < RealizedLoss(S, K, P, n + 1, contracts)
    ensures n >= 1 <==> RealizedLoss(S, K, P, 1, contracts) <= maxLoss
  {
    var room := maxLoss - PremiumCost(P, contracts);
    FloorBounds(room, S - K);
    var n := (room / (S - K)).Floor;
    LossMonotone(S, K, P, if n >= 1 then 1 else n + 1, if n >= 1 then n else 1, contracts);
    n
  }

  /** `Math.ceil(n / 100)`: the fewest contracts that insure `n` shares. */
  function CeilHundred(n: int): (c: int)
    requires n >= 0
    ensures 100 * c - 100 < n <= 100 * c
  {
    (n + 99) / 100
  }

  /** The first estimate of the share count, assuming one contract. */
  function InitialEstimate(S: real, K: real, P: real, maxLoss: real): int
    requires S > K
  {
    SharesFor(S, K, P, maxLoss, 1)
  }

  /** The contract count the sizer settles on: enough contracts for the
      initial estimate, lowered by exactly one when their premium alone is
      over budget. */
  function PlannedContracts(S: real, K: real, P: real, maxLoss: real): int
    requires S > K && P * 100.0 <= maxLoss
  {
    var c := CeilHundred(InitialEstimate(S, K, P, maxLoss));
    if maxLoss < PremiumCost(P, c) then c - 1 else c
  }

  /** The sizer returns a non-zero position exactly when this holds: one
      contract's premium fits, the initial estimate is at least one share,
      and one share still fits beside the planned contracts. */
  predicate Feasible(S: real, K: real, P: real, maxLoss: real)
    requires S > K
  {
    && P * 100.0 <= maxLoss
    && InitialEstimate(S, K, P, maxLoss) >= 1
    && RealizedLoss(S, K, P, 1, PlannedContracts(S, K, P, maxLoss)) <= maxLoss
  }

  /** The result echoes the looked-up prices and the user's inputs. */
  predicate Echoes(p: Position, S: real, P: real, ticker: string, stopLoss: real,
                   maxLoss: real, expirationDate: string)
  {
    && p.currentPrice == S && p.putPremium == P && p.putStrike == stopLoss
    && p.expirationDate == expirationDate && p.ticker == ticker
    && p.targetStopLoss == stopLoss && p.targetMaxLoss == maxLoss
  }

  /** The zero position: nothing bought, nothing spent, nothing at risk. */
  predicate IsZero(p: Position) {
    p.shares == 0 && p.contracts == 0 && p.totalCost == 0.0 && p.calculatedMaxLoss == 0.0
  }

  function ZeroPosition(S: real, P: real, K: real, expirationDate: string, ticker: string,
                        stopLoss: real, maxLoss: real, message: Message): Position
  {
    Position(0, 0, 0.0, 0.0, S, P, K, expirationDate, ticker, stopLoss, maxLoss, message)
  }

  // ---------------------------------------------------------------------
  // calculatePosition

  method CalculatePosition(ticker: string, stopLoss: real, maxLoss: real, expirationDate: string,
                           price: Option<real>, premium: Option<real>)
    returns (r: Result<Position, SizingError>)
    ensures price.None? ==> r == Failure(InvalidTicker)
    ensures price.Some? && price.value <= stopLoss ==> r == Failure(StopLossNotBelowPrice)
    ensures price.Some? && price.value > stopLoss && (premium.None? || premium.value <= 0.0) ==>
              r == Failure(PremiumUnavailable)
    ensures r.Success? <==> price.Some? && price.value > stopLoss && premium.Some? && premium.value > 0.0
    ensures r.Success? ==>
              var p, S, K, P := r.value, price.value, stopLoss, premium.value;
              && Echoes(p, S, P, ticker, stopLoss, maxLoss, expirationDate)
              && (p.shares > 0 <==> Feasible(S, K, P, maxLoss))
              && (p.shares <= 0 ==> IsZero(p))
              && (maxLoss < P * 100.0 ==> p.message == PremiumExceedsBudget)
              && (P * 100.0 <= maxLoss && InitialEstimate(S, K, P, maxLoss) <= 0 ==>
                    p.message == NoSharesAtInitialEstimate)
              && (P * 100.0 <= maxLoss && InitialEstimate(S, K, P, maxLoss) >= 1 ==>
                    var c := PlannedContracts(S, K, P, maxLoss);
                    && (maxLoss < PremiumCost(P, c) ==>
                          p.message == PremiumStillTooHigh(c, PremiumCost(P, c)))
                    && (PremiumCost(P, c) <= maxLoss && SharesFor(S, K, P, maxLoss, c) <= 0 ==>
                          p.message == NoSharesAfterAdjustment(SharesFor(S, K, P, maxLoss, c), c)))
              && (p.shares <= 0 ==> !p.message.Calculated?)
    ensures r.Success? && r.value.shares > 0 ==>
              var p, S, K, P := r.value, price.value, stopLoss, premium.value;
              && p.contracts == PlannedContracts(S, K, P, maxLoss)
              && p.shares == SharesFor(S, K, P, maxLoss, p.contracts)
              && p.calculatedMaxLoss == RealizedLoss(S, K, P, p.shares, p.contracts)
              && p.calculatedMaxLoss <= maxLoss
              && p.totalCost == p.shares as real * S + PremiumCost(P, p.contracts)
              && p.message == Calculated(p.shares, p.contracts)
  {
    if price.None? {
      return Failure(InvalidTicker);
    }
    var S := price.value;
    if S <= stopLoss {
      return Failure(StopLossNotBelowPrice);
    }
    var K := stopLoss;
    if premium.None? {
      return Failure(PremiumUnavailable);
    }
    var P := premium.value;
    if P <= 0.0 {
      return Failure(PremiumUnavailable);
    }

    var premiumPerContract := PremiumCost(P, 1);
    if maxLoss < premiumPerContract {
      return Success(ZeroPosition(S, P, K, expirationDate, ticker, stopLoss, maxLoss, PremiumExceedsBudget));
    }

    var lossPerShareAtStop := S - K;
    if lossPerShareAtStop <= 0.0 {
      assert false;  // excluded by the stop-loss check
      return Failure(StrategyNotViable);
    }

    var N := SharesFor(S, K, P, maxLoss, 1);
    assert N == InitialEstimate(S, K, P, maxLoss);
    if N <= 0 {
      return Success(ZeroPosition(S, P, K, expirationDate, ticker, stopLoss, maxLoss, NoSharesAtInitialEstimate));
    }

    var contracts := CeilHundred(N);
    if contracts > 0 {
      var totalPremiumCost := PremiumCost(P, contracts);
      if maxLoss < totalPremiumCost {
        if contracts > 1 {
          contracts := contracts - 1;
          var adjustedTotalPremiumCost := PremiumCost(P, contracts);
          assert contracts == PlannedContracts(S, K, P, maxLoss);
          if maxLoss < adjustedTotalPremiumCost {
            assert !Feasible(S, K, P, maxLoss);
            return Success(ZeroPosition(S, P, K, expirationDate, ticker, stopLoss, maxLoss,
                                        PremiumStillTooHigh(contracts, adjustedTotalPremiumCost)));
          }
          N := SharesFor(S, K, P, maxLoss, contracts);
        } else {
          assert false;  // one contract's premium was already found to fit
          return Success(ZeroPosition(S, P, K, expirationDate, ticker, stopLoss, maxLoss, BudgetBelowOneContract));
        }
      } else {
        assert contracts == PlannedContracts(S, K, P, maxLoss);
        N := SharesFor(S, K, P, maxLoss, contracts);
      }
      if N <= 0 {
        return Success(ZeroPosition(S, P, K, expirationDate, ticker, stopLoss, maxLoss,
                                    NoSharesAfterAdjustment(N, contracts)));
      }
    } else {
      assert false;  // the ceiling of a positive share count is at least one
      return Success(ZeroPosition(S, P, K, expirationDate, ticker, stopLoss, maxLoss, InitialEstimateNotPositive));
    }

    if N <= 0 {
      assert false;  // a positive N was required just above
      return Success(ZeroPosition(S, P, K, expirationDate, ticker, stopLoss, maxLoss, NoSharesAfterAllAdjustments));
    }

    var finalTotalPremiumCost := PremiumCost(P, contracts);
    var calculatedMaxLossValue := RealizedLoss(S, K, P, N, contracts);
    if calculatedMaxLossValue > maxLoss * 1.01 && N > 0 {
      assert false;  // the loss at the strike never exceeds the budget, so the 1% warning cannot fire
    }
    var finalTotalInvestment := N as real * S + finalTotalPremiumCost;
    var message := if N > 0 && contracts > 0 then Calculated(N, contracts) else NoValidPosition;
    r := Success(Position(N, contracts, finalTotalInvestment, calculatedMaxLossValue, S, P, K,
                          expirationDate, ticker, stopLoss, maxLoss, message));
  }

  // ---------------------------------------------------------------------
  // Properties of the sizing rule

  /** The initial estimate is at least one share exactly when one share's
      loss at the strike plus one contract's premium fits the budget. */
  lemma InitialEstimatePositiveIff(S: real, K: real, P: real, maxLoss: real)
    requires S > K
    ensures InitialEstimate(S, K, P, maxLoss) >= 1 <==> P * 100.0 + (S - K) <= maxLoss
  {
  }

  /** Contracts start at `ceil(N0 / 100)` and are lowered at most once, and
      only when their premium alone is over budget; they never drop below one. */
  lemma PlannedContractsBounds(S: real, K: real, P: real, maxLoss: real)
    requires S > K && P > 0.0 && P * 100.0 <= maxLoss
    requires InitialEstimate(S, K, P, maxLoss) >= 1
    ensures var c0, c := CeilHundred(InitialEstimate(S, K, P, maxLoss)), PlannedContracts(S, K, P, maxLoss);
            && c >= 1
            && (c == c0 <==> PremiumCost(P, c0) <= maxLoss)
            && (c == c0 - 1 <==> maxLoss < PremiumCost(P, c0))
  {
  }

  /** A feasible position: at least one share and one contract, a loss at
      the strike within the budget (so the 1% over-budget warning cannot
      fire), and one more share would break the budget. */
  lemma FeasibleWithinBudget(S: real, K: real, P: real, maxLoss: real)
    requires S > K && P > 0.0 && Feasible(S, K, P, maxLoss)
    ensures var c := PlannedContracts(S, K, P, maxLoss);
            var n := SharesFor(S, K, P, maxLoss, c);
            && n >= 1 && c >= 1
            && RealizedLoss(S, K, P, n, c) <= maxLoss
            && !(RealizedLoss(S, K, P, n, c) > maxLoss * 1.01)
            && maxLoss < RealizedLoss(S, K, P, n + 1, c)
  {
  }

  /** A budget of exactly one contract's premium leaves an initial estimate
      of zero shares, hence the zero position. */
  lemma ExactPremiumBudget(S: real, K: real, P: real)
    requires S > K && P > 0.0
    ensures InitialEstimate(S, K, P, P * 100.0) == 0
    ensures !Feasible(S, K, P, P * 100.0)
  {
  }

  /** S = 60, K = 57, P = 3, budget 500: 66 shares, one contract, loss 498. */
  lemma ScenarioOneContract()
    ensures Feasible(60.0, 57.0, 3.0, 500.0)
    ensures PlannedContracts(60.0, 57.0, 3.0, 500.0) == 1
    ensures SharesFor(60.0, 57.0, 3.0, 500.0, 1) == 66
    ensures RealizedLoss(60.0, 57.0, 3.0, 66, 1) == 498.0
  {
  }

  /** S = 100, K = 90, P = 1, budget 5000: the estimate of 490 shares asks for
      five contracts, whose premium leaves room for 450 shares. */
  lemma ScenarioFiveContracts()
    ensures Feasible(100.0, 90.0, 1.0, 5000.0)
    ensures InitialEstimate(100.0, 90.0, 1.0, 5000.0) == 490
    ensures PlannedContracts(100.0, 90.0, 1.0, 5000.0) == 5
    ensures SharesFor(100.0, 90.0, 1.0, 5000.0, 5) == 450
  {
  }

  /** After the decrement the contracts need not cover the shares:
      S - K = 1, P = 2, budget 350 gives 150 shares on one contract. */
  lemma DecrementLeavesSharesUncovered()
    ensures Feasible(101.0, 100.0, 2.0, 350.0)
    ensures PlannedContracts(101.0, 100.0, 2.0, 350.0) == 1
    ensures SharesFor(101.0, 100.0, 2.0, 350.0, 1) == 150
    ensures SharesFor(101.0, 100.0, 2.0, 350.0, 1) > 100 * PlannedContracts(101.0, 100.0, 2.0, 350.0)
  {
  }

  /** A larger budget can buy fewer shares: raising the budget from 350 to
      400 (S - K = 1, P = 2) keeps two contracts, whose premium uses the
      whole budget, so the zero position is returned. */
  lemma LargerBudgetFewerShares()
    ensures Feasible(101.0, 100.0, 2.0, 350.0)
    ensures !Feasible(101.0, 100.0, 2.0, 400.0)
  {
  }
}
