/** Currency conversion with exact decimals: rates and amounts are integers in units of 10^-8. */
module Fx {
  import opened Tables

  const SCALE := 100_000_000
  const RATE_CACHE_TTL_MS := 60_000

  /** The simulated rate table. */
  const SIMULATED_RATES: map<(string, string), nat> := map[
    ("NGN", "USD") := 64_500, ("NGN", "GBP") := 51_300, ("NGN", "EUR") := 60_600,
    ("USD", "NGN") := 155_000_000_000, ("GBP", "NGN") := 195_000_000_000, ("EUR", "NGN") := 165_000_000_000,
    ("USD", "GBP") := 79_000_000, ("GBP", "USD") := 127_000_000, ("USD", "EUR") := 94_000_000,
    ("EUR", "USD") := 106_000_000, ("GBP", "EUR") := 119_000_000, ("EUR", "GBP") := 84_000_000]

  function Rate(source: string, destination: string): Option<nat> {
    if source == destination then Some(SCALE)
    else if (source, destination) in SIMULATED_RATES then Some(SIMULATED_RATES[(source, destination)])
    else None
  }

  const CURRENCIES: set<string> := {"NGN", "USD", "GBP", "EUR"}

  /** A currency converts to itself one to one, and beyond that exactly the four currencies convert to each other. */
  lemma SupportedExactly(source: string, destination: string)
    ensures source == destination ==> Rate(source, destination) == Some(SCALE)
    ensures source != destination ==>
              (Rate(source, destination).Some? <==> source in CURRENCIES && destination in CURRENCIES)
  {}

  /** Going through a third currency, or there and back, agrees with the direct rate within two percent. */
  lemma RatesAgree(a: string, b: string, c: string)
    requires a in CURRENCIES && b in CURRENCIES && c in CURRENCIES
    ensures Rate(a, b).Some? && Rate(b, c).Some? && Rate(a, c).Some?
    ensures var through, direct := Rate(a, b).value * Rate(b, c).value, Rate(a, c).value * SCALE;
            98 * direct <= 100 * through <= 102 * direct
  {
    SupportedExactly(a, b);
    SupportedExactly(b, c);
    SupportedExactly(a, c);
  }

  /** `(amount * rate).toFixed(8)`: the nearest multiple of 10^-8, ties going up. */
  function Convert(amount: nat, rate: nat): nat {
    (amount * rate + SCALE / 2) / SCALE
  }

  /** The rounding error, in units of 10^-16, is at most half a unit of 10^-8 up and less than that down. */
  lemma ConvertIsNearest(amount: nat, rate: nat)
    ensures -(SCALE / 2) < Convert(amount, rate) * SCALE - amount * rate <= SCALE / 2
  {
    var exact := amount * rate;
    assert (exact + SCALE / 2) / SCALE * SCALE + (exact + SCALE / 2) % SCALE == exact + SCALE / 2;
  }

  lemma ProductMonotone(less: nat, more: nat, rate: nat)
    requires less <= more
    ensures less * rate <= more * rate
  {
    assert more * rate == less * rate + (more - less) * rate;
  }

  lemma NearestMonotone(less: nat, more: nat)
    requires less <= more
    ensures (less + SCALE / 2) / SCALE <= (more + SCALE / 2) / SCALE
  {}

  lemma ConvertMonotone(less: nat, more: nat, rate: nat)
    requires less <= more
    ensures Convert(less, rate) <= Convert(more, rate)
  {
    ProductMonotone(less, more, rate);
    NearestMonotone(less * rate, more * rate);
  }

  // ----- Splitting a payment -----

  function Total(amounts: seq<nat>): nat {
    if amounts == [] then 0 else amounts[0] + Total(amounts[1..])
  }

  function ConvertedTotal(amounts: seq<nat>, rate: nat): nat {
    if amounts == [] then 0 else Convert(amounts[0], rate) + ConvertedTotal(amounts[1..], rate)
  }

  /** What the parts would come to without rounding, in units of 10^-16. */
  function ExactTotal(amounts: seq<nat>, rate: nat): nat {
    if amounts == [] then 0 else amounts[0] * rate + ExactTotal(amounts[1..], rate)
  }

  lemma {:induction false} ExactTotalIsProduct(amounts: seq<nat>, rate: nat)
    ensures ExactTotal(amounts, rate) == Total(amounts) * rate
  {
    if amounts != [] {
      ExactTotalIsProduct(amounts[1..], rate);
      Distribute(amounts[0], Total(amounts[1..]), rate);
    }
  }

  lemma Distribute(x: nat, y: nat, z: nat)
    ensures (x + y) * z == x * z + y * z
  {}

  /** Errors accumulate one rounding at a time. */
  lemma {:induction false} SplitError(amounts: seq<nat>, rate: nat)
    requires amounts != []
    ensures -50_000_000 * |amounts| < 100_000_000 * ConvertedTotal(amounts, rate) - ExactTotal(amounts, rate)
            <= 50_000_000 * |amounts|
  {
    ConvertIsNearest(amounts[0], rate);
    if |amounts| > 1 {
      SplitError(amounts[1..], rate);
    }
  }

  /** Paying a total in k parts changes what the recipients get by at most k/2 units of 10^-8. */
  lemma SplitBound(amounts: seq<nat>, rate: nat)
    ensures var drift := ConvertedTotal(amounts, rate) - Convert(Total(amounts), rate);
            -|amounts| <= 2 * drift <= |amounts|
  {
    if amounts != [] {
      SplitError(amounts, rate);
      ExactTotalIsProduct(amounts, rate);
      ConvertIsNearest(Total(amounts), rate);
    }
  }

  /** The bound is reached: k payments of one unit at rate one half gain k/2 units, for every even k. */
  lemma {:induction false} SplitBoundReached(half: nat)
    ensures var amounts: seq<nat> := seq(2 * half, _ => 1);
            ConvertedTotal(amounts, SCALE / 2) - Convert(Total(amounts), SCALE / 2) == half
  {
    OnesTotal(2 * half);
  }

  lemma {:induction false} OnesTotal(k: nat)
    ensures var amounts: seq<nat> := seq(k, _ => 1);
            Total(amounts) == k && ConvertedTotal(amounts, SCALE / 2) == k
  {
    var amounts: seq<nat> := seq(k, _ => 1);
    if k > 0 {
      var rest: seq<nat> := seq(k - 1, _ => 1);
      assert amounts[1..] == rest;
      OnesTotal(k - 1);
    }
  }

  // ----- The rate cache -----

  datatype CachedRate = CachedRate(rate: nat, expires: nat)

  /** Rates are looked up through a cache whose entries live for a minute; a hit and a miss agree. */
  class RateService {
    var cache: map<(string, string), CachedRate>

    ghost predicate Valid() reads this {
      forall pair | pair in cache :: Rate(pair.0, pair.1) == Some(cache[pair].rate)
    }

    constructor ()
      ensures Valid() && cache == map[]
    {
      cache := map[];
    }

    method GetRate(source: string, destination: string, now: nat) returns (rate: Option<nat>)
      requires Valid()
      modifies this
      ensures Valid()
      ensures rate == Rate(source, destination)
      ensures rate == None || source == destination ==> cache == old(cache)
      ensures rate.Some? && source != destination ==>
                var pair := (source, destination);
                if pair in old(cache) && now < old(cache)[pair].expires then cache == old(cache)
                else cache == old(cache)[pair := CachedRate(rate.value, now + 60_000)]
      ensures forall pair | pair in old(cache) && pair != (source, destination) ::
                pair in cache && cache[pair] == old(cache[pair])
    {
      if source == destination {
        return Some(SCALE);
      }
      var pair := (source, destination);
      if pair in cache && now < cache[pair].expires {
        return Some(cache[pair].rate);
      }
      if pair !in SIMULATED_RATES {
        return None;
      }
      rate := Some(SIMULATED_RATES[pair]);
      cache := cache[pair := CachedRate(rate.value, now + RATE_CACHE_TTL_MS)];
    }
  }
}
