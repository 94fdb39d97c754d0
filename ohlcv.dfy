/** Price history retrieval (bot.py, fetch_ohlcv). The ccxt exchange client
    is an oracle; the DataFrame it would be loaded into is the bar sequence
    itself. */
module Ohlcv {
  import opened Wrappers
  import Status

  /** One candle as the exchange returns it: timestamp, open, high, low,
      close, volume. Prices are exact reals; floating point is not modelled. */
  datatype Bar = Bar(timestamp: int, open: real, high: real, low: real, close: real, volume: real)

  /** exchange.fetch_ohlcv(candidate, timeframe="1h", limit=50): the bars it
      returns, or None when the call raises. */
  type Exchange = string -> Option<seq<Bar>>

  /** The quote currency every discovered symbol ends with. */
  const Quote: string := "USDT"

  /** Python truthiness of a fetch result: an exception or an empty list
      both mean "try the next candidate". */
  predicate Fetched(result: Option<seq<Bar>>)
  {
    result.Some? && result.value != []
  }

  /** pat occurs in s at position i. */
  predicate OccursAt(s: string, pat: string, i: nat)
  {
    i + |pat| <= |s| && s[i..i + |pat|] == pat
  }

  /** Python's s.replace(pat, rep): every occurrence of pat, found scanning
      left to right without overlaps, is replaced by rep. */
  function ReplaceAll(s: string, pat: string, rep: string): string
    requires pat != []
    decreases |s|
  {
    if |s| < |pat| then s
    else if s[..|pat|] == pat then rep + ReplaceAll(s[|pat|..], pat, rep)
    else [s[0]] + ReplaceAll(s[1..], pat, rep)
  }

  /** Without an occurrence of pat, replacing it changes nothing. */
  lemma {:induction false} ReplaceAllAbsent(s: string, pat: string, rep: string)
    requires pat != []
    requires forall i: nat :: !OccursAt(s, pat, i)
    ensures ReplaceAll(s, pat, rep) == s
    decreases |s|
  {
    if |pat| <= |s| {
      assert !OccursAt(s, pat, 0);
      forall i: nat ensures !OccursAt(s[1..], pat, i) {
        assert !OccursAt(s, pat, i + 1);
        if i + |pat| <= |s[1..]| {
          assert s[1..][i..i + |pat|] == s[i + 1..i + 1 + |pat|];
        }
      }
      ReplaceAllAbsent(s[1..], pat, rep);
    }
  }

  /** When pat occurs in base + pat only at the end, only that occurrence is
      replaced. */
  lemma {:induction false} ReplaceAllSuffix(base: string, pat: string, rep: string)
    requires pat != []
    requires forall i: nat :: i < |base| ==> !OccursAt(base + pat, pat, i)
    ensures ReplaceAll(base + pat, pat, rep) == base + rep
    decreases |base|
  {
    var s := base + pat;
    if base == [] {
      assert s[..|pat|] == pat;
      assert s[|pat|..] == [];
    } else {
      assert !OccursAt(s, pat, 0);
      assert s[..|pat|] != pat;
      assert s[1..] == base[1..] + pat;
      forall i: nat | i < |base[1..]| ensures !OccursAt(base[1..] + pat, pat, i) {
        assert !OccursAt(s, pat, i + 1);
        assert s[1..][i..i + |pat|] == s[i + 1..i + 1 + |pat|];
      }
      ReplaceAllSuffix(base[1..], pat, rep);
      assert ReplaceAll(s, pat, rep) == [s[0]] + ReplaceAll(s[1..], pat, rep);
      assert [base[0]] + base[1..] == base;
    }
  }

  /** The spellings fetch_ohlcv tries, in order: spot "X/USDT", linear
      perpetual "X/USDT:USDT", then the symbol unchanged. */
  function Candidates(symbol: string): seq<string>
  {
    [ReplaceAll(symbol, Quote, "/USDT"), ReplaceAll(symbol, Quote, "/USDT:USDT"), symbol]
  }

  /** For a discovered symbol "XUSDT" whose "USDT" occurs only at the end,
      the candidates are "X/USDT", "X/USDT:USDT" and "XUSDT". */
  lemma CandidatesOfQuoted(base: string)
    requires forall i: nat :: i < |base| ==> !OccursAt(base + Quote, Quote, i)
    ensures Candidates(base + Quote) == [base + "/USDT", base + "/USDT:USDT", base + Quote]
  {
    ReplaceAllSuffix(base, Quote, "/USDT");
    ReplaceAllSuffix(base, Quote, "/USDT:USDT");
  }

  /** A symbol without "USDT" is tried three times under the same spelling. */
  lemma CandidatesOfUnquoted(symbol: string)
    requires forall i: nat :: !OccursAt(symbol, Quote, i)
    ensures Candidates(symbol) == [symbol, symbol, symbol]
  {
    ReplaceAllAbsent(symbol, Quote, "/USDT");
    ReplaceAllAbsent(symbol, Quote, "/USDT:USDT");
  }

  /** The bars of the first candidate the exchange answers with a non-empty
      list; None when every candidate raises or returns nothing. */
  function FirstNonEmpty(candidates: seq<string>, exchange: Exchange): (r: Option<seq<Bar>>)
    ensures r.Some? ==> r.value != []
    ensures r.Some? ==> exists k :: 0 <= k < |candidates| && exchange(candidates[k]) == r &&
                                    forall j :: 0 <= j < k ==> !Fetched(exchange(candidates[j]))
    ensures r.None? ==> forall k :: 0 <= k < |candidates| ==> !Fetched(exchange(candidates[k]))
  {
    if candidates == [] then None
    else if Fetched(exchange(candidates[0])) then exchange(candidates[0])
    else
      var r := FirstNonEmpty(candidates[1..], exchange);
      assert forall k :: 1 <= k < |candidates| ==> candidates[k] == candidates[1..][k - 1];
      r
  }

  /** Tries each candidate spelling once, in order, and returns the first
      non-empty answer with code 0, or None with code 2. */
  method FetchOhlcv(symbol: string, exchange: Exchange) returns (bars: Option<seq<Bar>>, code: int)
    ensures bars == FirstNonEmpty(Candidates(symbol), exchange)
    ensures bars.Some? ==> bars.value != [] && code == Status.Ok
    ensures bars.None? ==> code == Status.FetchFailed
  {
    var candidates := Candidates(symbol);
    var k := 0;
    while k < |candidates|
      invariant 0 <= k <= |candidates|
      invariant FirstNonEmpty(candidates[k..], exchange) == FirstNonEmpty(candidates, exchange)
    {
      var ohlcv := exchange(candidates[k]);
      if ohlcv.Some? && ohlcv.value != [] {
        return ohlcv, Status.Ok;
      }
      assert candidates[k..][1..] == candidates[k + 1..];
      k := k + 1;
    }
    return None, Status.FetchFailed;
  }
}
