/** Symbol discovery (bot.py, _extract_symbols_from_html and get_top_symbols).
    Downloading the market pages is not modelled: the input is the HTML each
    page yielded once its URLs were tried (None when every attempt failed),
    and the regular expression is the Matcher parameter. */
module Discovery {
  import opened Wrappers
  import opened Sequences
  import Status

  /** Default `limit` of get_top_symbols (TOP_SYMBOL_LIMIT). */
  const TopSymbolLimit: nat := 50

  /** The `[A-Z0-9]{2,12}USDT` tokens, in order, that the regular expression
      finds in the upper-cased text of a page. */
  type Matcher = string -> seq<string>

  /** Python truthiness of a page: None and the empty string are both false. */
  predicate Truthy(html: Option<string>)
  {
    html.Some? && html.value != []
  }

  /** What one page contributes: nothing when it is missing, otherwise each
      token once, in order of first appearance. */
  function PageSymbols(html: Option<string>, findAll: Matcher): seq<string>
  {
    if Truthy(html) then Dedup(findAll(html.value)) else []
  }

  /** The symbols of one page, de-duplicated through a dict filled in order. */
  method ExtractSymbols(html: Option<string>, findAll: Matcher) returns (symbols: seq<string>)
    ensures !Truthy(html) ==> symbols == []
    ensures Truthy(html) ==> symbols == Dedup(findAll(html.value))
    ensures NoDuplicates(symbols)
    ensures Truthy(html) ==> forall s :: s in symbols <==> s in findAll(html.value)
  {
    if !Truthy(html) {
      return [];
    }
    var found := findAll(html.value);
    var seen: map<string, bool> := map[];
    var keys: seq<string> := [];  // the keys of seen, in insertion order
    for k := 0 to |found|
      invariant keys == Dedup(found[..k])
      invariant forall s :: s in seen <==> s in keys
    {
      var s := found[k];
      assert found[..k + 1] == found[..k] + [s];
      if s !in seen {
        seen := seen[s := true];
        keys := keys + [s];
      }
    }
    assert found[..|found|] == found;
    symbols := keys;
  }

  /** The per-page symbol lists of all pages, concatenated in page order. */
  function Gathered(pages: seq<Option<string>>, findAll: Matcher): seq<string>
  {
    if pages == [] then []
    else Gathered(pages[..|pages| - 1], findAll) + PageSymbols(pages[|pages| - 1], findAll)
  }

  /** Reading one more page appends its symbols. */
  lemma GatheredStep(pages: seq<Option<string>>, findAll: Matcher, n: nat)
    requires n < |pages|
    ensures Gathered(pages[..n + 1], findAll) == Gathered(pages[..n], findAll) + PageSymbols(pages[n], findAll)
  {
    assert pages[..n + 1][..n] == pages[..n];
  }

  /** Reading fewer pages gathers a prefix of what reading all of them does. */
  lemma {:induction false} GatheredPrefix(pages: seq<Option<string>>, findAll: Matcher, n: nat)
    requires n <= |pages|
    ensures Gathered(pages[..n], findAll) <= Gathered(pages, findAll)
  {
    if n < |pages| {
      var q := pages[..|pages| - 1];
      GatheredPrefix(q, findAll, n);
      assert q[..n] == pages[..n];
    } else {
      assert pages[..n] == pages;
    }
  }

  /** The first `limit` distinct symbols over all pages, in order of first
      appearance. */
  function TopSymbols(pages: seq<Option<string>>, findAll: Matcher, limit: nat): seq<string>
  {
    var all := Dedup(Gathered(pages, findAll));
    all[..Min(limit, |all|)]
  }

  /** Looking at one more token adds it to the de-duplicated list unless it
      is there already. */
  lemma DedupSnoc(t: seq<string>, s: string)
    ensures Dedup(t + [s]) == if s in Dedup(t) then Dedup(t) else Dedup(t) + [s]
  {
    assert (t + [s])[..|t|] == t;
  }

  /** One more token of the current page: the tokens looked at stay a prefix
      of the tokens of the pages read so far. */
  lemma ScanStep(before: seq<string>, found: seq<string>, j: nat)
    requires j < |found|
    ensures before + found[..j] + [found[j]] == before + found[..j + 1]
    ensures before + found[..j + 1] <= before + found
  {
    assert found[..j + 1] == found[..j] + [found[j]];
    assert (before + found)[..|before| + j + 1] == before + found[..j + 1];
  }

  /** The tokens of a page that were looked at extend a prefix of the tokens
      read so far. */
  lemma ScanPrefix(before: seq<string>, found: seq<string>, used: nat)
    requires used <= |found|
    ensures before + found[..used] <= before + found
  {
    assert (before + found)[..|before| + used] == before + found[..used];
  }

  /** Where the scan of GetTopSymbols may stop: once `limit` symbols are known,
      or after the last page. */
  lemma StoppedAtTop(pages: seq<Option<string>>, findAll: Matcher, limit: nat, taken: seq<string>)
    requires taken <= Gathered(pages, findAll)
    requires |Dedup(taken)| >= limit || taken == Gathered(pages, findAll)
    ensures forall s :: s in Dedup(taken) ==> s in Gathered(pages, findAll)
    ensures limit > 0 ==> Dedup(taken)[..Min(limit, |Dedup(taken)|)] == TopSymbols(pages, findAll, limit)
    ensures limit > 0 ==> (Dedup(taken) != [] <==> Gathered(pages, findAll) != [])
  {
    var all := Gathered(pages, findAll);
    assert taken + all[|taken|..] == all;
    DedupPrefix(taken, all[|taken|..]);
  }

  /** One token of the inner loop: it is added to the de-duplicated list
      unless it is already there. */
  lemma MergeStep(taken: seq<string>, found: seq<string>, used: nat, merged: seq<string>)
    requires used < |found| && merged == Dedup(taken + found[..used])
    ensures (if found[used] in merged then merged else merged + [found[used]]) ==
              Dedup(taken + found[..used + 1])
  {
    ScanStep(taken, found, used);
    DedupSnoc(taken + found[..used], found[used]);
  }

  /** The inner loop of get_top_symbols: adds the symbols of one page that
      are not known yet, in order, and stops as soon as `limit` are known.
      `taken` (ghost) is every token looked at before this page; `used` is
      how many of this page's symbols the loop looked at. */
  method MergePage(collected: seq<string>, found: seq<string>, limit: nat, ghost taken: seq<string>)
    returns (merged: seq<string>, used: nat)
    requires collected == Dedup(taken)
    requires collected != [] ==> |collected| < limit
    ensures used <= |found| && merged == Dedup(taken + found[..used])
    ensures used < |found| ==> |merged| >= limit
    ensures |merged| < limit ==> used == |found|
    ensures used > 0 ==> merged != []
  {
    merged := collected;
    used := 0;
    assert taken + found[..0] == taken;
    while used < |found|
      invariant used <= |found| && merged == Dedup(taken + found[..used])
      invariant used > 0 ==> merged != []
      invariant merged != [] ==> |merged| < limit
    {
      var s := found[used];
      MergeStep(taken, found, used, merged);
      if s !in merged {
        merged := merged + [s];
      }
      used := used + 1;
      if |merged| >= limit {
        break;
      }
    }
  }

  /** Scans the pages in order, merging their symbols without duplicates and
      stopping as soon as `limit` are known. */
  method GetTopSymbols(pages: seq<Option<string>>, findAll: Matcher, limit: nat)
    returns (symbols: seq<string>, code: int)
    ensures code == Status.Ok || code == Status.Unavailable
    ensures code == Status.Unavailable ==> symbols == []
    ensures NoDuplicates(symbols) && |symbols| <= limit
    ensures forall s :: s in symbols ==> s in Gathered(pages, findAll)
    ensures limit > 0 ==> symbols == TopSymbols(pages, findAll, limit)
    ensures limit > 0 ==> (code == Status.Ok <==> Gathered(pages, findAll) != [])
  {
    var collected: seq<string> := [];
    ghost var all := Gathered(pages, findAll);
    ghost var taken: seq<string> := [];  // every token the loops have looked at
    var stop := false;  // set where the source breaks out of the page loop
    var page := 0;
    assert pages[..0] == [];
    while page < |pages| && !stop
      invariant 0 <= page <= |pages|
      invariant taken <= all && collected == Dedup(taken)
      invariant stop ==> |collected| >= limit
      invariant !stop ==> taken == Gathered(pages[..page], findAll)
      invariant !stop ==> collected != [] ==> |collected| < limit
    {
      var html := pages[page];
      GatheredStep(pages, findAll, page);
      GatheredPrefix(pages, findAll, page + 1);
      if Truthy(html) {
        var found := ExtractSymbols(html, findAll);
        var used;
        collected, used := MergePage(collected, found, limit, taken);
        ScanPrefix(taken, found, used);
        if used == |found| {
          assert found[..used] == found;
        }
        taken := taken + found[..used];
        stop := |collected| >= limit;
      } else {
        assert taken + PageSymbols(html, findAll) == taken;
      }
      page := page + 1;
    }
    assert !stop ==> pages[..page] == pages;
    StoppedAtTop(pages, findAll, limit, taken);
    if collected != [] {
      symbols, code := collected[..Min(limit, |collected|)], Status.Ok;
      PrefixNoDuplicates(collected, Min(limit, |collected|));
    } else {
      symbols, code := [], Status.Unavailable;
    }
  }
}
