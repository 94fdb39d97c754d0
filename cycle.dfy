/** One scan-and-report cycle (bot.py, nowsignal_cmd and one iteration of
    auto_loop): discover the symbols, fetch and analyse each, report one
    line per symbol that could be analysed, in chunks of 25 lines. Messages
    are values appended to an outbox instead of Telegram calls. */
module Cycle {
  import opened Wrappers
  import opened Sequences
  import Status
  import opened Discovery
  import opened Ohlcv
  import opened Analysis

  /** Lines per report message. */
  const ChunkSize: nat := 25
  /** The count nowsignal_cmd announces is capped here, although it goes on
      to analyse up to TopSymbolLimit symbols. */
  const AnnounceLimit: nat := 40

  // ---------------------------------------------------------------------
  // Chunking

  /** msgs[i:i+size] for i in range(0, len(msgs), size): every chunk is
      non-empty and at most `size` long, and only the last may be shorter. */
  function Chunks<T>(lines: seq<T>, size: nat): (chunks: seq<seq<T>>)
    requires size > 0
    ensures forall i :: 0 <= i < |chunks| ==> 0 < |chunks[i]| <= size
    ensures forall i :: 0 <= i < |chunks| - 1 ==> |chunks[i]| == size
    decreases |lines|
  {
    if lines == [] then []
    else
      var n := Min(size, |lines|);
      [lines[..n]] + Chunks(lines[n..], size)
  }

  /** There are ceil(len / size) chunks. */
  lemma {:induction false} ChunksCount<T>(lines: seq<T>, size: nat)
    requires size > 0
    ensures |Chunks(lines, size)| == (|lines| + size - 1) / size
    decreases |lines|
  {
    if lines != [] {
      var n := Min(size, |lines|);
      ChunksCount(lines[n..], size);
      if |lines| <= size {
        DivOne(|lines| + size - 1, size);
        assert |lines[n..]| == 0;
      } else {
        DivShift(|lines| - n + size - 1, size);
      }
    } else {
      assert (size - 1) / size == 0;
    }
  }

  lemma DivOne(a: nat, b: nat)
    requires 0 < b <= a < 2 * b
    ensures a / b == 1
  {
  }

  lemma MulAtLeast(k: int, b: int)
    requires k >= 1 && b > 0
    ensures k * b >= b
  {
  }

  /** The quotient is the only q with n == q * b + r and 0 <= r < b. */
  lemma DivUnique(n: int, b: int, q: int, r: int)
    requires b > 0 && 0 <= r < b && n == q * b + r
    ensures n / b == q
  {
    var q', r' := n / b, n % b;
    assert q' * b + r' == q * b + r;
    assert (q' - q) * b == r - r' by {
      assert (q' - q) * b == q' * b - q * b;
    }
    if q' > q {
      MulAtLeast(q' - q, b);
    } else if q' < q {
      MulAtLeast(q - q', b);
    }
  }

  lemma DivShift(a: nat, b: nat)
    requires 0 < b
    ensures (a + b) / b == a / b + 1
  {
    assert a + b == (a / b + 1) * b + a % b;
    DivUnique(a + b, b, a / b + 1, a % b);
  }

  /** The concatenation of a sequence that starts with `a` starts with `a`. */
  lemma {:induction false} FlattenCons<T>(a: seq<T>, rest: seq<seq<T>>)
    ensures Flatten([a] + rest) == a + Flatten(rest)
  {
    if rest != [] {
      var r := rest[..|rest| - 1];
      FlattenCons(a, r);
      assert ([a] + rest)[..|rest|] == [a] + r;
    } else {
      assert [a] + rest == [a];
      assert Flatten([a]) == Flatten([a][..0]) + a;
    }
  }

  /** Concatenating the chunks gives back the lines, in order. */
  lemma {:induction false} ChunksFlatten<T>(lines: seq<T>, size: nat)
    requires size > 0
    ensures Flatten(Chunks(lines, size)) == lines
    decreases |lines|
  {
    if lines != [] {
      var n := Min(size, |lines|);
      ChunksFlatten(lines[n..], size);
      FlattenCons(lines[..n], Chunks(lines[n..], size));
      assert lines[..n] + lines[n..] == lines;
    }
  }

  /** The chunks from position i on: the slice at i, then the chunks from
      i + size on. */
  lemma ChunksFrom<T>(lines: seq<T>, size: nat, i: nat)
    requires size > 0 && i < |lines|
    ensures Chunks(lines[i..], size) ==
              [lines[i..Min(i + size, |lines|)]] + Chunks(lines[Min(i + size, |lines|)..], size)
  {
    var rest := lines[i..];
    assert rest[..Min(size, |rest|)] == lines[i..Min(i + size, |lines|)];
    assert rest[Min(size, |rest|)..] == lines[Min(i + size, |lines|)..];
  }

  /** One step of the chunking loop: after the slice at i is appended, the
      chunks from i + size on are still to come, or none are when the slice
      reached the end. */
  lemma ChunkStep<T>(lines: seq<T>, size: nat, i: nat, chunks: seq<seq<T>>)
    requires size > 0 && i < |lines|
    requires chunks + Chunks(lines[i..], size) == Chunks(lines, size)
    ensures var next := chunks + [lines[i..Min(i + size, |lines|)]];
            (i + size < |lines| ==> next + Chunks(lines[i + size..], size) == Chunks(lines, size)) &&
            (i + size >= |lines| ==> next == Chunks(lines, size))
  {
    var slice := lines[i..Min(i + size, |lines|)];
    var rest := Chunks(lines[Min(i + size, |lines|)..], size);
    ChunksFrom(lines, size, i);
    assert (chunks + [slice]) + rest == chunks + ([slice] + rest);
    if i + size >= |lines| {
      assert lines[Min(i + size, |lines|)..] == [];
      assert (chunks + [slice]) + rest == chunks + [slice];
    }
  }

  /** Splits the lines into chunks, one slice per step of range(0, len, size). */
  method Chunk<T>(lines: seq<T>, size: nat) returns (chunks: seq<seq<T>>)
    requires size > 0
    ensures chunks == Chunks(lines, size)
  {
    chunks := [];
    var i := 0;
    assert lines[0..] == lines;
    while i < |lines|
      invariant i < |lines| ==> chunks + Chunks(lines[i..], size) == Chunks(lines, size)
      invariant i >= |lines| ==> chunks == Chunks(lines, size)
      decreases |lines| - i
    {
      ChunkStep(lines, size, i, chunks);
      chunks := chunks + [lines[i..Min(i + size, |lines|)]];
      i := i + size;
    }
  }

  // ---------------------------------------------------------------------
  // Collecting the lines of one cycle

  /** The ta readings computed from a window: an oracle. */
  type Indicate = seq<Bar> -> Indicators

  /** What a cycle sends, in order. */
  datatype Message =
    | Collecting                                  // "collecting the symbol list"
    | Unavailable(code: int)                      // discovery failed, with its code
    | Found(count: nat, announced: nat)           // symbols found, and how many "will be analysed"
    | FetchFail(symbol: string, code: int)        // "[SYM] OHLCV FAIL, code=..."
    | AnalysisError(symbol: string)               // "[SYM] ANALYSIS ERROR"
    | Report(lines: seq<Signal>)                  // up to 25 analysis lines
    | NoData                                      // every symbol failed

  /** Whether some candidate spelling of the symbol yields bars. */
  predicate Fetches(exchange: Exchange, symbol: string)
  {
    FirstNonEmpty(Candidates(symbol), exchange).Some?
  }

  /** Fetches as the filter the cycle applies to the discovered symbols. */
  function FetchSucceeds(exchange: Exchange): string -> bool
  {
    symbol => Fetches(exchange, symbol)
  }

  /** The analysis line of fetched bars: none when the analysis fails. */
  function LineFor(symbol: string, bars: seq<Bar>, ind: Indicators): seq<Signal>
  {
    var signal := Score(bars, symbol, ind);
    if signal.None? then [] else [signal.value]
  }

  /** The analysis line one symbol contributes: none when its fetch or its
      analysis fails. */
  function LineOf(symbol: string, exchange: Exchange, indicate: Indicate): seq<Signal>
  {
    var fetched := FirstNonEmpty(Candidates(symbol), exchange);
    if fetched.None? then [] else LineFor(symbol, fetched.value, indicate(fetched.value))
  }

  /** The notice one symbol causes: a fetch failure, or (when `interactive`, as
      in nowsignal_cmd) an analysis error. */
  function NoticeOf(symbol: string, exchange: Exchange, indicate: Indicate, interactive: bool): seq<Message>
  {
    var fetched := FirstNonEmpty(Candidates(symbol), exchange);
    if fetched.None? then [FetchFail(symbol, Status.FetchFailed)]
    else if interactive && Score(fetched.value, symbol, indicate(fetched.value)).None? then [AnalysisError(symbol)]
    else []
  }

  /** The analysis lines of a batch of symbols, in batch order. */
  function Lines(batch: seq<string>, exchange: Exchange, indicate: Indicate): seq<Signal>
  {
    if batch == [] then []
    else Lines(batch[..|batch| - 1], exchange, indicate) + LineOf(batch[|batch| - 1], exchange, indicate)
  }

  /** The notices sent while a batch is processed, in batch order. */
  function Notices(batch: seq<string>, exchange: Exchange, indicate: Indicate, interactive: bool): seq<Message>
  {
    if batch == [] then []
    else Notices(batch[..|batch| - 1], exchange, indicate, interactive) + NoticeOf(batch[|batch| - 1], exchange, indicate, interactive)
  }

  /** The symbols the lines are about, in order. */
  function SymbolsOf(lines: seq<Signal>): (symbols: seq<string>)
    ensures |symbols| == |lines|
    ensures forall i :: 0 <= i < |lines| ==> symbols[i] == lines[i].symbol
  {
    seq(|lines|, i requires 0 <= i < |lines| => lines[i].symbol)
  }

  /** SymbolsOf distributes over concatenation. */
  lemma SymbolsOfAppend(a: seq<Signal>, b: seq<Signal>)
    ensures SymbolsOf(a + b) == SymbolsOf(a) + SymbolsOf(b)
  {
    assert forall i :: 0 <= i < |a| + |b| ==> SymbolsOf(a + b)[i] == (SymbolsOf(a) + SymbolsOf(b))[i];
  }

  /** The symbols of at most one line about `symbol`. */
  lemma SymbolsOfSingle(line: seq<Signal>, symbol: string)
    requires |line| <= 1 && (|line| == 1 ==> line[0].symbol == symbol)
    ensures SymbolsOf(line) == if |line| == 1 then [symbol] else []
  {
  }

  /** Non-empty bars always yield one line, about the symbol analysed. */
  lemma LineForScored(symbol: string, bars: seq<Bar>, ind: Indicators)
    requires bars != []
    ensures |LineFor(symbol, bars, ind)| == 1 && LineFor(symbol, bars, ind)[0].symbol == symbol
  {
    ScoreDefined(bars, symbol, ind);
  }

  /** Fetched bars are never empty, so analysis never fails after a fetch:
      a symbol yields one line, about itself, exactly when it could be
      fetched. */
  lemma AnalysisFollowsFetch(symbol: string, exchange: Exchange, indicate: Indicate)
    ensures |LineOf(symbol, exchange, indicate)| == if Fetches(exchange, symbol) then 1 else 0
    ensures Fetches(exchange, symbol) ==> LineOf(symbol, exchange, indicate)[0].symbol == symbol
  {
    var fetched := FirstNonEmpty(Candidates(symbol), exchange);
    if fetched.Some? {
      LineForScored(symbol, fetched.value, indicate(fetched.value));
    }
  }

  /** For the same reason the only notice a symbol can cause is a fetch
      failure, sent exactly when it could not be fetched. */
  lemma OnlyFetchFailures(symbol: string, exchange: Exchange, indicate: Indicate, interactive: bool)
    ensures NoticeOf(symbol, exchange, indicate, interactive) ==
              if Fetches(exchange, symbol) then [] else [FetchFail(symbol, Status.FetchFailed)]
  {
    var fetched := FirstNonEmpty(Candidates(symbol), exchange);
    if fetched.Some? {
      ScoreDefined(fetched.value, symbol, indicate(fetched.value));
    }
  }

  /** Appending at most one line about `symbol` appends its symbol. */
  lemma SymbolsSnoc(lines: seq<Signal>, line: seq<Signal>, symbol: string, kept: bool)
    requires |line| == (if kept then 1 else 0) && (kept ==> line[0].symbol == symbol)
    ensures SymbolsOf(lines + line) == SymbolsOf(lines) + if kept then [symbol] else []
  {
    SymbolsOfAppend(lines, line);
    SymbolsOfSingle(line, symbol);
  }

  /** One more symbol adds its line exactly when it can be fetched. */
  lemma LinesStep(batch: seq<string>, exchange: Exchange, indicate: Indicate)
    requires batch != []
    ensures var sym := batch[|batch| - 1];
            SymbolsOf(Lines(batch, exchange, indicate)) ==
              SymbolsOf(Lines(batch[..|batch| - 1], exchange, indicate)) + if Fetches(exchange, sym) then [sym] else []
  {
    var sym := batch[|batch| - 1];
    var line := LineOf(sym, exchange, indicate);
    AnalysisFollowsFetch(sym, exchange, indicate);
    SymbolsSnoc(Lines(batch[..|batch| - 1], exchange, indicate), line, sym, Fetches(exchange, sym));
  }

  /** One more symbol is kept by the filter exactly when it can be fetched. */
  lemma FilterStep(batch: seq<string>, exchange: Exchange)
    requires batch != []
    ensures var sym := batch[|batch| - 1];
            Filter(batch, FetchSucceeds(exchange)) ==
              Filter(batch[..|batch| - 1], FetchSucceeds(exchange)) + if Fetches(exchange, sym) then [sym] else []
  {
  }

  /** One line per symbol whose fetch succeeded, in discovery order; the
      symbols that failed are skipped. */
  lemma {:induction false} LinesFollowDiscovery(batch: seq<string>, exchange: Exchange, indicate: Indicate)
    ensures SymbolsOf(Lines(batch, exchange, indicate)) == Filter(batch, FetchSucceeds(exchange))
  {
    if batch != [] {
      LinesFollowDiscovery(batch[..|batch| - 1], exchange, indicate);
      LinesStep(batch, exchange, indicate);
      FilterStep(batch, exchange);
    }
  }

  /** Every symbol of the batch yields exactly one line or one notice, and
      the notices are all fetch failures. */
  lemma {:induction false} CycleAccounting(batch: seq<string>, exchange: Exchange, indicate: Indicate, interactive: bool)
    ensures |Lines(batch, exchange, indicate)| + |Notices(batch, exchange, indicate, interactive)| == |batch|
    ensures forall m :: m in Notices(batch, exchange, indicate, interactive) ==>
              m.FetchFail? && m.symbol in batch && !Fetches(exchange, m.symbol) && m.code == Status.FetchFailed
  {
    if batch != [] {
      var p, sym := batch[..|batch| - 1], batch[|batch| - 1];
      CycleAccounting(p, exchange, indicate, interactive);
      AnalysisFollowsFetch(sym, exchange, indicate);
      OnlyFetchFailures(sym, exchange, indicate, interactive);
      assert forall x :: x in p ==> x in batch;
    }
  }

  /** The body of the symbol loop: fetch the symbol, send a notice when
      that fails, otherwise analyse it and keep its line. */
  method ProcessSymbol(symbol: string, exchange: Exchange, indicate: Indicate, interactive: bool)
    returns (line: seq<Signal>, notice: seq<Message>)
    ensures line == LineOf(symbol, exchange, indicate)
    ensures notice == NoticeOf(symbol, exchange, indicate, interactive)
  {
    line, notice := [], [];
    var bars, code := FetchOhlcv(symbol, exchange);
    if bars.None? {
      notice := [FetchFail(symbol, code)];
      return;
    }
    var signal := AnalyzeSymbol(bars.value, symbol, indicate(bars.value));
    if signal.None? {
      if interactive {
        notice := [AnalysisError(symbol)];
      }
    } else {
      line := [signal.value];
    }
  }

  /** One step of the symbol loop: the lines and notices of a longer prefix
      are those of the shorter one followed by those of the next symbol. */
  lemma CollectStep(batch: seq<string>, k: nat, exchange: Exchange, indicate: Indicate, interactive: bool)
    requires k < |batch|
    ensures Lines(batch[..k + 1], exchange, indicate) ==
              Lines(batch[..k], exchange, indicate) + LineOf(batch[k], exchange, indicate)
    ensures Notices(batch[..k + 1], exchange, indicate, interactive) ==
              Notices(batch[..k], exchange, indicate, interactive) + NoticeOf(batch[k], exchange, indicate, interactive)
  {
    assert batch[..k + 1][..k] == batch[..k];
  }

  /** The loop over a batch, in order. */
  method CollectLines(batch: seq<string>, exchange: Exchange, indicate: Indicate, interactive: bool)
    returns (lines: seq<Signal>, notices: seq<Message>)
    ensures lines == Lines(batch, exchange, indicate)
    ensures notices == Notices(batch, exchange, indicate, interactive)
  {
    lines, notices := [], [];
    for k := 0 to |batch|
      invariant lines == Lines(batch[..k], exchange, indicate)
      invariant notices == Notices(batch[..k], exchange, indicate, interactive)
    {
      CollectStep(batch, k, exchange, indicate, interactive);
      var line, notice := ProcessSymbol(batch[k], exchange, indicate, interactive);
      lines := lines + line;
      notices := notices + notice;
    }
    assert batch[..|batch|] == batch;
  }

  // ---------------------------------------------------------------------
  // The two cycle drivers

  /** One Report message per chunk, in order. */
  function AsReports(chunks: seq<seq<Signal>>): (msgs: seq<Message>)
    ensures |msgs| == |chunks|
    ensures forall i :: 0 <= i < |chunks| ==> msgs[i] == Report(chunks[i])
  {
    seq(|chunks|, i requires 0 <= i < |chunks| => Report(chunks[i]))
  }

  /** The report messages for the lines of a cycle. */
  method SendChunks(lines: seq<Signal>) returns (msgs: seq<Message>)
    ensures msgs == AsReports(Chunks(lines, ChunkSize))
  {
    var chunks := Chunk(lines, ChunkSize);
    msgs := AsReports(chunks);
  }

  /** The reports of a non-empty list of lines carry exactly those lines, in
      order, at most 25 to a message, and only the last has fewer than 25. */
  lemma ReportsCarryLines(lines: seq<Signal>)
    ensures var reports := AsReports(Chunks(lines, ChunkSize));
            (forall m :: m in reports ==> m.Report? && 0 < |m.lines| <= ChunkSize) &&
            Flatten(seq(|reports|, i requires 0 <= i < |reports| => reports[i].lines)) == lines
  {
    var chunks := Chunks(lines, ChunkSize);
    var reports := AsReports(chunks);
    assert seq(|reports|, i requires 0 <= i < |reports| => reports[i].lines) == chunks;
    ChunksFlatten(lines, ChunkSize);
  }

  /** What a cycle sends once the symbols are known: the notices of the
      batch, then its lines in chunks; when there are no lines, NoData if
      `interactive` (nowsignal_cmd) and nothing otherwise (auto_loop). */
  function CycleReport(batch: seq<string>, exchange: Exchange, indicate: Indicate, interactive: bool): seq<Message>
  {
    var lines := Lines(batch, exchange, indicate);
    Notices(batch, exchange, indicate, interactive) +
    if lines != [] then AsReports(Chunks(lines, ChunkSize))
    else if interactive then [NoData]
    else []
  }

  /** The symbol loop of a cycle followed by the sending of its lines. */
  method ProcessBatch(batch: seq<string>, exchange: Exchange, indicate: Indicate, interactive: bool)
    returns (msgs: seq<Message>)
    ensures msgs == CycleReport(batch, exchange, indicate, interactive)
  {
    var lines, notices := CollectLines(batch, exchange, indicate, interactive);
    msgs := notices;
    if lines != [] {
      var reports := SendChunks(lines);
      msgs := msgs + reports;
    } else if interactive {
      msgs := msgs + [NoData];
    }
  }

  /** What nowsignal_cmd sends, given what discovery answered: the
      "collecting" notice, then the discovery code when no symbol is known;
      otherwise the count, announced as at most AnnounceLimit, and the
      report of the first TopSymbolLimit symbols. */
  method NowSignalReport(symbols: seq<string>, code: int, exchange: Exchange, indicate: Indicate)
    returns (outbox: seq<Message>)
    ensures code != Status.Ok || symbols == [] ==> outbox == [Collecting, Unavailable(code)]
    ensures code == Status.Ok && symbols != [] ==>
              outbox == [Collecting, Found(|symbols|, Min(|symbols|, AnnounceLimit))] +
                        CycleReport(symbols[..Min(TopSymbolLimit, |symbols|)], exchange, indicate, true)
  {
    outbox := [Collecting];
    if code != Status.Ok || symbols == [] {
      outbox := outbox + [Unavailable(code)];
      return;
    }
    outbox := outbox + [Found(|symbols|, Min(|symbols|, AnnounceLimit))];
    var report := ProcessBatch(symbols[..Min(TopSymbolLimit, |symbols|)], exchange, indicate, true);
    outbox := outbox + report;
  }

  /** nowsignal_cmd: announce, discover, then report. */
  method NowSignal(pages: seq<Option<string>>, findAll: Matcher, exchange: Exchange, indicate: Indicate)
    returns (outbox: seq<Message>)
    ensures var top := TopSymbols(pages, findAll, TopSymbolLimit);
            top == [] ==> outbox == [Collecting, Unavailable(Status.Unavailable)]
    ensures var top := TopSymbols(pages, findAll, TopSymbolLimit);
            top != [] ==>
              outbox == [Collecting, Found(|top|, Min(|top|, AnnounceLimit))] + CycleReport(top, exchange, indicate, true)
  {
    var symbols, code := GetTopSymbols(pages, findAll, TopSymbolLimit);
    assert symbols[..Min(TopSymbolLimit, |symbols|)] == symbols;
    outbox := NowSignalReport(symbols, code, exchange, indicate);
  }

  /** One iteration of auto_loop: on a failed discovery send its code;
      otherwise process the first TopSymbolLimit symbols, dropping analysis
      errors silently and sending nothing when no line was produced. */
  method AutoCycle(pages: seq<Option<string>>, findAll: Matcher, exchange: Exchange, indicate: Indicate)
    returns (outbox: seq<Message>)
    ensures var top := TopSymbols(pages, findAll, TopSymbolLimit);
            top == [] ==> outbox == [Unavailable(Status.Unavailable)]
    ensures var top := TopSymbols(pages, findAll, TopSymbolLimit);
            top != [] ==> outbox == CycleReport(top, exchange, indicate, false)
  {
    var symbols, code := GetTopSymbols(pages, findAll, TopSymbolLimit);
    if code != Status.Ok {
      outbox := [Unavailable(code)];
      return;
    }
    var batch := symbols[..Min(TopSymbolLimit, |symbols|)];
    assert batch == symbols;
    outbox := ProcessBatch(batch, exchange, indicate, false);
  }
}
