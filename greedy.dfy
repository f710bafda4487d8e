/** BrotliBuildMetaBlockGreedyInternal of metablock.go: a single pass over
    the commands and the ring buffer that feeds each command's code to the
    command splitter, each inserted literal to the literal splitter (with
    its context when there are several), and each explicit distance code to
    the distance splitter.

    The plain block splitters are not part of this model: each is a
    `SymbolSink` that records the symbols it receives. The context literal
    splitter is the `ContextBlockSplitter` of this model, so the literal
    split the pass produces is the one its specification predicts. The
    context function (BROTLI_CONTEXT over the previous two bytes) is a
    parameter. */
module GreedyMetaBlock {
  import opened Common
  import opened BlockSplits
  import BlockSplitter
  import opened ContextSplitterSpec
  import opened ContextSplitters
  import opened MetaBlocks

  /** The literal splitter's tuning in the greedy pass. */
  const LiteralAlphabetSize: nat := 256
  const LiteralMinBlockSize: nat := 512
  const LiteralSplitThreshold: real := 400.0

  /** A plain block splitter seen from outside: the symbols it was given,
      in order, and whether its final block was finished. */
  class SymbolSink<T> {
    var symbols: seq<T>
    var finished: bool

    constructor()
      ensures symbols == [] && !finished
    {
      symbols := [];
      finished := false;
    }

    method AddSymbol(symbol: T)
      requires !finished
      modifies this
      ensures symbols == old(symbols) + [symbol] && !finished
    {
      symbols := symbols + [symbol];
    }

    method FinishBlock()
      modifies this
      ensures symbols == old(symbols) && finished
    {
      finished := true;
    }
  }

  /** The two bytes before the next literal: `prev_byte` and `prev_byte2`. */
  datatype History = History(prev1: Byte, prev2: Byte)

  /** The history after `m` literals of a run read from stream position
      `at` on: each literal becomes the previous byte. */
  function RunHistory(data: seq<Byte>, size: nat, at: nat, m: nat, h: History): History
    requires 0 < size <= |data|
  {
    if m == 0 then h
    else
      var before := RunHistory(data, size, at, m - 1, h);
      History(data[(at + m - 1) % size], before.prev1)
  }

  /** After a copy that ends at stream position `end`, the history is
      re-read from the ring; an empty copy leaves it alone. Positions below
      zero wrap around the ring. */
  function CopyHistory(data: seq<Byte>, size: nat, end: nat, cmd: Command, h: History): History
    requires 0 < size <= |data|
  {
    if cmd.copyLen != 0 then History(data[(end - 1) % size], data[(end - 2) % size]) else h
  }

  /** The history after the commands `cmds`, starting at stream position
      `start` with history `h0`. */
  function HistoryAfter(cmds: seq<Command>, data: seq<Byte>, size: nat, start: nat, h0: History): History
    requires 0 < size <= |data|
  {
    if cmds == [] then h0
    else
      var n := |cmds| - 1;
      var at := start + BlockSplitter.Advance(cmds[..n]);
      var afterRun := RunHistory(data, size, at, cmds[n].insertLen, HistoryAfter(cmds[..n], data, size, start, h0));
      CopyHistory(data, size, at + cmds[n].insertLen + cmds[n].copyLen, cmds[n], afterRun)
  }

  /** A 6-bit literal context: what BROTLI_CONTEXT yields for the two
      previous bytes. */
  type LiteralContext = x: nat | x < 64

  /** The static map sends every literal context to one of `numContexts`
      buckets. */
  predicate ContextsOk(staticContextMap: seq<U32>, numContexts: nat) {
    && |staticContextMap| >= 64
    && (forall k :: 0 <= k < 64 ==> staticContextMap[k] < numContexts)
  }

  /** The (literal, bucket) pairs of a run of `m` literals. */
  function RunPairs(data: seq<Byte>, size: nat, at: nat, m: nat, h: History,
                    contextOf: (Byte, Byte) -> LiteralContext, staticContextMap: seq<U32>, numContexts: nat): (r: seq<(nat, nat)>)
    requires 0 < size <= |data| && ContextsOk(staticContextMap, numContexts)
    ensures |r| == m
    ensures forall k :: 0 <= k < m ==> r[k].0 < NumLiteralSymbols && r[k].1 < numContexts
  {
    if m == 0 then []
    else
      var before := RunHistory(data, size, at, m - 1, h);
      RunPairs(data, size, at, m - 1, h, contextOf, staticContextMap, numContexts)
      + [(data[(at + m - 1) % size] as nat, staticContextMap[contextOf(before.prev1, before.prev2)] as nat)]
  }

  /** The (literal, bucket) pairs the context splitter receives for the
      commands `cmds`. */
  function LiteralPairs(cmds: seq<Command>, data: seq<Byte>, size: nat, start: nat, h0: History,
                        contextOf: (Byte, Byte) -> LiteralContext, staticContextMap: seq<U32>, numContexts: nat): (r: seq<(nat, nat)>)
    requires 0 < size <= |data| && ContextsOk(staticContextMap, numContexts)
    ensures |r| == BlockSplitter.InsertTotal(cmds)
    ensures forall k :: 0 <= k < |r| ==> r[k].0 < NumLiteralSymbols && r[k].1 < numContexts
  {
    if cmds == [] then []
    else
      var n := |cmds| - 1;
      LiteralPairs(cmds[..n], data, size, start, h0, contextOf, staticContextMap, numContexts)
      + RunPairs(data, size, start + BlockSplitter.Advance(cmds[..n]), cmds[n].insertLen,
                 HistoryAfter(cmds[..n], data, size, start, h0), contextOf, staticContextMap, numContexts)
  }

  /** The context splitter receives exactly the literals, in stream order:
      the first components of the pairs are the literals CopyLiteralsToByteArray copies. */
  lemma {:induction false} LiteralPairsAreLiterals(cmds: seq<Command>, data: seq<Byte>, size: nat, start: nat, h0: History,
                                                  contextOf: (Byte, Byte) -> LiteralContext, staticContextMap: seq<U32>, numContexts: nat)
    requires 0 < size <= |data| && ContextsOk(staticContextMap, numContexts)
    ensures forall k :: 0 <= k < BlockSplitter.InsertTotal(cmds) ==>
              LiteralPairs(cmds, data, size, start, h0, contextOf, staticContextMap, numContexts)[k].0
              == BlockSplitter.Literals(cmds, data, size, start)[k]
  {
    if cmds != [] {
      var n := |cmds| - 1;
      LiteralPairsAreLiterals(cmds[..n], data, size, start, h0, contextOf, staticContextMap, numContexts);
      var at := start + BlockSplitter.Advance(cmds[..n]);
      var h := HistoryAfter(cmds[..n], data, size, start, h0);
      RunPairsAreRun(data, size, at, cmds[n].insertLen, h, contextOf, staticContextMap, numContexts);
      var pre: seq<(nat, nat)> := LiteralPairs(cmds[..n], data, size, start, h0, contextOf, staticContextMap, numContexts);
      var run: seq<(nat, nat)> := RunPairs(data, size, at, cmds[n].insertLen, h, contextOf, staticContextMap, numContexts);
      var lits := BlockSplitter.Literals(cmds, data, size, start);
      var preLits := BlockSplitter.Literals(cmds[..n], data, size, start);
      var runLits := BlockSplitter.Run(data, size, at, cmds[n].insertLen);
      assert lits == preLits + runLits;
      forall k | 0 <= k < |pre| + |run|
        ensures (pre + run)[k].0 == lits[k]
      {
        if k < |pre| {
          assert (pre + run)[k] == pre[k];
        } else {
          assert (pre + run)[k] == run[k - |pre|];
        }
      }
    }
  }

  lemma {:induction false} RunPairsAreRun(data: seq<Byte>, size: nat, at: nat, m: nat, h: History,
                                          contextOf: (Byte, Byte) -> LiteralContext, staticContextMap: seq<U32>, numContexts: nat)
    requires 0 < size <= |data| && ContextsOk(staticContextMap, numContexts)
    ensures forall k :: 0 <= k < m ==>
              RunPairs(data, size, at, m, h, contextOf, staticContextMap, numContexts)[k].0 == data[(at + k) % size]
  {
    if m > 0 {
      RunPairsAreRun(data, size, at, m - 1, h, contextOf, staticContextMap, numContexts);
      var before := RunPairs(data, size, at, m - 1, h, contextOf, staticContextMap, numContexts);
      var p := RunPairs(data, size, at, m, h, contextOf, staticContextMap, numContexts);
      var hb := RunHistory(data, size, at, m - 1, h);
      assert p == before + [(data[(at + m - 1) % size] as nat, staticContextMap[contextOf(hb.prev1, hb.prev2)] as nat)];
      forall k | 0 <= k < m
        ensures p[k].0 == data[(at + k) % size]
      {
        if k < m - 1 {
          assert p[k] == before[k];
        }
      }
    }
  }

  /** The joint command codes, one per command, in order. */
  function CommandCodes(cmds: seq<Command>): (r: seq<U16>)
    ensures |r| == |cmds|
    ensures forall k :: 0 <= k < |cmds| ==> r[k] == cmds[k].cmdPrefix
  {
    if cmds == [] then []
    else CommandCodes(cmds[..|cmds| - 1]) + [cmds[|cmds| - 1].cmdPrefix]
  }

  // ---------------------------------------------------------------------
  // The walk
  // ---------------------------------------------------------------------

  /** The inner loop of the walk when there is one literal context: each
      literal of the insert run, read from the ring at the stream position,
      goes to the plain literal splitter and becomes the previous byte. */
  method FeedPlainRun(data: seq<Byte>, mask: nat, pos: nat, insertLen: nat, prevByte: Byte, prevByte2: Byte,
                      sink: SymbolSink<Byte>)
    returns (end: nat, prev1: Byte, prev2: Byte)
    requires mask < |data| && !sink.finished
    modifies sink
    ensures end == pos + insertLen && !sink.finished
    ensures History(prev1, prev2) == RunHistory(data, mask + 1, pos, insertLen, History(prevByte, prevByte2))
    ensures sink.symbols == old(sink.symbols) + BlockSplitter.Run(data, mask + 1, pos, insertLen)
  {
    end, prev1, prev2 := pos, prevByte, prevByte2;
    var j: nat := insertLen;
    while j != 0
      invariant j <= insertLen && end == pos + (insertLen - j) && !sink.finished
      decreases j
      invariant History(prev1, prev2) == RunHistory(data, mask + 1, pos, insertLen - j, History(prevByte, prevByte2))
      invariant sink.symbols == old(sink.symbols) + BlockSplitter.Run(data, mask + 1, pos, insertLen - j)
    {
      var literal := data[end % (mask + 1)];
      sink.AddSymbol(literal);
      assert BlockSplitter.Run(data, mask + 1, pos, insertLen - j + 1)
             == BlockSplitter.Run(data, mask + 1, pos, insertLen - j) + [literal];
      prev2 := prev1;
      prev1 := literal;
      end := end + 1;
      j := j - 1;
    }
  }

  /** The inner loop of the walk with several literal contexts: each
      literal goes to the context splitter with the bucket the static map
      gives the context of the two bytes before it. */
  method FeedContextRun(data: seq<Byte>, mask: nat, pos: nat, insertLen: nat, prevByte: Byte, prevByte2: Byte,
                        contextOf: (Byte, Byte) -> LiteralContext, staticContextMap: seq<U32>, ctx: ContextBlockSplitter)
    returns (end: nat, prev1: Byte, prev2: Byte)
    requires mask < |data| && ContextsOk(staticContextMap, ctx.numContexts)
    requires Ready(ctx.Cfg(), ctx.Snap()) && ctx.symbolsAdded + insertLen <= ctx.numSymbols
    modifies ctx, ctx.split
    ensures end == pos + insertLen
    ensures History(prev1, prev2) == RunHistory(data, mask + 1, pos, insertLen, History(prevByte, prevByte2))
    ensures ctx.Snap() == Feed(ctx.Cfg(), old(ctx.Snap()), RunPairs(data, mask + 1, pos, insertLen, History(prevByte, prevByte2),
                                                                    contextOf, staticContextMap, ctx.numContexts))
  {
    ghost var s0 := ctx.Snap();
    ghost var h0 := History(prevByte, prevByte2);
    end, prev1, prev2 := pos, prevByte, prevByte2;
    assert RunPairs(data, mask + 1, pos, 0, h0, contextOf, staticContextMap, ctx.numContexts) == [];
    assert Feed(ctx.Cfg(), s0, []) == s0;
    var j: nat := insertLen;
    ghost var m: nat := 0;
    ghost var c0 := ctx.Cfg();
    while j != 0
      invariant c0 == ctx.Cfg() && Ready(c0, s0) && s0.symbolsAdded + insertLen <= c0.numSymbols
      invariant m + j == insertLen && end == pos + m
      invariant History(prev1, prev2) == RunHistory(data, mask + 1, pos, m, h0)
      invariant ctx.Snap() == Feed(c0, s0, RunPairs(data, mask + 1, pos, m, h0, contextOf, staticContextMap, ctx.numContexts))
      decreases j
    {
      prev1, prev2 := ContextRunStep(data, mask + 1, pos, m, h0, contextOf, staticContextMap, ctx, s0, end, prev1, prev2);
      end := end + 1;
      j := j - 1;
      m := m + 1;
    }
  }

  /** One iteration of the inner loop: the literal at the next stream
      position goes to the context splitter with the bucket of the two
      bytes before it, and becomes the previous byte. */
  method ContextRunStep(data: seq<Byte>, size: nat, at: nat, ghost m: nat, ghost h: History,
                        contextOf: (Byte, Byte) -> LiteralContext, staticContextMap: seq<U32>,
                        ctx: ContextBlockSplitter, ghost s0: Splitter, end: nat, prev1: Byte, prev2: Byte)
    returns (next1: Byte, next2: Byte)
    requires 0 < size <= |data| && ContextsOk(staticContextMap, ctx.numContexts)
    requires Ready(ctx.Cfg(), s0) && s0.symbolsAdded + m + 1 <= ctx.numSymbols
    requires end == at + m && History(prev1, prev2) == RunHistory(data, size, at, m, h)
    requires ctx.Snap() == Feed(ctx.Cfg(), s0, RunPairs(data, size, at, m, h, contextOf, staticContextMap, ctx.numContexts))
    modifies ctx, ctx.split
    ensures History(next1, next2) == RunHistory(data, size, at, m + 1, h)
    ensures ctx.Snap() == Feed(ctx.Cfg(), s0, RunPairs(data, size, at, m + 1, h, contextOf, staticContextMap, ctx.numContexts))
  {
    var literal := data[end % size];
    var context := contextOf(prev1, prev2);
    RunHistoryStep(data, size, at, m, h, end);
    FeedRunStep(ctx.Cfg(), s0, data, size, at, m, h, contextOf, staticContextMap, end);
    ctx.AddSymbol(literal, staticContextMap[context]);
    next1, next2 := literal, prev1;
  }

  /** One more literal of a run becomes the previous byte. */
  lemma RunHistoryStep(data: seq<Byte>, size: nat, at: nat, m: nat, h: History, end: nat)
    requires 0 < size <= |data| && end == at + m
    ensures RunHistory(data, size, at, m + 1, h) == History(data[end % size], RunHistory(data, size, at, m, h).prev1)
  {
  }

  /** Feeding one more literal of a run is one more AddSymbol, with the
      literal at the next stream position and the bucket of the history
      before it. */
  lemma FeedRunStep(c: Config, s: Splitter, data: seq<Byte>, size: nat, at: nat, m: nat, h: History,
                    contextOf: (Byte, Byte) -> LiteralContext, staticContextMap: seq<U32>, end: nat)
    requires 0 < size <= |data| && ContextsOk(staticContextMap, c.numContexts) && end == at + m
    requires Ready(c, s) && s.symbolsAdded + m + 1 <= c.numSymbols
    ensures var hm := RunHistory(data, size, at, m, h);
            var run := RunPairs(data, size, at, m, h, contextOf, staticContextMap, c.numContexts);
            var x: (nat, nat) := (data[end % size] as nat, staticContextMap[contextOf(hm.prev1, hm.prev2)] as nat);
            && Accepts(c, Feed(c, s, run), x)
            && Feed(c, s, RunPairs(data, size, at, m + 1, h, contextOf, staticContextMap, c.numContexts))
               == AddSymbolSpec(c, Feed(c, s, run), x.0, x.1)
  {
    var hm := RunHistory(data, size, at, m, h);
    var run := RunPairs(data, size, at, m, h, contextOf, staticContextMap, c.numContexts);
    var x: (nat, nat) := (data[end % size] as nat, staticContextMap[contextOf(hm.prev1, hm.prev2)] as nat);
    RunPairsStep(data, size, at, m, h, contextOf, staticContextMap, c.numContexts, end);
    FeedKeeps(c, s, run);
    FeedAppend(c, s, run, x);
  }

  /** The pairs of one more literal of a run end with that literal and the
      bucket of the history before it. */
  lemma RunPairsStep(data: seq<Byte>, size: nat, at: nat, m: nat, h: History,
                     contextOf: (Byte, Byte) -> LiteralContext, staticContextMap: seq<U32>, numContexts: nat, end: nat)
    requires 0 < size <= |data| && ContextsOk(staticContextMap, numContexts) && end == at + m
    ensures var hm := RunHistory(data, size, at, m, h);
            RunPairs(data, size, at, m + 1, h, contextOf, staticContextMap, numContexts)
            == RunPairs(data, size, at, m, h, contextOf, staticContextMap, numContexts)
               + [(data[end % size] as nat, staticContextMap[contextOf(hm.prev1, hm.prev2)] as nat)]
  {
  }

  /** One more command: its code joins the command codes, and its
      distance code joins the distance codes when it carries one. */
  lemma CodesStep(cmds: seq<Command>, i: nat)
    requires i < |cmds|
    ensures CommandCodes(cmds[..i + 1]) == CommandCodes(cmds[..i]) + [cmds[i].cmdPrefix]
    ensures BlockSplitter.DistanceCodes(cmds[..i + 1])
            == BlockSplitter.DistanceCodes(cmds[..i]) + (if HasDistance(cmds[i]) then [DistanceCode(cmds[i].distPrefix) as U16] else [])
  {
    assert cmds[..i + 1][..i] == cmds[..i];
  }

  /** One more command: the stream moves past its insert run and its copy,
      and the history is the one its run and its copy leave. */
  lemma HistoryStep(cmds: seq<Command>, i: nat, data: seq<Byte>, size: nat, start: nat, h0: History,
                    at: nat, afterRun: History, next: nat, h: History)
    requires 0 < size <= |data| && i < |cmds|
    requires at == start + BlockSplitter.Advance(cmds[..i])
    requires afterRun == RunHistory(data, size, at, cmds[i].insertLen, HistoryAfter(cmds[..i], data, size, start, h0))
    requires next == at + cmds[i].insertLen + cmds[i].copyLen
    requires h == CopyHistory(data, size, next, cmds[i], afterRun)
    ensures next == start + BlockSplitter.Advance(cmds[..i + 1])
    ensures h == HistoryAfter(cmds[..i + 1], data, size, start, h0)
  {
    assert cmds[..i + 1][..i] == cmds[..i];
  }

  /** One more command: its insert run joins the literals. */
  lemma LiteralsStep(cmds: seq<Command>, i: nat, data: seq<Byte>, size: nat, start: nat, at: nat)
    requires 0 < size <= |data| && i < |cmds|
    requires at == start + BlockSplitter.Advance(cmds[..i])
    ensures BlockSplitter.Literals(cmds[..i + 1], data, size, start)
            == BlockSplitter.Literals(cmds[..i], data, size, start) + BlockSplitter.Run(data, size, at, cmds[i].insertLen)
  {
    assert cmds[..i + 1][..i] == cmds[..i];
  }

  /** One more command: the pairs of its insert run join the pairs. */
  lemma LiteralPairsStep(cmds: seq<Command>, i: nat, data: seq<Byte>, size: nat, start: nat, h0: History,
                         contextOf: (Byte, Byte) -> LiteralContext, staticContextMap: seq<U32>, numContexts: nat,
                         at: nat, h: History)
    requires 0 < size <= |data| && i < |cmds| && ContextsOk(staticContextMap, numContexts)
    requires at == start + BlockSplitter.Advance(cmds[..i]) && h == HistoryAfter(cmds[..i], data, size, start, h0)
    ensures BlockSplitter.InsertTotal(cmds[..i + 1]) == BlockSplitter.InsertTotal(cmds[..i]) + cmds[i].insertLen
    ensures LiteralPairs(cmds[..i + 1], data, size, start, h0, contextOf, staticContextMap, numContexts)
            == LiteralPairs(cmds[..i], data, size, start, h0, contextOf, staticContextMap, numContexts)
               + RunPairs(data, size, at, cmds[i].insertLen, h, contextOf, staticContextMap, numContexts)
  {
    assert cmds[..i + 1][..i] == cmds[..i];
  }

  /** The part of a command after its insert run: the stream position moves
      past the copy; a non-empty copy re-reads the two previous bytes from
      the ring and, when the command carries an explicit distance, gives
      the distance splitter the distance code. */
  method CopyCommand(data: seq<Byte>, mask: nat, end: nat, cmd: Command, prevByte: Byte, prevByte2: Byte,
                     distanceSink: SymbolSink<U16>)
    returns (next: nat, prev1: Byte, prev2: Byte)
    requires mask < |data| && !distanceSink.finished
    modifies distanceSink
    ensures next == end + cmd.copyLen && !distanceSink.finished
    ensures History(prev1, prev2) == CopyHistory(data, mask + 1, next, cmd, History(prevByte, prevByte2))
    ensures distanceSink.symbols
            == old(distanceSink.symbols) + (if HasDistance(cmd) then [DistanceCode(cmd.distPrefix) as U16] else [])
  {
    next, prev1, prev2 := end + cmd.copyLen, prevByte, prevByte2;
    if cmd.copyLen != 0 {
      prev2 := data[(next - 2) % (mask + 1)];
      prev1 := data[(next - 1) % (mask + 1)];
      if cmd.cmdPrefix >= 128 {
        distanceSink.AddSymbol((cmd.distPrefix % 1024) as U16);
      }
    }
  }

  /** One command of the walk with a single literal context. */
  method PlainCommand(data: seq<Byte>, mask: nat, ghost start: nat, ghost h0: History, cmds: seq<Command>, i: nat,
                      at: nat, prevByte: Byte, prevByte2: Byte,
                      literalSink: SymbolSink<Byte>, commandSink: SymbolSink<U16>, distanceSink: SymbolSink<U16>)
    returns (next: nat, prev1: Byte, prev2: Byte)
    requires mask < |data| && i < |cmds|
    requires commandSink != distanceSink
    requires !literalSink.finished && !commandSink.finished && !distanceSink.finished
    requires at == start + BlockSplitter.Advance(cmds[..i])
    requires History(prevByte, prevByte2) == HistoryAfter(cmds[..i], data, mask + 1, start, h0)
    requires literalSink.symbols == BlockSplitter.Literals(cmds[..i], data, mask + 1, start)
    requires commandSink.symbols == CommandCodes(cmds[..i])
    requires distanceSink.symbols == BlockSplitter.DistanceCodes(cmds[..i])
    modifies literalSink, commandSink, distanceSink
    ensures !literalSink.finished && !commandSink.finished && !distanceSink.finished
    ensures next == start + BlockSplitter.Advance(cmds[..i + 1])
    ensures History(prev1, prev2) == HistoryAfter(cmds[..i + 1], data, mask + 1, start, h0)
    ensures literalSink.symbols == BlockSplitter.Literals(cmds[..i + 1], data, mask + 1, start)
    ensures commandSink.symbols == CommandCodes(cmds[..i + 1])
    ensures distanceSink.symbols == BlockSplitter.DistanceCodes(cmds[..i + 1])
  {
    var cmd := cmds[i];
    CodesStep(cmds, i);
    LiteralsStep(cmds, i, data, mask + 1, start, at);
    commandSink.AddSymbol(cmd.cmdPrefix);
    var end;
    ghost var h := History(prevByte, prevByte2);
    end, prev1, prev2 := FeedPlainRun(data, mask, at, cmd.insertLen, prevByte, prevByte2, literalSink);
    ghost var afterRun := History(prev1, prev2);
    next, prev1, prev2 := CopyCommand(data, mask, end, cmd, prev1, prev2, distanceSink);
    HistoryStep(cmds, i, data, mask + 1, start, h0, at, afterRun, next, History(prev1, prev2));
  }

  /** One command of the walk with several literal contexts; the context
      splitter, which has been fed the pairs `done`, is fed the pairs of the
      command's insert run as well. */
  method ContextCommand(data: seq<Byte>, mask: nat, ghost start: nat, ghost h0: History, cmds: seq<Command>, i: nat,
                        at: nat, prevByte: Byte, prevByte2: Byte,
                        contextOf: (Byte, Byte) -> LiteralContext, staticContextMap: seq<U32>,
                        ctx: ContextBlockSplitter, ghost c: Config, ghost s0: Splitter,
                        ghost types0: seq<Byte>, ghost lengths0: seq<nat>, ghost done: seq<(nat, nat)>,
                        commandSink: SymbolSink<U16>, distanceSink: SymbolSink<U16>)
    returns (next: nat, prev1: Byte, prev2: Byte)
    requires mask < |data| && i < |cmds| && ContextsOk(staticContextMap, c.numContexts)
    requires commandSink != distanceSink && !commandSink.finished && !distanceSink.finished
    requires ctx.Cfg() == c && Started(c, s0, types0, lengths0)
    requires SymbolsOk(c, done) && s0.symbolsAdded + |done| + cmds[i].insertLen <= c.numSymbols
    requires at == start + BlockSplitter.Advance(cmds[..i])
    requires History(prevByte, prevByte2) == HistoryAfter(cmds[..i], data, mask + 1, start, h0)
    requires ctx.Snap() == Feed(c, s0, done)
    requires commandSink.symbols == CommandCodes(cmds[..i])
    requires distanceSink.symbols == BlockSplitter.DistanceCodes(cmds[..i])
    modifies ctx, ctx.split, commandSink, distanceSink
    ensures !commandSink.finished && !distanceSink.finished
    ensures next == start + BlockSplitter.Advance(cmds[..i + 1])
    ensures History(prev1, prev2) == HistoryAfter(cmds[..i + 1], data, mask + 1, start, h0)
    ensures ctx.Snap() == Feed(c, s0, done + RunPairs(data, mask + 1, at, cmds[i].insertLen, History(prevByte, prevByte2),
                                                      contextOf, staticContextMap, c.numContexts))
    ensures commandSink.symbols == CommandCodes(cmds[..i + 1])
    ensures distanceSink.symbols == BlockSplitter.DistanceCodes(cmds[..i + 1])
  {
    var cmd := cmds[i];
    CodesStep(cmds, i);
    commandSink.AddSymbol(cmd.cmdPrefix);
    var end;
    end, prev1, prev2 := ContextInsertRun(data, mask, at, cmd.insertLen, prevByte, prevByte2,
                                          contextOf, staticContextMap, ctx, c, s0, types0, lengths0, done);
    ghost var afterRun := History(prev1, prev2);
    next, prev1, prev2 := CopyCommand(data, mask, end, cmd, prev1, prev2, distanceSink);
    HistoryStep(cmds, i, data, mask + 1, start, h0, at, afterRun, next, History(prev1, prev2));
  }

  /** An insert run of `insertLen` literals at `at` with several contexts:
      the context splitter, which has been fed the pairs `done` from the
      state `s0` initialisation left, is fed the pairs of the run as well. */
  method ContextInsertRun(data: seq<Byte>, mask: nat, at: nat, insertLen: nat, prevByte: Byte, prevByte2: Byte,
                          contextOf: (Byte, Byte) -> LiteralContext, staticContextMap: seq<U32>,
                          ctx: ContextBlockSplitter, ghost c: Config, ghost s0: Splitter,
                          ghost types0: seq<Byte>, ghost lengths0: seq<nat>, ghost done: seq<(nat, nat)>)
    returns (end: nat, prev1: Byte, prev2: Byte)
    requires mask < |data| && ContextsOk(staticContextMap, c.numContexts)
    requires ctx.Cfg() == c && Started(c, s0, types0, lengths0)
    requires SymbolsOk(c, done) && s0.symbolsAdded + |done| + insertLen <= c.numSymbols
    requires ctx.Snap() == Feed(c, s0, done)
    modifies ctx, ctx.split
    ensures end == at + insertLen
    ensures History(prev1, prev2) == RunHistory(data, mask + 1, at, insertLen, History(prevByte, prevByte2))
    ensures ctx.Snap() == Feed(c, s0, done + RunPairs(data, mask + 1, at, insertLen, History(prevByte, prevByte2),
                                                      contextOf, staticContextMap, c.numContexts))
  {
    ghost var run := RunPairs(data, mask + 1, at, insertLen, History(prevByte, prevByte2),
                              contextOf, staticContextMap, c.numContexts);
    InitReady(c, types0, lengths0, NoEntropy());
    FeedKeeps(c, s0, done);
    FeedConcat(c, s0, done, run);
    end, prev1, prev2 := FeedContextRun(data, mask, at, insertLen, prevByte, prevByte2, contextOf, staticContextMap, ctx);
  }

  /** The literal count of a prefix of the commands, plus the next insert
      run, stays within the count of all of them. */
  lemma InsertTotalStep(cmds: seq<Command>, i: nat, n: nat)
    requires i < n <= |cmds|
    ensures BlockSplitter.InsertTotal(cmds[..i]) + cmds[i].insertLen <= BlockSplitter.InsertTotal(cmds[..n])
  {
    assert cmds[..i + 1][..i] == cmds[..i];
    assert cmds[..n][..i + 1] == cmds[..i + 1];
    BlockSplitter.InsertTotalPrefix(cmds[..n], i + 1);
  }

  /** The context literal splitter of the greedy pass: 256 literals, a
      minimum block size of 512, a split threshold of 400 bits and the
      number of literals as the symbol count. */
  function LiteralConfig(numContexts: nat, numLiterals: nat, bitsEntropy: seq<nat> -> real): (c: Config)
    requires 1 <= numContexts <= MaxStaticContexts
    ensures ConfigOk(c) && c.numContexts == numContexts && c.numSymbols == numLiterals
  {
    Config(LiteralAlphabetSize, numContexts, MaxNumberOfBlockTypes / numContexts,
           LiteralMinBlockSize, LiteralSplitThreshold, numLiterals, bitsEntropy)
  }

  /** The entropies a freshly initialised context splitter remembers for
      its last two block types: all zero. */
  function NoEntropy(): seq<real> {
    seq(2 * MaxStaticContexts, _ => 0.0)
  }

  /** `s0` is the state initialisation leaves for the configuration `c`
      and the slices `types0` and `lengths0`. */
  ghost predicate Started(c: Config, s0: Splitter, types0: seq<Byte>, lengths0: seq<nat>) {
    && ConfigOk(c) && |types0| >= MaxNumBlocks(c) && |lengths0| >= MaxNumBlocks(c)
    && s0 == InitSpec(c, types0, lengths0, NoEntropy())
  }

  /** The literal split of the greedy pass with several contexts: the
      split the specification gives for the pairs of the commands, starting
      from the slices `types0` and `lengths0` as initialisation left them. */
  ghost function GreedyLiteralSplit(cmds: seq<Command>, data: seq<Byte>, size: nat, start: nat, h0: History,
                                    contextOf: (Byte, Byte) -> LiteralContext, numContexts: nat, staticContextMap: seq<U32>,
                                    bitsEntropy: seq<nat> -> real, types0: seq<Byte>, lengths0: seq<nat>): Splitter
    requires 0 < size <= |data| && 1 <= numContexts <= MaxStaticContexts && ContextsOk(staticContextMap, numContexts)
    requires var c := LiteralConfig(numContexts, BlockSplitter.InsertTotal(cmds), bitsEntropy);
             |types0| >= MaxNumBlocks(c) && |lengths0| >= MaxNumBlocks(c)
  {
    SplitStream(LiteralConfig(numContexts, BlockSplitter.InsertTotal(cmds), bitsEntropy), types0, lengths0,
                NoEntropy(),
                LiteralPairs(cmds, data, size, start, h0, contextOf, staticContextMap, numContexts))
  }

  /** The literal split of the greedy pass is well formed, its blocks cover
      the meta-block's literals (overshooting by at most the padding of the
      last block), and the symbols the splitter was given are those
      literals in stream order. */
  lemma GreedyLiteralSplitCovers(cmds: seq<Command>, data: seq<Byte>, size: nat, start: nat, h0: History,
                                 contextOf: (Byte, Byte) -> LiteralContext, numContexts: nat, staticContextMap: seq<U32>,
                                 bitsEntropy: seq<nat> -> real, types0: seq<Byte>, lengths0: seq<nat>)
    requires 0 < size <= |data| && 1 <= numContexts <= MaxStaticContexts && ContextsOk(staticContextMap, numContexts)
    requires var c := LiteralConfig(numContexts, BlockSplitter.InsertTotal(cmds), bitsEntropy);
             |types0| >= MaxNumBlocks(c) && |lengths0| >= MaxNumBlocks(c)
    ensures var r := GreedyLiteralSplit(cmds, data, size, start, h0, contextOf, numContexts, staticContextMap,
                                        bitsEntropy, types0, lengths0);
            var n := BlockSplitter.InsertTotal(cmds);
            && FinalSplit(LiteralConfig(numContexts, n, bitsEntropy), r)
            && n <= Sum(r.lengths[..r.numBlocks]) <= n + LiteralMinBlockSize
    ensures var pairs := LiteralPairs(cmds, data, size, start, h0, contextOf, staticContextMap, numContexts);
            forall k :: 0 <= k < |pairs| ==> pairs[k].0 == BlockSplitter.Literals(cmds, data, size, start)[k]
  {
    var c := LiteralConfig(numContexts, BlockSplitter.InsertTotal(cmds), bitsEntropy);
    var pairs := LiteralPairs(cmds, data, size, start, h0, contextOf, staticContextMap, numContexts);
    SplitStreamCovers(c, types0, lengths0, NoEntropy(), pairs);
    LiteralPairsAreLiterals(cmds, data, size, start, h0, contextOf, staticContextMap, numContexts);
  }

  /** The loop of BrotliBuildMetaBlockGreedyInternal over the commands when
      there is one literal context: each command's code goes to the command
      splitter, its insert run to the plain literal splitter and its explicit
      distance code to the distance splitter. */
  method WalkPlain(data: seq<Byte>, pos: nat, mask: nat, ghost k: nat, prevByte: Byte, prevByte2: Byte,
                   cmds: seq<Command>, numCommands: nat,
                   literalSink: SymbolSink<Byte>, commandSink: SymbolSink<U16>, distanceSink: SymbolSink<U16>)
    requires k <= 32 && mask + 1 == Pow2(k) && mask < |data| && numCommands <= |cmds|
    requires commandSink != distanceSink
    requires !literalSink.finished && !commandSink.finished && !distanceSink.finished
    requires literalSink.symbols == [] && commandSink.symbols == [] && distanceSink.symbols == []
    modifies literalSink, commandSink, distanceSink
    ensures !literalSink.finished && !commandSink.finished && !distanceSink.finished
    ensures commandSink.symbols == CommandCodes(cmds[..numCommands])
    ensures distanceSink.symbols == BlockSplitter.DistanceCodes(cmds[..numCommands])
    ensures literalSink.symbols == BlockSplitter.Literals(cmds[..numCommands], data, mask + 1, pos)
  {
    ghost var h0 := History(prevByte, prevByte2);
    var p := pos;
    var prev1, prev2 := prevByte, prevByte2;
    var i := 0;
    while i < numCommands
      invariant i <= numCommands
      invariant !literalSink.finished && !commandSink.finished && !distanceSink.finished
      invariant p == pos + BlockSplitter.Advance(cmds[..i])
      invariant History(prev1, prev2) == HistoryAfter(cmds[..i], data, mask + 1, pos, h0)
      invariant commandSink.symbols == CommandCodes(cmds[..i])
      invariant distanceSink.symbols == BlockSplitter.DistanceCodes(cmds[..i])
      invariant literalSink.symbols == BlockSplitter.Literals(cmds[..i], data, mask + 1, pos)
    {
      p, prev1, prev2 := PlainCommand(data, mask, pos, h0, cmds, i, p, prev1, prev2, literalSink, commandSink, distanceSink);
      i := i + 1;
    }
  }

  /** The same loop when there are several literal contexts: the insert runs
      go, with the static context of each literal, to the context splitter. */
  method WalkContext(data: seq<Byte>, pos: nat, mask: nat, ghost k: nat, prevByte: Byte, prevByte2: Byte,
                     contextOf: (Byte, Byte) -> LiteralContext, numContexts: nat, staticContextMap: seq<U32>,
                     cmds: seq<Command>, numCommands: nat,
                     ctx: ContextBlockSplitter, commandSink: SymbolSink<U16>, distanceSink: SymbolSink<U16>,
                     ghost c: Config, ghost s0: Splitter, ghost types0: seq<Byte>, ghost lengths0: seq<nat>)
    requires k <= 32 && mask + 1 == Pow2(k)
    requires mask < |data| && numCommands <= |cmds| && ContextsOk(staticContextMap, numContexts)
    requires commandSink != distanceSink && !commandSink.finished && !distanceSink.finished
    requires commandSink.symbols == [] && distanceSink.symbols == []
    requires ctx.Cfg() == c && c.numContexts == numContexts
    requires c.numSymbols == BlockSplitter.InsertTotal(cmds[..numCommands])
    requires ctx.Snap() == s0 && Started(c, s0, types0, lengths0) && s0.symbolsAdded == 0
    modifies ctx, ctx.split, commandSink, distanceSink
    ensures !commandSink.finished && !distanceSink.finished
    ensures commandSink.symbols == CommandCodes(cmds[..numCommands])
    ensures distanceSink.symbols == BlockSplitter.DistanceCodes(cmds[..numCommands])
    ensures ctx.Cfg() == c && Ready(c, ctx.Snap())
    ensures ctx.Snap() == Feed(c, s0, LiteralPairs(cmds[..numCommands], data, mask + 1, pos, History(prevByte, prevByte2),
                                                   contextOf, staticContextMap, numContexts))
  {
    ghost var h0 := History(prevByte, prevByte2);
    var p := pos;
    var prev1, prev2 := prevByte, prevByte2;
    var i := 0;
    while i < numCommands
      invariant i <= numCommands
      invariant !commandSink.finished && !distanceSink.finished
      invariant p == pos + BlockSplitter.Advance(cmds[..i])
      invariant History(prev1, prev2) == HistoryAfter(cmds[..i], data, mask + 1, pos, h0)
      invariant commandSink.symbols == CommandCodes(cmds[..i])
      invariant distanceSink.symbols == BlockSplitter.DistanceCodes(cmds[..i])
      invariant ctx.Cfg() == c
      invariant ctx.Snap() == Feed(c, s0, LiteralPairs(cmds[..i], data, mask + 1, pos, h0, contextOf, staticContextMap, numContexts))
    {
      InsertTotalStep(cmds, i, numCommands);
      ghost var done := LiteralPairs(cmds[..i], data, mask + 1, pos, h0, contextOf, staticContextMap, numContexts);
      LiteralPairsStep(cmds, i, data, mask + 1, pos, h0, contextOf, staticContextMap, numContexts, p, History(prev1, prev2));
      p, prev1, prev2 := ContextCommand(data, mask, pos, h0, cmds, i, p, prev1, prev2, contextOf, staticContextMap,
                                        ctx, c, s0, types0, lengths0, done, commandSink, distanceSink);
      i := i + 1;
    }
    assert cmds[..numCommands] == cmds[..i];
    InitReady(c, types0, lengths0, NoEntropy());
    FeedKeeps(c, s0, LiteralPairs(cmds[..numCommands], data, mask + 1, pos, h0, contextOf, staticContextMap, numContexts));
  }

  /** The literal side of BrotliBuildMetaBlockGreedyInternal with several
      contexts: the context splitter is initialised on the literal split of
      `mb`, fed the literals of the commands with their static contexts (the
      command and distance codes go to their sinks in the same pass) and
      finished; its histograms become the literal histograms of `mb`. */
  method ContextLiterals(data: seq<Byte>, pos: nat, mask: nat, ghost k: nat, prevByte: Byte, prevByte2: Byte,
                         contextOf: (Byte, Byte) -> LiteralContext, numContexts: nat, staticContextMap: seq<U32>,
                         cmds: seq<Command>, numCommands: nat, numLiterals: nat, mb: MetaBlockSplit,
                         bitsEntropy: seq<nat> -> real, commandSink: SymbolSink<U16>, distanceSink: SymbolSink<U16>)
    returns (ghost types0: seq<Byte>, ghost lengths0: seq<nat>)
    requires k <= 32 && mask + 1 == Pow2(k)
    requires mask < |data| && numCommands <= |cmds| && numLiterals == BlockSplitter.InsertTotal(cmds[..numCommands])
    requires 1 < numContexts <= MaxStaticContexts && ContextsOk(staticContextMap, numContexts)
    requires mb.Valid() && mb.literalSplit.Valid() && mb.literalSplit.numTypes == 0
    requires commandSink != distanceSink && !commandSink.finished && !distanceSink.finished
    requires commandSink.symbols == [] && distanceSink.symbols == []
    modifies mb, mb.literalSplit, commandSink, distanceSink
    ensures !commandSink.finished && commandSink.symbols == CommandCodes(cmds[..numCommands])
    ensures !distanceSink.finished && distanceSink.symbols == BlockSplitter.DistanceCodes(cmds[..numCommands])
    ensures var c := LiteralConfig(numContexts, numLiterals, bitsEntropy);
            && |types0| >= MaxNumBlocks(c) && |lengths0| >= MaxNumBlocks(c)
            && var r := GreedyLiteralSplit(cmds[..numCommands], data, mask + 1, pos, History(prevByte, prevByte2),
                                           contextOf, numContexts, staticContextMap, bitsEntropy, types0, lengths0);
               && mb.Valid()
               && mb.literalSplit.numTypes == r.numTypes && mb.literalSplit.numBlocks == r.splitNumBlocks
               && mb.literalSplit.types == r.types && mb.literalSplit.lengths == r.lengths
               && mb.literalHistograms == r.histograms && mb.literalHistogramsSize == r.histogramsSize
  {
    ghost var c := LiteralConfig(numContexts, numLiterals, bitsEntropy);
    var ctx := new ContextBlockSplitter.Init(LiteralAlphabetSize, numContexts, LiteralMinBlockSize, LiteralSplitThreshold,
                                             numLiterals, mb.literalSplit, bitsEntropy);
    types0, lengths0 := mb.literalSplit.types, mb.literalSplit.lengths;
    ghost var s0 := ctx.Snap();
    WalkContext(data, pos, mask, k, prevByte, prevByte2, contextOf, numContexts, staticContextMap, cmds, numCommands,
                ctx, commandSink, distanceSink, c, s0, types0, lengths0);
    ctx.FinishBlock(true);
    mb.literalHistograms := ctx.histograms;
    mb.literalHistogramsSize := ctx.histogramsSize;
  }

  /** BrotliBuildMetaBlockGreedyInternal. The literals go to the plain
      literal splitter when there is one context and to the context literal
      splitter otherwise; the command codes and the explicit distance codes
      go to their plain splitters. With several contexts the literal split,
      the literal histograms and the literal context map of `mb` are those
      of the specification. The plain splitters are returned as sinks; the
      slices the context splitter's initialisation left are returned as
      `types0` and `lengths0`. */
  method BuildMetaBlockGreedy(data: seq<Byte>, pos: nat, mask: nat, ghost k: nat, prevByte: Byte, prevByte2: Byte,
                              contextOf: (Byte, Byte) -> LiteralContext, numContexts: nat, staticContextMap: seq<U32>,
                              cmds: seq<Command>, numCommands: nat, mb: MetaBlockSplit, bitsEntropy: seq<nat> -> real)
    returns (literalSink: SymbolSink<Byte>, commandSink: SymbolSink<U16>, distanceSink: SymbolSink<U16>,
             ghost types0: seq<Byte>, ghost lengths0: seq<nat>)
    requires k <= 32 && mask + 1 == Pow2(k) && mask < |data| && numCommands <= |cmds|
    requires 1 <= numContexts <= MaxStaticContexts
    requires numContexts > 1 ==> ContextsOk(staticContextMap, numContexts)
    requires mb.Valid() && mb.literalSplit.Valid() && mb.literalSplit.numTypes == 0
    modifies mb, mb.literalSplit
    ensures fresh(literalSink) && fresh(commandSink) && fresh(distanceSink)
    ensures commandSink.finished && commandSink.symbols == CommandCodes(cmds[..numCommands])
    ensures distanceSink.finished && distanceSink.symbols == BlockSplitter.DistanceCodes(cmds[..numCommands])
    ensures numContexts == 1 ==>
              literalSink.finished && literalSink.symbols == BlockSplitter.Literals(cmds[..numCommands], data, mask + 1, pos)
    ensures numContexts > 1 ==>
              var c := LiteralConfig(numContexts, BlockSplitter.InsertTotal(cmds[..numCommands]), bitsEntropy);
              && |types0| >= MaxNumBlocks(c) && |lengths0| >= MaxNumBlocks(c)
              && var r := GreedyLiteralSplit(cmds[..numCommands], data, mask + 1, pos, History(prevByte, prevByte2),
                                             contextOf, numContexts, staticContextMap, bitsEntropy, types0, lengths0);
                 && mb.Valid()
                 && mb.literalSplit.numTypes == r.numTypes && mb.literalSplit.numBlocks == r.splitNumBlocks
                 && mb.literalSplit.types == r.types && mb.literalSplit.lengths == r.lengths
                 && mb.literalHistograms == r.histograms && mb.literalHistogramsSize == r.histogramsSize
                 && mb.literalContextMap[..] == StaticContextMap(r.numTypes, numContexts, staticContextMap)
  {
    var numLiterals := BlockSplitter.CountLiterals(cmds, numCommands);
    types0, lengths0 := [], [];
    literalSink := new SymbolSink<Byte>();
    commandSink := new SymbolSink<U16>();
    distanceSink := new SymbolSink<U16>();
    if numContexts == 1 {
      WalkPlain(data, pos, mask, k, prevByte, prevByte2, cmds, numCommands, literalSink, commandSink, distanceSink);
      literalSink.FinishBlock();
    } else {
      types0, lengths0 := ContextLiterals(data, pos, mask, k, prevByte, prevByte2, contextOf, numContexts, staticContextMap,
                                         cmds, numCommands, numLiterals, mb, bitsEntropy, commandSink, distanceSink);
    }
    commandSink.FinishBlock();
    distanceSink.FinishBlock();
    if numContexts > 1 {
      mb.MapStaticContexts(numContexts, staticContextMap);
    }
  }
}
