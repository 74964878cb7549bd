/**
 * Properties of the command multiplexer of lib/stockfish/load-engine.ts,
 * stated over the state-change functions of module LoadEngine.
 */
module EngineLemmas {
  import opened JsText
  import opened LoadEngine

  // ---- send -------------------------------------------------------------

  /** A command made only of spaces changes nothing: no queue entry, no write, no callback. */
  lemma BlankSendIsNoop(s: EngineState, command: string, cb: Option<CallbackId>, stream: Option<CallbackId>)
    requires forall k :: 0 <= k < |command| ==> IsJsSpace(command[k])
    ensures AfterSend(s, command, cb, stream) == s
  {
    TrimEmpty(command);
  }

  /**
   * A non-blank command is written to the worker once, trimmed.  A reply-expecting
   * one is appended at the tail of the queue (which grows by exactly one); a
   * non-replying one never enters the queue and its callback is deferred, not called.
   */
  lemma SendRouting(s: EngineState, command: string, cb: Option<CallbackId>, stream: Option<CallbackId>)
    requires Trim(command) != ""
    ensures var t := AfterSend(s, command, cb, stream);
            && t.outbox == s.outbox + [Trim(command)]
            && t.called == s.called && t.listened == s.listened && t.streamed == s.streamed
            && t.loaded == s.loaded && t.ready == s.ready && t.terminated == s.terminated
            && (IsNonReplying(Trim(command)) ==>
                  t.queue == s.queue
                  && t.timers == s.timers + (if cb.Some? then [cb.value] else []))
            && (!IsNonReplying(Trim(command)) ==>
                  t.queue == s.queue + [Entry(Trim(command), cb, stream, "", false)]
                  && |t.queue| == |s.queue| + 1 && t.timers == s.timers)
  {
  }

  /** The deferred callback of a non-replying command runs once, with the empty string, when the timers run. */
  lemma NonReplyingCallbackGetsEmptyString(s: EngineState, command: string, id: CallbackId, stream: Option<CallbackId>)
    requires Trim(command) != "" && IsNonReplying(Trim(command))
    ensures AfterSend(s, command, Some(id), stream).called == s.called
    ensures AfterTimers(AfterSend(s, command, Some(id), stream)).called
            == s.called + TimerCalls(s.timers) + [Call(id, "")]
    ensures AfterTimers(AfterSend(s, command, Some(id), stream)).queue == s.queue
  {
    var ts := s.timers + [id];
    assert ts[..|ts| - 1] == s.timers;
  }

  // ---- processLine --------------------------------------------------------

  /** With an empty queue, or on a noise line, only the global listener sees the line. */
  lemma UnroutedLineOnlyHeard(s: EngineState, line: string)
    requires '\n' !in line && line != ""
    requires s.queue == [] || ShouldIgnoreLine(line)
    ensures AfterLine(s, line) == s.(listened := s.listened + [line])
  {
  }

  /** An empty delivery, or an empty piece of a delivery, is skipped altogether. */
  lemma EmptyLineSkipped(s: EngineState)
    ensures AfterChunk(s, "") == s && AfterLine(s, "") == s
  {
  }

  lemma {:induction false} PiecesAreSingleLines(s: EngineState, pieces: seq<string>)
    requires forall p <- pieces :: '\n' !in p
    ensures AfterChunks(s, pieces) == AfterLines(s, pieces)
  {
    if pieces != [] {
      var init := pieces[..|pieces| - 1];
      assert forall p <- init :: p in pieces;
      PiecesAreSingleLines(s, init);
      assert pieces[|pieces| - 1] in pieces;
    }
  }

  /**
   * A delivery holding several newline-separated lines is processed exactly
   * as the separate deliveries of its pieces would be, one at a time, in order.
   */
  lemma MultiLineDelivery(s: EngineState, pieces: seq<string>)
    requires forall p <- pieces :: '\n' !in p
    ensures AfterChunk(s, Join(pieces, '\n')) == AfterChunks(s, pieces)
  {
    PiecesAreSingleLines(s, pieces);
    JoinHasNoSeparator(pieces, '\n');
    if |pieces| >= 2 {
      SplitJoin(pieces, '\n');
    } else if |pieces| == 1 {
      assert AfterLines(s, pieces) == AfterLine(s, pieces[0]);
    }
  }

  /** The reply buffer a sequence of lines builds up. */
  function Accumulated(lines: seq<string>): string {
    if lines == [] then "" else AppendLine(Accumulated(lines[..|lines| - 1]), lines[|lines| - 1])
  }

  lemma {:induction false} JoinSnoc(lines: seq<string>, line: string)
    requires lines != []
    ensures Join(lines + [line], '\n') == Join(lines, '\n') + "\n" + line
  {
    if |lines| > 1 {
      JoinSnoc(lines[1..], line);
      assert (lines + [line])[1..] == lines[1..] + [line];
    }
  }

  /** The buffer of an entry is the newline-join of the (non-empty) lines routed to it. */
  lemma {:induction false} BufferIsJoin(lines: seq<string>)
    requires forall l <- lines :: l != ""
    ensures Accumulated(lines) == Join(lines, '\n')
  {
    if lines != [] {
      var init := lines[..|lines| - 1];
      assert forall l <- init :: l in lines;
      BufferIsJoin(init);
      if init != [] {
        JoinSnoc(init, lines[|lines| - 1]);
        assert init[0] in lines;
        assert Join(init, '\n') != "" by {
          if |init| == 1 { } else { assert Join(init, '\n')[|init[0]|] == '\n'; }
        }
      }
      assert lines == init + [lines[|lines| - 1]];
    }
  }

  /** A `bestmove` line completes any entry but a `bench`, whose result becomes that line alone. */
  lemma BestmoveResetsBuffer(cmd: string, message: string, line: string)
    requires StartsWith(line, "bestmove") && cmd != "bench"
    ensures Advance(cmd, message, line) == Step(line, true)
  {
    assert line[..8] == "bestmove";
    assert line != "uciok" && line != "readyok";
  }

  /**
   * Which lines complete an entry: `uciok` and `readyok` complete any entry,
   * `bestmove` any but a `bench`; `Legal uci moves` and `Key is` complete
   * only a `d`, the evaluation block only an `eval`, and `pawn key`,
   * `Nodes/second` and `Unknown command` only the other commands.
   */
  lemma AdvanceDone(cmd: string, message: string, line: string)
    ensures Advance(cmd, message, line).done
            <==> || line == "uciok" || line == "readyok"
                 || (StartsWith(line, "bestmove") && cmd != "bench")
                 || (cmd == "d" && (StartsWith(line, "Legal uci moves") || StartsWith(line, "Key is")))
                 || (cmd == "eval" && EvalBlockComplete(AppendLine(message, line)))
                 || (cmd != "d" && cmd != "eval"
                     && (StartsWith(line, "pawn key") || StartsWith(line, "Nodes/second")
                         || StartsWith(line, "Unknown command")))
  {
    if cmd == "bench" && StartsWith(line, "bestmove") {
      assert line[0] == 'b';
      assert !StartsWith(line, "pawn key") && !StartsWith(line, "Nodes/second") && !StartsWith(line, "Unknown command") by {
        if |line| >= 8 { assert line[..8][0] == 'b'; }
      }
    }
  }

  /** The `Key is` terminator of a `d` dump is cut off again: the result is the buffer before it. */
  lemma KeyIsTerminatorCutOff(message: string)
    ensures Advance("d", message, "Key is") == Step(message, true)
  {
    var m := AppendLine(message, "Key is");
    if message != "" {
      assert m[..|m| - 7] == message;
    }
  }

  /** A buffer never ends in a newline, so the `Total Evaluation` pattern never closes an `eval` entry. */
  lemma EvalNeverClosedByPattern(message: string, line: string)
    requires line != "" && '\n' !in line
    ensures !EvalBlockComplete(AppendLine(message, line))
    ensures Advance("eval", message, line).done
            <==> line == "uciok" || line == "readyok" || StartsWith(line, "bestmove")
  {
    var m := AppendLine(message, line);
    assert m[|m| - 1] == line[|line| - 1];
    assert line[|line| - 1] in line;
  }

  /**
   * On a routed line: the entry chosen is the oldest of the line's category.
   * If the line is terminal exactly that entry leaves the queue, the others
   * keep their order, and the entry's callback is called with its buffer
   * unless the entry was discarded; otherwise the queue keeps its length and
   * only the chosen entry's buffer changes.  `uciok` sets `loaded`, `readyok`
   * sets `ready`.
   */
  lemma RoutedLine(s: EngineState, line: string)
    requires '\n' !in line && line != "" && s.queue != [] && !ShouldIgnoreLine(line)
    ensures var i := DetermineQueueIndex(line, s.queue);
            var e := s.queue[i];
            var step := Advance(e.cmd, e.message, line);
            var t := AfterLine(s, line);
            && t.listened == s.listened + [line]
            && t.streamed == s.streamed + (if e.stream.Some? then [Call(e.stream.value, line)] else [])
            && t.loaded == (s.loaded || line == "uciok") && t.ready == (s.ready || line == "readyok")
            && t.outbox == s.outbox && t.timers == s.timers
            && (step.done ==>
                  t.queue == s.queue[..i] + s.queue[i + 1..] && |t.queue| == |s.queue| - 1
                  && t.called == s.called + (if e.cb.Some? && !e.discard then [Call(e.cb.value, step.message)] else []))
            && (!step.done ==>
                  |t.queue| == |s.queue| && t.called == s.called
                  && t.queue[i].message == AppendLine(e.message, line)
                  && forall j :: 0 <= j < |s.queue| && j != i ==> t.queue[j] == s.queue[j])
  {
    var i := DetermineQueueIndex(line, s.queue);
    var e := s.queue[i];
    SettleEffect(Heard(s, i, line), i, Advance(e.cmd, e.message, line));
  }

  lemma SettleEffect(s: EngineState, i: nat, step: Step)
    requires i < |s.queue|
    ensures var t := Settle(s, i, step);
            var e := s.queue[i];
            && t.listened == s.listened && t.streamed == s.streamed
            && t.loaded == s.loaded && t.ready == s.ready
            && t.outbox == s.outbox && t.timers == s.timers
            && (step.done ==>
                  t.queue == s.queue[..i] + s.queue[i + 1..] && |t.queue| == |s.queue| - 1
                  && t.called == s.called + (if e.cb.Some? && !e.discard then [Call(e.cb.value, step.message)] else []))
            && (!step.done ==>
                  |t.queue| == |s.queue| && t.called == s.called && t.queue[i].message == step.message
                  && forall j :: 0 <= j < |s.queue| && j != i ==> t.queue[j] == s.queue[j])
  {
  }

  /** Processing a line with an empty queue is harmless: no entry, no callback, only the listener. */
  lemma LineOnEmptyQueue(s: EngineState, chunk: string)
    requires s.queue == []
    ensures var t := AfterChunk(s, chunk);
            t.queue == [] && t.called == s.called && t.streamed == s.streamed && t.outbox == s.outbox
  {
    if chunk != "" && '\n' in chunk {
      EmptyQueueLines(s, Split(chunk, '\n'));
    }
  }

  lemma {:induction false} EmptyQueueLines(s: EngineState, lines: seq<string>)
    requires s.queue == []
    requires forall l <- lines :: '\n' !in l
    ensures var t := AfterLines(s, lines);
            t.queue == [] && t.called == s.called && t.streamed == s.streamed && t.outbox == s.outbox
  {
    if lines != [] {
      var init := lines[..|lines| - 1];
      assert forall l <- init :: l in lines;
      EmptyQueueLines(s, init);
    }
  }

  // ---- stopMoves and quit ---------------------------------------------------

  lemma {:induction false} NoOpenSearchAfterCancel(queue: seq<Entry>)
    ensures OpenSearches(CancelSearches(queue)) == 0
  {
    if queue != [] {
      var init := queue[..|queue| - 1];
      var c := CancelSearches(queue);
      NoOpenSearchAfterCancel(init);
      assert c[..|c| - 1] == CancelSearches(init);
      assert !IsOpenSearch(c[|c| - 1]);
    }
  }

  lemma CancelSearchesIdempotent(queue: seq<Entry>)
    ensures CancelSearches(CancelSearches(queue)) == CancelSearches(queue)
  {
    var c := CancelSearches(queue);
    assert forall j :: 0 <= j < |c| ==> Cancelled(c[j]) == c[j];
  }

  /**
   * `stopMoves` keeps the queue's length and every entry but the `discard`
   * flag of open searches; it writes one `stop` per open search and calls
   * nothing.
   */
  lemma StopMovesEffect(s: EngineState)
    ensures var t := AfterStopMoves(s);
            && |t.queue| == |s.queue|
            && (forall j :: 0 <= j < |s.queue| ==>
                  t.queue[j] == s.queue[j].(discard := s.queue[j].discard || FirstWord(s.queue[j].cmd) == "go"))
            && t.outbox == s.outbox + Repeat("stop", OpenSearches(s.queue))
            && t.called == s.called && t.timers == s.timers
  {
  }

  /** A second `stopMoves` finds no open search: it writes nothing and changes nothing. */
  lemma StopMovesIdempotent(s: EngineState)
    ensures AfterStopMoves(AfterStopMoves(s)) == AfterStopMoves(s)
  {
    var t := AfterStopMoves(s);
    NoOpenSearchAfterCancel(s.queue);
    CancelSearchesIdempotent(s.queue);
    assert Repeat("stop", 0) == [];
    assert t.outbox + [] == t.outbox;
  }

  /** A line routed to a discarded entry reaches no completion callback. */
  lemma DiscardedEntryIsSilent(s: EngineState, line: string)
    requires '\n' !in line && s.queue != []
    requires s.queue[DetermineQueueIndex(line, s.queue)].discard
    ensures AfterLine(s, line).called == s.called
  {
    if line != "" && !ShouldIgnoreLine(line) {
      var i := DetermineQueueIndex(line, s.queue);
      var e := s.queue[i];
      var s1 := Heard(s, i, line);
      var step := Advance(e.cmd, e.message, line);
      SettleDiscardedIsSilent(s1, i, step);
    }
  }

  lemma SettleDiscardedIsSilent(s: EngineState, i: nat, step: Step)
    requires i < |s.queue| && s.queue[i].discard
    ensures Settle(s, i, step).called == s.called
  {
  }

  /**
   * The line is consumed without a call: exactly the entry it is routed to
   * leaves the queue, the others keep their order, and no callback is called.
   */
  predicate ConsumedSilently(t: EngineState, line: string)
    requires '\n' !in line && t.queue != []
  {
    var i := DetermineQueueIndex(line, t.queue);
    var u := AfterLine(t, line);
    u.called == t.called && u.queue == t.queue[..i] + t.queue[i + 1..] && |u.queue| == |t.queue| - 1
  }

  /**
   * A cancelled search still consumes its `bestmove`: exactly its entry
   * leaves the queue, the others keep their order, and no callback is called.
   */
  lemma CancelledSearchIsSilent(s: EngineState, line: string)
    requires '\n' !in line && StartsWith(line, "bestmove")
    requires var q := AfterStopMoves(s).queue;
             q != [] && FirstWord(q[DetermineQueueIndex(line, q)].cmd) == "go"
    ensures ConsumedSilently(AfterStopMoves(s), line)
  {
    var t := AfterStopMoves(s);
    var i := DetermineQueueIndex(line, t.queue);
    SearchesDiscardedAfterStop(s, i);
    DiscardedSearchConsumesBestmove(t, line);
  }

  lemma SearchesDiscardedAfterStop(s: EngineState, i: nat)
    requires i < |AfterStopMoves(s).queue|
    ensures FirstWord(AfterStopMoves(s).queue[i].cmd) == "go" ==> AfterStopMoves(s).queue[i].discard
  {
    assert AfterStopMoves(s).queue[i] == Cancelled(s.queue[i]);
  }

  lemma DiscardedSearchConsumesBestmove(t: EngineState, line: string)
    requires '\n' !in line && StartsWith(line, "bestmove") && t.queue != []
    requires var e := t.queue[DetermineQueueIndex(line, t.queue)];
             e.discard && FirstWord(e.cmd) == "go"
    ensures ConsumedSilently(t, line)
  {
    var i := DetermineQueueIndex(line, t.queue);
    var e := t.queue[i];
    BestmoveIsRouted(line);
    GoIsNotBench(e.cmd);
    BestmoveResetsBuffer(e.cmd, e.message, line);
    var h := Heard(t, i, line);
    assert AfterLine(t, line) == Settle(h, i, Step(line, true));
    SettleDiscardedIsSilent(h, i, Step(line, true));
  }

  lemma BestmoveIsRouted(line: string)
    requires StartsWith(line, "bestmove")
    ensures line != "" && !ShouldIgnoreLine(line)
  {
    assert line[0] == line[..8][0];
  }

  lemma GoIsNotBench(cmd: string)
    requires FirstWord(cmd) == "go"
    ensures cmd != "bench"
  {
    var w := FirstWord(cmd);
    assert w[0] == cmd[0];
  }

  /** `quit` empties the queue, terminates the worker and calls no callback. */
  lemma QuitEmptiesQueue(s: EngineState)
    ensures AfterQuit(s).queue == [] && AfterQuit(s).terminated
    ensures AfterQuit(s).called == s.called && AfterQuit(s).outbox == s.outbox
  {
  }

  // ---- every completion callback is called at most once ---------------------

  function CallbackOf(e: Entry): multiset<CallbackId> {
    if e.cb.Some? then multiset{e.cb.value} else multiset{}
  }

  /** The callbacks still owed by queued entries. */
  function QueuedCallbacks(queue: seq<Entry>): multiset<CallbackId> {
    if queue == [] then multiset{}
    else QueuedCallbacks(queue[..|queue| - 1]) + CallbackOf(queue[|queue| - 1])
  }

  function CalledIds(calls: seq<Call>): multiset<CallbackId> {
    if calls == [] then multiset{}
    else CalledIds(calls[..|calls| - 1]) + multiset{calls[|calls| - 1].callback}
  }

  /** Callbacks queued, waiting in a timer, or already called. */
  function Owed(s: EngineState): multiset<CallbackId> {
    QueuedCallbacks(s.queue) + multiset(s.timers) + CalledIds(s.called)
  }

  lemma {:induction false} QueuedCallbacksConcat(a: seq<Entry>, b: seq<Entry>)
    ensures QueuedCallbacks(a + b) == QueuedCallbacks(a) + QueuedCallbacks(b)
  {
    if b != [] {
      QueuedCallbacksConcat(a, b[..|b| - 1]);
      assert (a + b)[..|a + b| - 1] == a + b[..|b| - 1];
    } else {
      assert a + b == a;
    }
  }

  lemma {:induction false} CalledIdsConcat(a: seq<Call>, b: seq<Call>)
    ensures CalledIds(a + b) == CalledIds(a) + CalledIds(b)
  {
    if b != [] {
      CalledIdsConcat(a, b[..|b| - 1]);
      assert (a + b)[..|a + b| - 1] == a + b[..|b| - 1];
    } else {
      assert a + b == a;
    }
  }

  lemma {:induction false} TimerCallsIds(timers: seq<CallbackId>)
    ensures CalledIds(TimerCalls(timers)) == multiset(timers)
  {
    if timers != [] {
      var init := timers[..|timers| - 1];
      TimerCallsIds(init);
      assert TimerCalls(timers)[..|timers| - 1] == TimerCalls(init);
      assert timers == init + [timers[|timers| - 1]];
    }
  }

  lemma QueuedCallbacksSplit(queue: seq<Entry>, i: nat)
    requires i < |queue|
    ensures QueuedCallbacks(queue)
            == QueuedCallbacks(queue[..i]) + CallbackOf(queue[i]) + QueuedCallbacks(queue[i + 1..])
  {
    var front, back := queue[..i], queue[i + 1..];
    var one := [queue[i]];
    assert front + one == queue[..i + 1];
    assert queue[..i + 1] + back == queue;
    QueuedCallbacksConcat(front + one, back);
    QueuedCallbacksConcat(front, one);
    assert QueuedCallbacks(one) == CallbackOf(queue[i]) by {
      assert one[..0] == [];
    }
  }

  lemma {:induction false} CancelKeepsCallbacks(queue: seq<Entry>)
    ensures QueuedCallbacks(CancelSearches(queue)) == QueuedCallbacks(queue)
  {
    if queue != [] {
      CancelKeepsCallbacks(queue[..|queue| - 1]);
      assert CancelSearches(queue)[..|queue| - 1] == CancelSearches(queue[..|queue| - 1]);
    }
  }

  /** Settling the routed entry only moves its callback from the queue to the call log. */
  lemma SettleKeepsOwed(s: EngineState, i: nat, step: Step)
    requires i < |s.queue|
    ensures Owed(Settle(s, i, step)) <= Owed(s)
  {
    if step.done {
      CompletionKeepsOwed(s, i, step.message);
    } else {
      BufferingKeepsOwed(s, i, step.message);
    }
  }

  lemma CompletionKeepsOwed(s: EngineState, i: nat, message: string)
    requires i < |s.queue|
    ensures Owed(Settle(s, i, Step(message, true))) <= Owed(s)
  {
    var e := s.queue[i];
    QueuedCallbacksSplit(s.queue, i);
    QueuedCallbacksConcat(s.queue[..i], s.queue[i + 1..]);
    if e.cb.Some? && !e.discard {
      CalledIdsConcat(s.called, [Call(e.cb.value, message)]);
      assert CalledIds([Call(e.cb.value, message)]) == multiset{e.cb.value} by {
        assert [Call(e.cb.value, message)][..0] == [];
      }
    }
  }

  lemma BufferingKeepsOwed(s: EngineState, i: nat, message: string)
    requires i < |s.queue|
    ensures Owed(Settle(s, i, Step(message, false))) == Owed(s)
  {
    var e := s.queue[i];
    var q := s.queue[i := e.(message := message)];
    QueuedCallbacksSplit(s.queue, i);
    QueuedCallbacksSplit(q, i);
    assert q[..i] == s.queue[..i] && q[i + 1..] == s.queue[i + 1..];
  }

  /** Handling a line never calls a callback that was not owed. */
  lemma LineKeepsOwed(s: EngineState, line: string)
    requires '\n' !in line
    ensures Owed(AfterLine(s, line)) <= Owed(s)
  {
    if line != "" && s.queue != [] && !ShouldIgnoreLine(line) {
      var i := DetermineQueueIndex(line, s.queue);
      var e := s.queue[i];
      var s1 := Heard(s, i, line);
      SettleKeepsOwed(s1, i, Advance(e.cmd, e.message, line));
    }
  }

  lemma {:induction false} LinesKeepOwed(s: EngineState, lines: seq<string>)
    requires forall l <- lines :: '\n' !in l
    ensures Owed(AfterLines(s, lines)) <= Owed(s)
  {
    if lines != [] {
      var init := lines[..|lines| - 1];
      assert forall l <- init :: l in lines;
      LinesKeepOwed(s, init);
      assert lines[|lines| - 1] in lines;
      LineKeepsOwed(AfterLines(s, init), lines[|lines| - 1]);
    }
  }

  /** What a caller can do to the engine. */
  datatype Op =
    | SendOp(command: string, cb: Option<CallbackId>, stream: Option<CallbackId>)
    | DeliverOp(chunk: string)
    | StopMovesOp
    | QuitOp
    | TimersOp

  function Apply(s: EngineState, op: Op): EngineState {
    match op
    case SendOp(c, cb, st) => AfterSend(s, c, cb, st)
    case DeliverOp(chunk) => AfterChunk(s, chunk)
    case StopMovesOp => AfterStopMoves(s)
    case QuitOp => AfterQuit(s)
    case TimersOp => AfterTimers(s)
  }

  function Run(s: EngineState, ops: seq<Op>): EngineState {
    if ops == [] then s else Apply(Run(s, ops[..|ops| - 1]), ops[|ops| - 1])
  }

  /** The callbacks handed to `send` with a non-blank command. */
  function Registered(ops: seq<Op>): multiset<CallbackId> {
    if ops == [] then multiset{}
    else
      var op := ops[|ops| - 1];
      Registered(ops[..|ops| - 1])
      + if op.SendOp? && Trim(op.command) != "" && op.cb.Some? then multiset{op.cb.value} else multiset{}
  }

  lemma SendKeepsOwed(s: EngineState, c: string, cb: Option<CallbackId>, st: Option<CallbackId>)
    ensures Owed(AfterSend(s, c, cb, st)) <= Owed(s) + (if Trim(c) != "" && cb.Some? then multiset{cb.value} else multiset{})
  {
    var t := Trim(c);
    if t != "" && !IsNonReplying(t) {
      var e := Entry(t, cb, st, "", false);
      QueuedCallbacksConcat(s.queue, [e]);
      assert QueuedCallbacks([e]) == CallbackOf(e) by {
        assert [e][..0] == [];
      }
    }
  }

  lemma ChunkKeepsOwed(s: EngineState, chunk: string)
    ensures Owed(AfterChunk(s, chunk)) <= Owed(s)
  {
    if chunk != "" {
      if '\n' in chunk {
        LinesKeepOwed(s, Split(chunk, '\n'));
      } else {
        LineKeepsOwed(s, chunk);
      }
    }
  }

  lemma TimersKeepOwed(s: EngineState)
    ensures Owed(AfterTimers(s)) == Owed(s)
  {
    CalledIdsConcat(s.called, TimerCalls(s.timers));
    TimerCallsIds(s.timers);
  }

  lemma ApplyKeepsOwed(s: EngineState, op: Op)
    ensures Owed(Apply(s, op)) <= Owed(s) + Registered([op])
  {
    assert [op][..0] == [];
    match op
    case SendOp(c, cb, st) => SendKeepsOwed(s, c, cb, st);
    case DeliverOp(chunk) => ChunkKeepsOwed(s, chunk);
    case StopMovesOp => CancelKeepsCallbacks(s.queue);
    case QuitOp =>
    case TimersOp => TimersKeepOwed(s);
  }

  lemma {:induction false} RunKeepsOwed(s: EngineState, ops: seq<Op>)
    ensures Owed(Run(s, ops)) <= Owed(s) + Registered(ops)
  {
    if ops != [] {
      var init := ops[..|ops| - 1];
      RunKeepsOwed(s, init);
      ApplyKeepsOwed(Run(s, init), ops[|ops| - 1]);
      assert Registered([ops[|ops| - 1]]) == Registered(ops) - Registered(init) by {
        assert [ops[|ops| - 1]][..0] == [];
      }
    }
  }

  /**
   * Whatever lines the engine sends and whatever the callers do, a callback
   * handed to `send` once is called at most once: a completion is never
   * delivered twice, and a discarded or dropped entry is never called later.
   */
  lemma CallbackCalledAtMostOnce(ops: seq<Op>, id: CallbackId)
    requires Registered(ops)[id] <= 1
    ensures CalledIds(Run(Initial, ops).called)[id] <= 1
  {
    RunKeepsOwed(Initial, ops);
    var t := Run(Initial, ops);
    assert Owed(Initial) == multiset{};
    assert CalledIds(t.called)[id] <= Owed(t)[id];
  }
}
