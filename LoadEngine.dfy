/**
 * The Stockfish command multiplexer of lib/stockfish/load-engine.ts.
 *
 * UCI replies carry no request id, so every reply line is matched to a queued
 * command by its content: the first word of the line picks a category, and
 * the oldest queued command of that category receives it.  This module holds
 * the engine state as a value, the pure helpers of the source
 * (`getFirstWord`, `shouldIgnoreLine`, `determineQueueIndex`), one function
 * per state change (`send`, `processLine`, `stopMoves`, `quit`, and the run of
 * deferred timers), and the lemmas about them.  The class `Engine` in
 * EngineObject.dfy performs the same changes in place and is proved against
 * these functions.
 *
 * Callbacks are opaque code in the source; here each one is an id, and every
 * invocation is recorded in a log together with its argument.
 */
module LoadEngine {
  import opened JsText

  type CallbackId = nat

  /**
   * A queued command awaiting its reply (`EngineCommand`).  `message` is the
   * reply buffer; the empty string stands for the source's `undefined`, which
   * is sound because only non-empty lines are ever appended to it.
   */
  datatype Entry = Entry(cmd: string, cb: Option<CallbackId>, stream: Option<CallbackId>,
                         message: string, discard: bool)

  /** One invocation of a callback, with its argument. */
  datatype Call = Call(callback: CallbackId, argument: string)

  /**
   * Everything the engine object changes or makes observable:
   * the queue and the two flags, the lines posted to the worker (`outbox`),
   * the lines handed to the global `engine.stream` listener (`listened`),
   * the calls of per-command stream callbacks (`streamed`) and of completion
   * callbacks (`called`), the callbacks waiting in `setTimeout(.., 0)`
   * (`timers`), and whether the worker was terminated.
   */
  datatype EngineState = EngineState(
    queue: seq<Entry>,
    loaded: bool,
    ready: bool,
    outbox: seq<string>,
    listened: seq<string>,
    streamed: seq<Call>,
    called: seq<Call>,
    timers: seq<CallbackId>,
    terminated: bool)

  /** The state right after `loadStockfish` created the worker. */
  const Initial := EngineState([], false, false, [], [], [], [], [], false)

  // ---- pure helpers of the source -------------------------------------

  /** `getFirstWord`: the line up to its first space. */
  function FirstWord(line: string): (w: string)
    ensures ' ' !in w
    ensures |w| <= |line| && w == line[..|w|]
    ensures w == line || line[|w|] == ' '
  {
    var k := IndexOf(line, ' ');
    if k == -1 then line else line[..k]
  }

  /**
   * `shouldIgnoreLine`: banner, identification and option-warning noise.
   * Dropping it never loses a handshake, readiness or search reply.
   */
  predicate ShouldIgnoreLine(line: string): (r: bool)
    ensures r ==> Category(line) == "other"
  {
    NoiseIsOther(line);
    line == "" || StartsWith(line, "No such option") || StartsWith(line, "id ")
    || StartsWith(line, "Stockfish")
  }

  lemma NoiseIsOther(line: string)
    ensures (line == "" || StartsWith(line, "No such option") || StartsWith(line, "id ")
             || StartsWith(line, "Stockfish")) ==> Category(line) == "other"
  {
    var w := FirstWord(line);
    if w != "" {
      assert w[0] == line[0];
      if StartsWith(line, "id ") && |w| >= 2 {
        assert w[1] == line[1] == 'd';
      }
    }
  }

  /** The command word a reply line belongs to, from the line's first word. */
  function Category(line: string): string {
    var w := FirstWord(line);
    if w == "uciok" || w == "option" then "uci"
    else if w == "readyok" then "isready"
    else if w == "bestmove" || w == "info" then "go"
    else "other"
  }

  /** Whether a queued command may receive a reply of the given category. */
  predicate Serves(e: Entry, category: string) {
    var w := FirstWord(e.cmd);
    w == category || (category == "other" && (w == "d" || w == "eval"))
  }

  /** The position of the oldest entry that serves the category, or -1. */
  function FirstServing(queue: seq<Entry>, category: string): (r: int)
    ensures r == -1 <==> forall j :: 0 <= j < |queue| ==> !Serves(queue[j], category)
    ensures r != -1 ==> 0 <= r < |queue| && Serves(queue[r], category)
                        && forall j :: 0 <= j < r ==> !Serves(queue[j], category)
  {
    var serves := seq(|queue|, j requires 0 <= j < |queue| => Serves(queue[j], category));
    assert forall j :: 0 <= j < |queue| ==> serves[j] == Serves(queue[j], category);
    FirstTrueFrom(serves, 0)
  }

  /** The scan of `determineQueueIndex`'s loop from position `i` on, over the entries' verdicts. */
  function FirstTrueFrom(flags: seq<bool>, i: nat): (r: int)
    requires i <= |flags|
    decreases |flags| - i
    ensures r == -1 <==> forall j :: i <= j < |flags| ==> !flags[j]
    ensures r != -1 ==> i <= r < |flags| && flags[r] && forall j :: i <= j < r ==> !flags[j]
  {
    if i == |flags| then -1
    else if flags[i] then i
    else FirstTrueFrom(flags, i + 1)
  }

  /**
   * `determineQueueIndex`: the oldest queued command of the line's category
   * (first in, first served within a category); index 0 when none matches.
   */
  function DetermineQueueIndex(line: string, queue: seq<Entry>): (i: nat)
    ensures queue == [] ==> i == 0
    ensures queue != [] ==> i < |queue|
    ensures (exists j :: 0 <= j < |queue| && Serves(queue[j], Category(line))) ==>
              Serves(queue[i], Category(line))
              && forall j :: 0 <= j < i ==> !Serves(queue[j], Category(line))
    ensures (forall j :: 0 <= j < |queue| ==> !Serves(queue[j], Category(line))) ==> i == 0
  {
    if queue == [] then 0
    else
      var k := FirstServing(queue, Category(line));
      if k == -1 then 0 else k
  }

  /**
   * The commands that produce no reply and are therefore never queued.  None
   * of them is a command that a reply line could be routed to.
   */
  predicate IsNonReplying(cmd: string): (r: bool)
    ensures r ==> FirstWord(cmd) !in {"uci", "isready", "go", "d", "eval", "bench"}
  {
    NonReplyingIsNotServed(cmd);
    cmd in {"ucinewgame", "flip", "stop", "ponderhit"}
    || StartsWith(cmd, "position") || StartsWith(cmd, "setoption")
  }

  lemma NonReplyingIsNotServed(cmd: string)
    ensures (cmd in {"ucinewgame", "flip", "stop", "ponderhit"}
             || StartsWith(cmd, "position") || StartsWith(cmd, "setoption")) ==>
              FirstWord(cmd) !in {"uci", "isready", "go", "d", "eval", "bench"}
  {
    var w := FirstWord(cmd);
    if cmd == "ucinewgame" {
      assert |w| > 3;
    } else if cmd in {"flip", "stop", "ponderhit"} || StartsWith(cmd, "position") || StartsWith(cmd, "setoption") {
      NonReplyingInitial(cmd);
      assert w != "" ==> w[0] == cmd[0];
    }
  }

  lemma NonReplyingInitial(cmd: string)
    requires cmd in {"flip", "stop", "ponderhit"} || StartsWith(cmd, "position") || StartsWith(cmd, "setoption")
    ensures cmd != "" && cmd[0] in {'f', 's', 'p'}
  {
    if StartsWith(cmd, "position") {
      assert cmd[0] == cmd[..8][0];
    } else if StartsWith(cmd, "setoption") {
      assert cmd[0] == cmd[..9][0];
    }
  }

  /** Adding a line to a reply buffer: newline-separated, no leading newline. */
  function AppendLine(message: string, line: string): string {
    if message == "" then line else message + "\n" + line
  }

  /**
   * `/Total Evaluation[\s\S]+\n$/.test(message)`: the text "Total Evaluation",
   * at least one more character, and a newline that ends the message.
   */
  predicate EvalBlockComplete(message: string) {
    |message| >= 2 && message[|message| - 1] == '\n'
    && Contains(message[..|message| - 2], "Total Evaluation")
  }

  /** The new buffer of the routed entry and whether the line completes it. */
  datatype Step = Step(message: string, done: bool)

  /**
   * The terminal-line decision of `processLine` for an entry with command
   * `cmd`: a line that does not complete the entry is appended to its buffer.
   */
  function Advance(cmd: string, message: string, line: string): (r: Step)
    ensures !r.done ==> r.message == AppendLine(message, line)
    ensures !(StartsWith(line, "bestmove") && cmd != "bench") && !(cmd == "d" && line == "Key is") ==>
              r.message == AppendLine(message, line)
  {
    var m := AppendLine(message, line);
    if line == "uciok" then Step(m, true)
    else if line == "readyok" then Step(m, true)
    else if StartsWith(line, "bestmove") && cmd != "bench" then Step(line, true)
    else if cmd == "d" then
      if StartsWith(line, "Legal uci moves") || StartsWith(line, "Key is") then
        Step(if line == "Key is" && m != "" then m[..if |m| >= 7 then |m| - 7 else 0] else m, true)
      else Step(m, false)
    else if cmd == "eval" then Step(m, EvalBlockComplete(m))
    else if StartsWith(line, "pawn key") || StartsWith(line, "Nodes/second")
            || StartsWith(line, "Unknown command") then Step(m, true)
    else Step(m, false)
  }

  // ---- state changes --------------------------------------------------

  /** `send(command, cb, stream)` */
  function AfterSend(s: EngineState, command: string, cb: Option<CallbackId>,
                     stream: Option<CallbackId>): (r: EngineState)
    ensures |r.queue| == |s.queue| + if Trim(command) != "" && !IsNonReplying(Trim(command)) then 1 else 0
    ensures r.queue[..|s.queue|] == s.queue
    ensures r.called == s.called && r.streamed == s.streamed && r.listened == s.listened
    ensures r.loaded == s.loaded && r.ready == s.ready && r.terminated == s.terminated
  {
    var trimmed := Trim(command);
    if trimmed == "" then s
    else if IsNonReplying(trimmed) then
      s.(outbox := s.outbox + [trimmed],
         timers := if cb.Some? then s.timers + [cb.value] else s.timers)
    else
      s.(queue := s.queue + [Entry(trimmed, cb, stream, "", false)],
         outbox := s.outbox + [trimmed])
  }

  /**
   * The routed entry at `i` after a line that `step` describes: a completed
   * entry leaves the queue and its callback, unless discarded, is called with
   * the final buffer; an open entry keeps its place with the new buffer.
   */
  function Settle(s: EngineState, i: nat, step: Step): (r: EngineState)
    requires i < |s.queue|
    ensures |r.queue| == |s.queue| - if step.done then 1 else 0
    ensures s.called <= r.called && |r.called| <= |s.called| + 1
    ensures r.listened == s.listened && r.outbox == s.outbox && r.timers == s.timers && r.terminated == s.terminated
  {
    var e := s.queue[i];
    if step.done then
      s.(queue := s.queue[..i] + s.queue[i + 1..],
         called := if e.cb.Some? && !e.discard then s.called + [Call(e.cb.value, step.message)]
                   else s.called)
    else
      s.(queue := s.queue[i := e.(message := step.message)])
  }

  /**
   * A routed line reaches the global listener and the chosen entry's stream
   * callback, and `uciok`/`readyok` set the `loaded`/`ready` flags.
   */
  function Heard(s: EngineState, i: nat, line: string): (r: EngineState)
    requires i < |s.queue|
    ensures r.queue == s.queue && r.called == s.called && r.listened == s.listened + [line]
    ensures r.outbox == s.outbox && r.timers == s.timers && r.terminated == s.terminated
  {
    var e := s.queue[i];
    s.(listened := s.listened + [line],
       streamed := if e.stream.Some? then s.streamed + [Call(e.stream.value, line)] else s.streamed,
       loaded := s.loaded || line == "uciok",
       ready := s.ready || line == "readyok")
  }

  /** `processLine` on a line without a newline. */
  function AfterLine(s: EngineState, line: string): (r: EngineState)
    requires '\n' !in line
    ensures |s.queue| - 1 <= |r.queue| <= |s.queue|
    ensures r.listened == if line == "" then s.listened else s.listened + [line]
    ensures s.called <= r.called && |r.called| <= |s.called| + 1
    ensures r.outbox == s.outbox && r.timers == s.timers && r.terminated == s.terminated
  {
    if line == "" then s
    else if s.queue == [] || ShouldIgnoreLine(line) then s.(listened := s.listened + [line])
    else
      var i := DetermineQueueIndex(line, s.queue);
      var e := s.queue[i];
      Settle(Heard(s, i, line), i, Advance(e.cmd, e.message, line))
  }

  /** Lines without newlines handled one after the other, in order. */
  function AfterLines(s: EngineState, lines: seq<string>): (r: EngineState)
    requires forall l <- lines :: '\n' !in l
    ensures |r.queue| <= |s.queue| && s.called <= r.called
    ensures r.outbox == s.outbox && r.timers == s.timers && r.terminated == s.terminated
  {
    if lines == [] then s else AfterLine(AfterLines(s, lines[..|lines| - 1]), lines[|lines| - 1])
  }

  /** `processLine` on what the worker delivered: a multi-line chunk is split on newlines. */
  function AfterChunk(s: EngineState, chunk: string): (r: EngineState)
    ensures |r.queue| <= |s.queue| && s.called <= r.called
    ensures r.outbox == s.outbox && r.timers == s.timers && r.terminated == s.terminated
  {
    if chunk == "" then s
    else if '\n' in chunk then AfterLines(s, Split(chunk, '\n'))
    else AfterLine(s, chunk)
  }

  /** Several deliveries, one after the other. */
  function AfterChunks(s: EngineState, chunks: seq<string>): EngineState {
    if chunks == [] then s else AfterChunk(AfterChunks(s, chunks[..|chunks| - 1]), chunks[|chunks| - 1])
  }

  /** A `go` command that has not been cancelled yet. */
  predicate IsOpenSearch(e: Entry) {
    FirstWord(e.cmd) == "go" && !e.discard
  }

  function Cancelled(e: Entry): Entry {
    if IsOpenSearch(e) then e.(discard := true) else e
  }

  /** The queue after `stopMoves` marked every open search discarded. */
  function CancelSearches(queue: seq<Entry>): (r: seq<Entry>)
    ensures |r| == |queue|
    ensures forall j :: 0 <= j < |queue| ==> r[j] == Cancelled(queue[j])
  {
    if queue == [] then [] else CancelSearches(queue[..|queue| - 1]) + [Cancelled(queue[|queue| - 1])]
  }

  /** The number of open searches in a queue. */
  function OpenSearches(queue: seq<Entry>): nat {
    if queue == [] then 0
    else OpenSearches(queue[..|queue| - 1]) + if IsOpenSearch(queue[|queue| - 1]) then 1 else 0
  }

  function Repeat(line: string, n: nat): (r: seq<string>)
    ensures |r| == n && forall j :: 0 <= j < n ==> r[j] == line
  {
    if n == 0 then [] else Repeat(line, n - 1) + [line]
  }

  /** `stopMoves`: one `stop` per open search, each of which becomes discarded. */
  function AfterStopMoves(s: EngineState): (r: EngineState)
    ensures |r.queue| == |s.queue| && r.called == s.called && r.timers == s.timers
    ensures forall j :: 0 <= j < |s.queue| ==>
              r.queue[j] == s.queue[j].(discard := r.queue[j].discard) && (s.queue[j].discard ==> r.queue[j].discard)
    ensures |r.outbox| == |s.outbox| + OpenSearches(s.queue) && s.outbox <= r.outbox
  {
    s.(queue := CancelSearches(s.queue), outbox := s.outbox + Repeat("stop", OpenSearches(s.queue)))
  }

  /** `quit`: the queue is emptied, without calling anything, and the worker terminated. */
  function AfterQuit(s: EngineState): (r: EngineState)
    ensures r.queue == [] && r.terminated
    ensures r.called == s.called && r.outbox == s.outbox && r.timers == s.timers
  {
    s.(queue := [], terminated := true)
  }

  function TimerCalls(timers: seq<CallbackId>): (r: seq<Call>)
    ensures |r| == |timers| && forall j :: 0 <= j < |timers| ==> r[j] == Call(timers[j], "")
  {
    if timers == [] then [] else TimerCalls(timers[..|timers| - 1]) + [Call(timers[|timers| - 1], "")]
  }

  /** The event loop runs the deferred `cb('')` of non-replying commands, oldest first. */
  function AfterTimers(s: EngineState): (r: EngineState)
    ensures r.timers == [] && r.queue == s.queue && r.outbox == s.outbox
    ensures |r.called| == |s.called| + |s.timers| && s.called <= r.called
    ensures forall j :: 0 <= j < |s.timers| ==> r.called[|s.called| + j] == Call(s.timers[j], "")
  {
    s.(called := s.called + TimerCalls(s.timers), timers := [])
  }
}
