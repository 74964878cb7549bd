/**
 * The engine object returned by `loadStockfish` (lib/stockfish/load-engine.ts),
 * with its queue and flags as fields that its methods update in place.  Each
 * method is proved to perform exactly the state change of the function of
 * module LoadEngine that specifies it, so every lemma of EngineLemmas holds of
 * the object as well.
 */
module EngineObject {
  import opened JsText
  import opened LoadEngine

  class Engine {
    var queue: seq<Entry>
    var loaded: bool
    var ready: bool
    var outbox: seq<string>
    var listened: seq<string>
    var streamed: seq<Call>
    var called: seq<Call>
    var timers: seq<CallbackId>
    var terminated: bool

    /** The object's observable state as a value. */
    function State(): EngineState
      reads this
    {
      EngineState(queue, loaded, ready, outbox, listened, streamed, called, timers, terminated)
    }

    /** `loadStockfish`: an idle worker with an empty queue. */
    constructor ()
      ensures State() == Initial
    {
      queue := [];
      loaded := false;
      ready := false;
      outbox := [];
      listened := [];
      streamed := [];
      called := [];
      timers := [];
      terminated := false;
    }

    /** `send(command, cb, stream)` */
    method Send(command: string, cb: Option<CallbackId>, stream: Option<CallbackId>)
      modifies this
      ensures State() == AfterSend(old(State()), command, cb, stream)
    {
      ghost var s := State();
      var trimmed := Trim(command);
      if trimmed == "" {
        return;
      }
      var noReply := false;
      if IsNonReplying(trimmed) {
        noReply := true;
      } else {
        queue := queue + [Entry(trimmed, cb, stream, "", false)];
      }
      outbox := outbox + [trimmed];
      if noReply && cb.Some? {
        timers := timers + [cb.value];
      }
      SendStep(s, command, cb, stream, State());
    }

    /** The state `send` reaches on a non-blank command, by its two branches. */
    static lemma SendStep(s: EngineState, command: string, cb: Option<CallbackId>,
                          stream: Option<CallbackId>, t: EngineState)
      requires Trim(command) != ""
      requires IsNonReplying(Trim(command)) ==>
                 t == s.(outbox := s.outbox + [Trim(command)],
                         timers := if cb.Some? then s.timers + [cb.value] else s.timers)
      requires !IsNonReplying(Trim(command)) ==>
                 t == s.(queue := s.queue + [Entry(Trim(command), cb, stream, "", false)],
                         outbox := s.outbox + [Trim(command)])
      ensures t == AfterSend(s, command, cb, stream)
    {
    }

    /** `processLine`: a delivery with newlines is handled piece by piece, in order. */
    method ProcessLine(line: string)
      modifies this
      decreases if '\n' in line then 1 else 0
      ensures State() == AfterChunk(old(State()), line)
    {
      if line == "" {
        return;
      }
      if '\n' in line {
        ghost var s0 := State();
        var pieces := Split(line, '\n');
        var i := 0;
        while i < |pieces|
          invariant 0 <= i <= |pieces|
          invariant State() == AfterLines(s0, pieces[..i])
        {
          ghost var before := State();
          ProcessLine(pieces[i]);
          PieceStep(s0, pieces, i, before, State());
          i := i + 1;
        }
        assert pieces[..i] == pieces;
        return;
      }
      HandleLine(line);
    }

    /** One turn of the split loop: handling the next piece extends the processed prefix by it. */
    static lemma PieceStep(s0: EngineState, pieces: seq<string>, i: nat, before: EngineState, after: EngineState)
      requires i < |pieces| && forall p <- pieces :: '\n' !in p
      requires before == AfterLines(s0, pieces[..i])
      requires after == AfterChunk(before, pieces[i])
      ensures after == AfterLines(s0, pieces[..i + 1])
    {
      assert pieces[i] in pieces;
      assert pieces[..i + 1][..i] == pieces[..i];
      assert pieces[..i + 1][i] == pieces[i];
    }

    /** `processLine` on one non-empty line: route it, then settle the chosen entry. */
    method HandleLine(line: string)
      requires line != "" && '\n' !in line
      modifies this
      ensures State() == AfterLine(old(State()), line)
    {
      listened := listened + [line];
      if queue == [] || ShouldIgnoreLine(line) {
        return;
      }
      var queueIndex := DetermineQueueIndex(line, queue);
      var current := queue[queueIndex];
      if current.stream.Some? {
        streamed := streamed + [Call(current.stream.value, line)];
      }
      var message, done := Conclude(current.cmd, current.message, line);
      SettleEntry(queueIndex, message, done);
    }

    /**
     * The end of `processLine`: a completed entry is spliced out of the queue
     * and its callback, unless discarded, receives the final buffer; an open
     * entry keeps its place with the new buffer.
     */
    method SettleEntry(queueIndex: nat, message: string, done: bool)
      requires queueIndex < |queue|
      modifies this
      ensures State() == Settle(old(State()), queueIndex, Step(message, done))
    {
      var current := queue[queueIndex];
      if done {
        queue := queue[..queueIndex] + queue[queueIndex + 1..];
        if current.cb.Some? && !current.discard {
          called := called + [Call(current.cb.value, message)];
        }
      } else {
        queue := queue[queueIndex := current.(message := message)];
      }
    }

    /**
     * The terminal-line tests of `processLine` for the routed entry: the new
     * buffer, whether the entry is complete, and the `loaded`/`ready` flags.
     */
    method Conclude(cmd: string, buffer: string, line: string) returns (message: string, done: bool)
      modifies this
      ensures Step(message, done) == Advance(cmd, buffer, line)
      ensures loaded == (old(loaded) || line == "uciok") && ready == (old(ready) || line == "readyok")
      ensures queue == old(queue) && outbox == old(outbox) && listened == old(listened)
      ensures streamed == old(streamed) && called == old(called) && timers == old(timers)
      ensures terminated == old(terminated)
    {
      message := AppendLine(buffer, line);
      done := false;
      if line == "uciok" {
        done := true;
        loaded := true;
      } else if line == "readyok" {
        done := true;
        ready := true;
      } else if StartsWith(line, "bestmove") && cmd != "bench" {
        done := true;
        message := line;
      } else if cmd == "d" {
        if StartsWith(line, "Legal uci moves") || StartsWith(line, "Key is") {
          done := true;
          if line == "Key is" && message != "" {
            message := message[..if |message| >= 7 then |message| - 7 else 0];
          }
        }
      } else if cmd == "eval" {
        if EvalBlockComplete(message) {
          done := true;
        }
      } else if StartsWith(line, "pawn key") || StartsWith(line, "Nodes/second")
                || StartsWith(line, "Unknown command") {
        done := true;
      }
    }

    /** `stopMoves`: every open search gets a `stop` and is marked discarded. */
    method StopMoves()
      modifies this
      ensures State() == AfterStopMoves(old(State()))
    {
      var i := 0;
      StopPrefixStart(State());
      while i < |queue|
        invariant 0 <= i <= |old(queue)| == |queue|
        invariant State() == StopPrefix(old(State()), i)
      {
        StopAt(old(State()), i);
        i := i + 1;
      }
      StopPrefixComplete(old(State()));
    }

    /** One turn of the loop of `stopMoves`, at index `i` of the queue `s0` it started from. */
    method StopAt(ghost s0: EngineState, i: nat)
      requires i < |s0.queue| && State() == StopPrefix(s0, i)
      modifies this
      ensures State() == StopPrefix(s0, i + 1)
    {
      ghost var visited := State();
      StopVisits(s0, i);
      if FirstWord(queue[i].cmd) == "go" && !queue[i].discard {
        StopIsNonReplying(visited);
        Send("stop", None, None);
        queue := queue[i := queue[i].(discard := true)];
        StopCancels(s0, i);
      } else {
        StopSkips(s0, i);
      }
    }

    /** `getQueueLength` */
    method GetQueueLength() returns (n: nat)
      ensures n == |queue|
    {
      n := |queue|;
    }

    /** `quit`: the queue is emptied and the worker terminated. */
    method Quit()
      modifies this
      ensures State() == AfterQuit(old(State()))
    {
      queue := [];
      terminated := true;
    }
  }

  /** The state after `stopMoves` has visited the first `i` entries. */
  function StopPrefix(s: EngineState, i: nat): EngineState
    requires i <= |s.queue|
  {
    s.(queue := CancelSearches(s.queue[..i]) + s.queue[i..],
       outbox := s.outbox + Repeat("stop", OpenSearches(s.queue[..i])))
  }

  lemma StopPrefixStart(s: EngineState)
    ensures StopPrefix(s, 0) == s
  {
    assert s.queue[..0] == [] && s.queue[0..] == s.queue;
  }

  lemma StopPrefixComplete(s: EngineState)
    ensures StopPrefix(s, |s.queue|) == AfterStopMoves(s)
  {
    assert s.queue[..|s.queue|] == s.queue && s.queue[|s.queue|..] == [];
  }

  lemma CancelPrefixStep(q: seq<Entry>, i: nat)
    requires i < |q|
    ensures CancelSearches(q[..i + 1]) == CancelSearches(q[..i]) + [Cancelled(q[i])]
    ensures OpenSearches(q[..i + 1]) == OpenSearches(q[..i]) + if IsOpenSearch(q[i]) then 1 else 0
  {
    assert q[..i + 1][..i] == q[..i];
  }

  lemma StopVisits(s: EngineState, i: nat)
    requires i < |s.queue|
    ensures |StopPrefix(s, i).queue| == |s.queue| && StopPrefix(s, i).queue[i] == s.queue[i]
  {
  }

  lemma StopCancels(s: EngineState, i: nat)
    requires i < |s.queue| && IsOpenSearch(s.queue[i])
    ensures var p := StopPrefix(s, i);
            StopPrefix(s, i + 1)
            == p.(queue := p.queue[i := p.queue[i].(discard := true)], outbox := p.outbox + ["stop"])
  {
    CancelStepQueue(s.queue, i);
    CancelStepOutbox(s.queue, i);
  }

  lemma StopSkips(s: EngineState, i: nat)
    requires i < |s.queue| && !IsOpenSearch(s.queue[i])
    ensures StopPrefix(s, i + 1) == StopPrefix(s, i)
  {
    CancelStepQueue(s.queue, i);
    CancelStepOutbox(s.queue, i);
  }

  lemma CancelStepQueue(q: seq<Entry>, i: nat)
    requires i < |q|
    ensures CancelSearches(q[..i + 1]) + q[i + 1..] == (CancelSearches(q[..i]) + q[i..])[i := Cancelled(q[i])]
  {
    CancelPrefixStep(q, i);
    assert q[i..] == [q[i]] + q[i + 1..];
  }

  lemma CancelStepOutbox(q: seq<Entry>, i: nat)
    requires i < |q|
    ensures Repeat("stop", OpenSearches(q[..i + 1]))
            == Repeat("stop", OpenSearches(q[..i])) + if IsOpenSearch(q[i]) then ["stop"] else []
  {
    CancelPrefixStep(q, i);
    var n := OpenSearches(q[..i]);
    assert Repeat("stop", n + 1) == Repeat("stop", n) + ["stop"];
  }

  /** The `stop` that `stopMoves` sends is written as is and expects no reply. */
  lemma StopIsNonReplying(s: EngineState)
    ensures AfterSend(s, "stop", None, None) == s.(outbox := s.outbox + ["stop"])
  {
    assert !IsJsSpace('s') && !IsJsSpace('p');
    assert TrimStart("stop") == "stop";
  }
}
