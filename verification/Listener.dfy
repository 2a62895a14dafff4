/**
  The ns-3 bridge in PUSH mode: a background thread fetches messages and pushes them on a queue, which
  an event of the simulator empties. The two run interleaved; each critical section is one move.
 */
module Listener {
  import opened Messages

  /** What has been fetched, is held by the thread, is queued, and has been processed. */
  datatype Pipeline = Pipeline(
    fetched: seq<MessageEntry>,
    held: Option<MessageEntry>,
    queue: seq<MessageEntry>,
    processed: seq<MessageEntry>)

  const EMPTY_PIPELINE := Pipeline([], None, [], [])

  /** The thread pushes what it holds, or else fetches (obtaining `result`); the event takes the front. */
  datatype Move = ThreadMove(result: MessageEntry) | EventMove

  function AfterThread(p: Pipeline, result: MessageEntry): Pipeline {
    if p.held.Some? then p.(held := None, queue := p.queue + [p.held.value])
    else if result.Exists() then p.(held := Some(result), fetched := p.fetched + [result])
    else p
  }

  function AfterEvent(p: Pipeline): Pipeline {
    if p.queue == [] then p
    else p.(queue := p.queue[1..], processed := p.processed + [p.queue[0]])
  }

  function After(p: Pipeline, m: Move): Pipeline {
    match m
    case ThreadMove(result) => AfterThread(p, result)
    case EventMove => AfterEvent(p)
  }

  function AfterAll(p: Pipeline, moves: seq<Move>): Pipeline {
    if moves == [] then p else After(AfterAll(p, moves[..|moves| - 1]), moves[|moves| - 1])
  }

  function Held(p: Pipeline): seq<MessageEntry> {
    if p.held.Some? then [p.held.value] else []
  }

  ghost predicate NothingLost(p: Pipeline) {
    p.fetched == p.processed + p.queue + Held(p)
  }

  lemma MoveLosesNothing(p: Pipeline, m: Move)
    requires NothingLost(p)
    ensures NothingLost(After(p, m))
  {
    if m.EventMove? && p.queue != [] {
      assert p.queue == [p.queue[0]] + p.queue[1..];
    }
  }

  /**
    Under every interleaving of the two threads, what was fetched is what was processed, what is queued
    and what is held, in this order: nothing is lost, duplicated or reordered.
   */
  lemma {:induction false} NothingIsLost(moves: seq<Move>)
    ensures NothingLost(AfterAll(EMPTY_PIPELINE, moves))
  {
    if moves != [] {
      NothingIsLost(moves[..|moves| - 1]);
      MoveLosesNothing(AfterAll(EMPTY_PIPELINE, moves[..|moves| - 1]), moves[|moves| - 1]);
    }
  }

  // ---------------------------------------------------------------- what is fetched, said of the moves alone

  function AfterAllFrom(p: Pipeline, moves: seq<Move>): Pipeline
    decreases |moves|
  {
    if moves == [] then p else AfterAllFrom(After(p, moves[0]), moves[1..])
  }

  lemma {:induction false} AfterAllFromFront(p: Pipeline, moves: seq<Move>)
    ensures AfterAll(p, moves) == AfterAllFrom(p, moves)
    decreases |moves|
  {
    if moves != [] {
      var last := |moves| - 1;
      AfterAllFromFront(p, moves[..last]);
      AfterAllSnoc(p, moves[..last], moves[last]);
      assert moves[..last] + [moves[last]] == moves;
    }
  }

  lemma {:induction false} AfterAllSnoc(p: Pipeline, moves: seq<Move>, m: Move)
    ensures AfterAllFrom(p, moves + [m]) == After(AfterAllFrom(p, moves), m)
    decreases |moves|
  {
    if moves == [] {
      assert (moves + [m])[1..] == [];
    } else {
      assert (moves + [m])[1..] == moves[1..] + [m];
      AfterAllSnoc(After(p, moves[0]), moves[1..], m);
    }
  }

  /**
    The messages that the thread obtains: its turns are fetches and pushes. A turn after one that brought a
    message pushes it, every other turn fetches, and what a fetch brings is a message if it is complete.
   */
  function Obtained(moves: seq<Move>, holding: bool): seq<MessageEntry>
    decreases |moves|
  {
    if moves == [] then []
    else
      match moves[0]
      case EventMove => Obtained(moves[1..], holding)
      case ThreadMove(r) =>
        if holding then Obtained(moves[1..], false)
        else if r.source != "" && r.destination != "" && r.payloadObj != "" then [r] + Obtained(moves[1..], true)
        else Obtained(moves[1..], false)
  }

  lemma {:induction false} FetchedIsObtained(p: Pipeline, moves: seq<Move>)
    ensures AfterAllFrom(p, moves).fetched == p.fetched + Obtained(moves, p.held.Some?)
    decreases |moves|
  {
    if moves == [] {
      assert p.fetched + [] == p.fetched;
    } else {
      var m, next := moves[0], After(p, moves[0]);
      FetchedIsObtained(next, moves[1..]);
      if m.ThreadMove? && p.held.None? && m.result.Exists() {
        assert (p.fetched + [m.result]) + Obtained(moves[1..], true)
            == p.fetched + ([m.result] + Obtained(moves[1..], true));
      }
    }
  }

  /**
    So, under every interleaving: every message that the thread obtains, none twice and in this order, has
    been processed, is queued, or is held.
   */
  lemma ObtainedIsNotLost(moves: seq<Move>)
    ensures var p := AfterAll(EMPTY_PIPELINE, moves); Obtained(moves, false) == p.processed + p.queue + Held(p)
  {
    NothingIsLost(moves);
    AfterAllFromFront(EMPTY_PIPELINE, moves);
    FetchedIsObtained(EMPTY_PIPELINE, moves);
    assert [] + Obtained(moves, false) == Obtained(moves, false);
  }

  lemma PassFront(start: seq<MessageEntry>, entries: seq<MessageEntry>, queue: seq<MessageEntry>)
    requires start <= entries + queue && queue != []
    ensures start <= (entries + [queue[0]]) + queue[1..]
  {
    assert (entries + [queue[0]]) + queue[1..] == entries + queue;
  }

  class MessageListener {
    var messageQueue: seq<MessageEntry>
    /** The entry the thread has fetched and not yet pushed. */
    var entry: Option<MessageEntry>
    ghost var fetched: seq<MessageEntry>
    ghost var processed: seq<MessageEntry>

    ghost function View(): Pipeline
      reads this
    {
      Pipeline(fetched, entry, messageQueue, processed)
    }

    constructor ()
      ensures View() == EMPTY_PIPELINE
    {
      messageQueue, entry, fetched, processed := [], None, [], [];
    }

    /** One critical section of the listener thread. */
    method ThreadStep(result: MessageEntry)
      modifies this
      ensures View() == AfterThread(old(View()), result)
    {
      if entry.Some? {
        messageQueue := messageQueue + [entry.value];
        entry := None;
      } else if result.Exists() {
        entry := Some(result);
        fetched := fetched + [result];
      }
    }

    /**
      The event: processes entries until it finds the queue empty. Before each look at the queue the
      thread makes the moves of one part of `interference`, after that none. Whatever was queued at the
      start is processed first, and at the end everything fetched is processed or still held.
     */
    method ProcessQueuedMessages(interference: seq<seq<MessageEntry>>) returns (entries: seq<MessageEntry>)
      requires NothingLost(View())
      modifies this
      ensures NothingLost(View()) && messageQueue == []
      ensures processed == old(processed) + entries && fetched == processed + Held(View())
      ensures old(messageQueue) <= entries && old(fetched) <= fetched
    {
      entries := [];
      var look := 0;
      while true
        invariant NothingLost(View()) && look <= |interference|
        invariant processed == old(processed) + entries && old(fetched) <= fetched
        invariant old(messageQueue) <= entries + messageQueue
        decreases |interference| - look, |messageQueue|
      {
        var interfered := look < |interference|;
        if interfered {
          Interfere(interference[look]);
          look := look + 1;
        }
        if messageQueue == [] {
          assert entries + messageQueue == entries;
          return;
        }
        PassFront(old(messageQueue), entries, messageQueue);
        var next := TakeFront();
        entries := entries + [next];
      }
    }

    /** One critical section of the event, when the queue is not empty. */
    method TakeFront() returns (next: MessageEntry)
      requires NothingLost(View()) && messageQueue != []
      modifies this
      ensures View() == AfterEvent(old(View())) && NothingLost(View())
      ensures next == old(messageQueue)[0]
    {
      MoveLosesNothing(View(), EventMove);
      next := messageQueue[0];
      messageQueue := messageQueue[1..];
      processed := processed + [next];
    }

    /** Some moves of the thread. */
    method Interfere(results: seq<MessageEntry>)
      requires NothingLost(View())
      modifies this
      ensures NothingLost(View()) && processed == old(processed)
      ensures old(messageQueue) <= messageQueue && old(fetched) <= fetched
    {
      for i := 0 to |results|
        invariant NothingLost(View()) && processed == old(processed)
        invariant old(messageQueue) <= messageQueue && old(fetched) <= fetched
      {
        MoveLosesNothing(View(), ThreadMove(results[i]));
        ThreadStep(results[i]);
      }
    }
  }
}
