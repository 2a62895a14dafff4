/**
  The daemon's shared buffers: one list per direction, appended at the back and served by
  "first entry with this source", "first entry with this destination" or "pop the front".

  The module gives the list operations, what they do to the entries of one source, destination or
  pair, and an independent reference: an immutable log with a set of open positions.
 */
module Buffers {
  import opened Messages

  /** What a request looks for, and the classes of entries the order properties speak about. */
  datatype Query =
    | Anything
    | FromSource(source: string)
    | ToDestination(destination: string)
    | Between(source: string, destination: string)
  {
    predicate Matches(e: MessageEntry) {
      match this
      case Anything => true
      case FromSource(s) => e.source == s
      case ToDestination(d) => e.destination == d
      case Between(s, d) => e.source == s && e.destination == d
    }

    /** Every entry of class `p` answers this query. */
    ghost predicate Covers(p: Query) {
      forall e: MessageEntry :: p.Matches(e) ==> Matches(e)
    }

    /** No entry of class `p` answers this query. */
    ghost predicate Excludes(p: Query) {
      forall e: MessageEntry :: p.Matches(e) ==> !Matches(e)
    }

    /** The query does not cut class `p` in two; this is what keeps the class first-in first-out. */
    ghost predicate Respects(p: Query) {
      Covers(p) || Excludes(p)
    }
  }

  /** The first entry that answers the query. */
  function Answer(q: Query, buf: seq<MessageEntry>): Option<MessageEntry> {
    if buf == [] then None
    else if q.Matches(buf[0]) then Some(buf[0])
    else Answer(q, buf[1..])
  }

  /** The buffer without that entry. */
  function Rest(q: Query, buf: seq<MessageEntry>): seq<MessageEntry> {
    if buf == [] then []
    else if q.Matches(buf[0]) then buf[1..]
    else [buf[0]] + Rest(q, buf[1..])
  }

  /** The entries of one class, in buffer order. */
  function Restrict(p: Query, buf: seq<MessageEntry>): seq<MessageEntry> {
    if buf == [] then []
    else if p.Matches(buf[0]) then [buf[0]] + Restrict(p, buf[1..])
    else Restrict(p, buf[1..])
  }

  function Single(p: Query, r: Option<MessageEntry>): seq<MessageEntry> {
    if r.Some? && p.Matches(r.value) then [r.value] else []
  }

  // ---------------------------------------------------------------- list facts

  lemma {:induction false} RestrictConcat(p: Query, a: seq<MessageEntry>, b: seq<MessageEntry>)
    ensures Restrict(p, a + b) == Restrict(p, a) + Restrict(p, b)
  {
    if a == [] {
      assert a + b == b;
    } else {
      assert (a + b)[1..] == a[1..] + b;
      RestrictConcat(p, a[1..], b);
    }
  }

  lemma {:induction false} RestrictAll(buf: seq<MessageEntry>)
    ensures Restrict(Anything, buf) == buf
  {
    if buf != [] {
      RestrictAll(buf[1..]);
    }
  }

  lemma {:induction false} AnswerConcat(q: Query, a: seq<MessageEntry>, b: seq<MessageEntry>)
    ensures Answer(q, a + b) == if Answer(q, a).Some? then Answer(q, a) else Answer(q, b)
  {
    if a == [] {
      assert a + b == b;
    } else {
      assert (a + b)[1..] == a[1..] + b;
      AnswerConcat(q, a[1..], b);
    }
  }

  lemma {:induction false} RestConcat(q: Query, a: seq<MessageEntry>, b: seq<MessageEntry>)
    ensures Rest(q, a + b) == if Answer(q, a).Some? then Rest(q, a) + b else a + Rest(q, b)
  {
    if a == [] {
      assert a + b == b;
    } else {
      assert (a + b)[1..] == a[1..] + b;
      RestConcat(q, a[1..], b);
    }
  }

  lemma {:induction false} NoMatchNoAnswer(q: Query, buf: seq<MessageEntry>)
    requires forall j :: 0 <= j < |buf| ==> !q.Matches(buf[j])
    ensures Answer(q, buf) == None && Rest(q, buf) == buf
  {
    if buf != [] {
      NoMatchNoAnswer(q, buf[1..]);
    }
  }

  lemma Associative<T>(a: seq<T>, b: seq<T>, c: seq<T>)
    ensures a + (b + c) == (a + b) + c
  {
  }

  lemma Rebracket<T>(a: seq<T>, b: seq<T>, c: seq<T>, d: seq<T>, e: seq<T>, f: seq<T>, g: seq<T>)
    requires a + b == d + e && e + c == f + g
    ensures a + (b + c) == (d + f) + g
  {
    Associative(a, b, c);
    Associative(d, e, c);
    Associative(d, f, g);
  }

  /** `find_if` followed by `erase`, as the code does it, is `Answer` and `Rest`. */
  lemma EraseAtFirstMatch(q: Query, buf: seq<MessageEntry>, i: nat)
    requires i <= |buf|
    requires forall j :: 0 <= j < i ==> !q.Matches(buf[j])
    requires i < |buf| ==> q.Matches(buf[i])
    ensures i < |buf| ==> Answer(q, buf) == Some(buf[i]) && Rest(q, buf) == buf[..i] + buf[i + 1..]
    ensures i == |buf| ==> Answer(q, buf) == None && Rest(q, buf) == buf
  {
    NoMatchNoAnswer(q, buf[..i]);
    AnswerConcat(q, buf[..i], buf[i..]);
    RestConcat(q, buf[..i], buf[i..]);
    assert buf[..i] + buf[i..] == buf;
    if i < |buf| {
      assert buf[i..][1..] == buf[i + 1..];
    }
  }

  // ---------------------------------------------------------------- order of one class

  /** The answer to a query is the head of its class, and nothing else of the list matters. */
  lemma {:induction false} AnswerIsHead(q: Query, buf: seq<MessageEntry>)
    ensures Answer(q, buf) == (if Restrict(q, buf) == [] then None else Some(Restrict(q, buf)[0]))
    ensures Answer(q, buf).Some? ==> q.Matches(Answer(q, buf).value) && |Rest(q, buf)| == |buf| - 1
    ensures Answer(q, buf).None? ==> Rest(q, buf) == buf
  {
    if buf != [] {
      AnswerIsHead(q, buf[1..]);
      assert [buf[0]] + buf[1..] == buf;
    }
  }

  /** A query takes from a class it respects only at the head, and leaves the rest in order. */
  lemma {:induction false} TakeRespects(q: Query, p: Query, buf: seq<MessageEntry>)
    requires q.Respects(p)
    ensures Restrict(p, buf) == Single(p, Answer(q, buf)) + Restrict(p, Rest(q, buf))
  {
    if buf != [] && !q.Matches(buf[0]) {
      var rest := Rest(q, buf[1..]);
      TakeRespects(q, p, buf[1..]);
      assert ([buf[0]] + rest)[1..] == rest;
      AnswerIsHead(q, buf[1..]);
    }
  }

  lemma RestDropsHead(q: Query, buf: seq<MessageEntry>)
    ensures Restrict(q, Rest(q, buf)) == if Restrict(q, buf) == [] then [] else Restrict(q, buf)[1..]
  {
    TakeRespects(q, q, buf);
    AnswerIsHead(q, buf);
  }

  /**
    The list is a family of first-in first-out queues, one for each source (or destination): an append
    enqueues on its own queue, and a removal that respects the classes dequeues the head of at most one.
   */
  lemma ListRefinesQueues(op: BufferOp, p: Query, buf: seq<MessageEntry>)
    requires op.Remove? ==> op.query.Respects(p)
    ensures op.Append? ==> Restrict(p, Result(op, buf)) == Restrict(p, buf) + Single(p, Some(op.entry))
    ensures var e := Taken(op, buf);
            !op.Append? ==>
              if e.Some? && p.Matches(e.value)
              then Restrict(p, buf) != [] && e.value == Restrict(p, buf)[0]
                   && Restrict(p, Result(op, buf)) == Restrict(p, buf)[1..]
              else Restrict(p, Result(op, buf)) == Restrict(p, buf)
  {
    match op {
      case Append(e) => RestrictConcat(p, buf, [e]);
      case Remove(q) => TakeRespects(q, p, buf);
      case Idle =>
    }
  }

  /** Two requests that can never want the same entry commute: same answers, same list. */
  lemma {:induction false} TakesCommute(q1: Query, q2: Query, buf: seq<MessageEntry>)
    requires q1.Excludes(q2)
    ensures Answer(q2, Rest(q1, buf)) == Answer(q2, buf)
    ensures Answer(q1, Rest(q2, buf)) == Answer(q1, buf)
    ensures Rest(q2, Rest(q1, buf)) == Rest(q1, Rest(q2, buf))
  {
    if buf != [] {
      TakesCommute(q1, q2, buf[1..]);
    }
  }

  /** A request and an append commute exactly when the request would not pick the new entry. */
  lemma TakeCommutesWithAppend(q: Query, e: MessageEntry, buf: seq<MessageEntry>)
    ensures Answer(q, buf + [e]) == Answer(q, buf) && Rest(q, buf + [e]) == Rest(q, buf) + [e]
       <==> !q.Matches(e) || Restrict(q, buf) != []
  {
    AnswerIsHead(q, buf);
    AnswerConcat(q, buf, [e]);
    RestConcat(q, buf, [e]);
  }

  // ---------------------------------------------------------------- runs of one buffer

  datatype BufferOp = Append(entry: MessageEntry) | Remove(query: Query) | Idle

  function Result(op: BufferOp, buf: seq<MessageEntry>): seq<MessageEntry> {
    match op
    case Append(e) => buf + [e]
    case Remove(q) => Rest(q, buf)
    case Idle => buf
  }

  /** The entry an operation takes out of the buffer, whether or not it is then delivered. */
  function Taken(op: BufferOp, buf: seq<MessageEntry>): Option<MessageEntry> {
    if op.Remove? then Answer(op.query, buf) else None
  }

  function Final(ops: seq<BufferOp>, buf: seq<MessageEntry>): seq<MessageEntry> {
    if ops == [] then buf else Final(ops[1..], Result(ops[0], buf))
  }

  function Entering(op: BufferOp): seq<MessageEntry> {
    if op.Append? then [op.entry] else []
  }

  function Leaving(op: BufferOp, buf: seq<MessageEntry>): seq<MessageEntry> {
    Single(Anything, Taken(op, buf))
  }

  function Appended(ops: seq<BufferOp>): seq<MessageEntry> {
    if ops == [] then [] else Entering(ops[0]) + Appended(ops[1..])
  }

  function Consumed(ops: seq<BufferOp>, buf: seq<MessageEntry>): seq<MessageEntry> {
    if ops == [] then [] else Leaving(ops[0], buf) + Consumed(ops[1..], Result(ops[0], buf))
  }

  ghost predicate AllRespect(ops: seq<BufferOp>, p: Query) {
    forall op :: op in ops && op.Remove? ==> op.query.Respects(p)
  }

  /** One operation moves entries of a class in at the tail and out at the head. */
  lemma OpConserves(p: Query, op: BufferOp, buf: seq<MessageEntry>)
    requires op.Remove? ==> op.query.Respects(p)
    ensures Restrict(p, buf) + Restrict(p, Entering(op))
         == Restrict(p, Leaving(op, buf)) + Restrict(p, Result(op, buf))
  {
    match op {
      case Append(e) =>
        RestrictConcat(p, buf, [e]);
        assert [] + Restrict(p, buf + [e]) == Restrict(p, buf + [e]);
      case Remove(q) =>
        TakeRespects(q, p, buf);
        RestrictOne(p, Answer(q, buf));
        assert Restrict(p, buf) + [] == Restrict(p, buf);
      case Idle =>
        assert Restrict(p, buf) + [] == [] + Restrict(p, buf);
    }
  }

  lemma RestrictOne(p: Query, r: Option<MessageEntry>)
    ensures Restrict(p, Single(Anything, r)) == Single(p, r)
  {
    if r.Some? {
      assert [r.value][1..] == [];
    }
  }

  /** Over any run, what was there plus what came in is what went out plus what is left, in order. */
  lemma {:induction false} RunConserves(p: Query, ops: seq<BufferOp>, buf: seq<MessageEntry>)
    requires AllRespect(ops, p)
    ensures Restrict(p, buf) + Restrict(p, Appended(ops))
         == Restrict(p, Consumed(ops, buf)) + Restrict(p, Final(ops, buf))
  {
    if ops != [] {
      var op, rest, next := ops[0], ops[1..], Result(ops[0], buf);
      assert op in ops && forall o :: o in rest ==> o in ops;
      RunConserves(p, rest, next);
      OpConserves(p, op, buf);
      RestrictConcat(p, Entering(op), Appended(rest));
      RestrictConcat(p, Leaving(op, buf), Consumed(rest, next));
      Rebracket(
        Restrict(p, buf), Restrict(p, Entering(op)), Restrict(p, Appended(rest)),
        Restrict(p, Leaving(op, buf)), Restrict(p, next),
        Restrict(p, Consumed(rest, next)), Restrict(p, Final(rest, next)));
    }
  }

  // ---------------------------------------------------------------- the reference: a log and its open positions

  /** Everything ever appended, and the positions not yet taken. */
  datatype Ledger = Ledger(log: seq<MessageEntry>, open: set<nat>)

  /** The open entries among the first `n` positions, oldest first. */
  function Listing(l: Ledger, n: nat): seq<MessageEntry>
    requires n <= |l.log|
  {
    if n == 0 then []
    else Listing(l, n - 1) + (if n - 1 in l.open then [l.log[n - 1]] else [])
  }

  /** `i` is the oldest open position that answers `q`. */
  ghost predicate IsOldest(l: Ledger, q: Query, i: nat) {
    && i < |l.log| && i in l.open && q.Matches(l.log[i])
    && forall j: nat :: j < i && j in l.open ==> !q.Matches(l.log[j])
  }

  /** The oldest open position below `n` that answers `q`. */
  function Oldest(l: Ledger, q: Query, n: nat): (r: Option<nat>)
    requires n <= |l.log|
    ensures r.Some? ==> r.value < n && IsOldest(l, q, r.value)
    ensures r.None? ==> forall j: nat :: j < n && j in l.open ==> !q.Matches(l.log[j])
  {
    if n == 0 then None
    else
      var r := Oldest(l, q, n - 1);
      if r.Some? then r
      else if n - 1 in l.open && q.Matches(l.log[n - 1]) then Some(n - 1)
      else None
  }

  function LedgerResult(op: BufferOp, l: Ledger): Ledger {
    match op
    case Append(e) => Ledger(l.log + [e], l.open + {|l.log|})
    case Remove(q) =>
      var r := Oldest(l, q, |l.log|);
      if r.Some? then l.(open := l.open - {r.value}) else l
    case Idle => l
  }

  function LedgerTaken(op: BufferOp, l: Ledger): Option<nat> {
    if op.Remove? then Oldest(l, op.query, |l.log|) else None
  }

  ghost predicate Represents(l: Ledger, buf: seq<MessageEntry>) {
    && (forall i: nat :: i in l.open ==> i < |l.log|)
    && buf == Listing(l, |l.log|)
  }

  lemma {:induction false} ListingFrame(l1: Ledger, l2: Ledger, n: nat)
    requires n <= |l1.log| && n <= |l2.log|
    requires forall i: nat :: i < n ==> l1.log[i] == l2.log[i] && (i in l1.open <==> i in l2.open)
    ensures Listing(l1, n) == Listing(l2, n)
  {
    if n > 0 {
      ListingFrame(l1, l2, n - 1);
    }
  }

  /** The ledger after taking the oldest open position that answers `q` among the first `n`. */
  function Without(l: Ledger, q: Query, n: nat): Ledger
    requires n <= |l.log|
  {
    var r := Oldest(l, q, n);
    if r.Some? then l.(open := l.open - {r.value}) else l
  }

  lemma {:induction false} AnswerInListing(l: Ledger, q: Query, n: nat)
    requires n <= |l.log|
    ensures var r := Oldest(l, q, n);
            Answer(q, Listing(l, n)) == if r.Some? then Some(l.log[r.value]) else None
  {
    if n > 0 {
      var last := if n - 1 in l.open then [l.log[n - 1]] else [];
      AnswerInListing(l, q, n - 1);
      AnswerConcat(q, Listing(l, n - 1), last);
    }
  }

  /** The entry at position `n - 1`, if it is open. */
  function Last(l: Ledger, n: nat): seq<MessageEntry>
    requires 0 < n <= |l.log|
  {
    if n - 1 in l.open then [l.log[n - 1]] else []
  }

  lemma OlderTaken(l: Ledger, q: Query, n: nat)
    requires 0 < n <= |l.log| && Oldest(l, q, n - 1).Some?
    ensures Listing(Without(l, q, n), n) == Listing(Without(l, q, n - 1), n - 1) + Last(l, n)
  {
    var w := Without(l, q, n);
    assert w == Without(l, q, n - 1);
    assert n - 1 in w.open <==> n - 1 in l.open;
  }

  lemma LastTaken(l: Ledger, q: Query, n: nat)
    requires 0 < n <= |l.log| && Oldest(l, q, n - 1).None?
    ensures Listing(Without(l, q, n), n) == Listing(l, n - 1) + Rest(q, Last(l, n))
  {
    if n - 1 in l.open && q.Matches(l.log[n - 1]) {
      ListingFrame(l, Without(l, q, n), n - 1);
    }
  }

  lemma {:induction false} RestOfListing(l: Ledger, q: Query, n: nat)
    requires n <= |l.log|
    ensures Rest(q, Listing(l, n)) == Listing(Without(l, q, n), n)
  {
    if n > 0 {
      AnswerInListing(l, q, n - 1);
      RestConcat(q, Listing(l, n - 1), Last(l, n));
      if Oldest(l, q, n - 1).Some? {
        RestOfListing(l, q, n - 1);
        OlderTaken(l, q, n);
      } else {
        LastTaken(l, q, n);
      }
    }
  }

  /**
    The list with find-and-erase refines the ledger: every operation keeps the correspondence, and a
    removal takes precisely the oldest open position that answers it.
   */
  lemma ListRefinesLedger(op: BufferOp, l: Ledger, buf: seq<MessageEntry>)
    requires Represents(l, buf)
    ensures Represents(LedgerResult(op, l), Result(op, buf))
    ensures LedgerTaken(op, l).Some? <==> Taken(op, buf).Some?
    ensures var i := LedgerTaken(op, l);
            i.Some? ==> IsOldest(l, op.query, i.value) && Taken(op, buf) == Some(l.log[i.value])
  {
    match op {
      case Append(e) => ListingFrame(l, LedgerResult(op, l), |l.log|);
      case Remove(q) =>
        AnswerInListing(l, q, |l.log|);
        RestOfListing(l, q, |l.log|);
      case Idle =>
    }
  }

  function LedgerFinal(ops: seq<BufferOp>, l: Ledger): Ledger {
    if ops == [] then l else LedgerFinal(ops[1..], LedgerResult(ops[0], l))
  }

  /** The positions taken over a run, in the order they were taken. */
  function TakenPositions(ops: seq<BufferOp>, l: Ledger): seq<nat> {
    if ops == [] then []
    else
      var r := LedgerTaken(ops[0], l);
      (if r.Some? then [r.value] else []) + TakenPositions(ops[1..], LedgerResult(ops[0], l))
  }

  /** Over any run and any mix of requests, the list stays the listing of the ledger. */
  lemma {:induction false} RunRefinesLedger(ops: seq<BufferOp>, l: Ledger, buf: seq<MessageEntry>)
    requires Represents(l, buf)
    ensures Represents(LedgerFinal(ops, l), Final(ops, buf))
    ensures LedgerFinal(ops, l).log == l.log + Appended(ops)
  {
    if ops != [] {
      ListRefinesLedger(ops[0], l, buf);
      LogGrows(ops[0], l, ops[1..]);
      assert [ops[0]] + ops[1..] == ops;
      RunRefinesLedger(ops[1..], LedgerResult(ops[0], l), Result(ops[0], buf));
    }
  }

  function EntriesAt(log: seq<MessageEntry>, positions: seq<nat>): seq<MessageEntry>
    requires forall i :: 0 <= i < |positions| ==> positions[i] < |log|
  {
    if positions == [] then [] else [log[positions[0]]] + EntriesAt(log, positions[1..])
  }

  /** What a run takes out is, in order, what the log holds at the positions the ledger took. */
  lemma {:induction false} ConsumedIsTaken(
    ops: seq<BufferOp>, l: Ledger, buf: seq<MessageEntry>, log: seq<MessageEntry>)
    requires Represents(l, buf)
    requires log == l.log + Appended(ops)
    ensures forall i :: 0 <= i < |TakenPositions(ops, l)| ==> TakenPositions(ops, l)[i] < |log|
    ensures Consumed(ops, buf) == EntriesAt(log, TakenPositions(ops, l))
  {
    if ops != [] {
      var op, rest := ops[0], ops[1..];
      ListRefinesLedger(op, l, buf);
      var next, after := LedgerResult(op, l), Result(op, buf);
      LogGrows(op, l, rest);
      assert [op] + rest == ops;
      ConsumedIsTaken(rest, next, after, log);
      var r, t := LedgerTaken(op, l), TakenPositions(rest, next);
      if r.Some? {
        assert log[r.value] == l.log[r.value];
        assert Leaving(op, buf) == [log[r.value]];
        assert TakenPositions(ops, l) == [r.value] + t;
        assert ([r.value] + t)[1..] == t;
      } else {
        assert TakenPositions(ops, l) == t;
        assert Leaving(op, buf) == [];
      }
    }
  }

  lemma LogGrows(op: BufferOp, l: Ledger, rest: seq<BufferOp>)
    ensures l.log + Appended([op] + rest) == LedgerResult(op, l).log + Appended(rest)
  {
    assert ([op] + rest)[1..] == rest;
  }

  /**
    Over any run, every position that was open or is new is at the end either still open or taken,
    never both, and no position is taken twice: no message reaches two clients, none is lost.
   */
  lemma {:induction false} NoPositionTakenTwice(ops: seq<BufferOp>, l: Ledger)
    requires forall i: nat :: i in l.open ==> i < |l.log|
    ensures forall i, j :: 0 <= i < j < |TakenPositions(ops, l)| ==>
              TakenPositions(ops, l)[i] != TakenPositions(ops, l)[j]
    ensures forall i: nat :: i in TakenPositions(ops, l) ==> i !in LedgerFinal(ops, l).open
    ensures forall i: nat :: i in l.open || |l.log| <= i < |LedgerFinal(ops, l).log| <==>
                             i in LedgerFinal(ops, l).open || i in TakenPositions(ops, l)
    ensures |l.log| <= |LedgerFinal(ops, l).log|
    ensures forall i: nat :: i in LedgerFinal(ops, l).open ==> i < |LedgerFinal(ops, l).log|
  {
    if ops != [] {
      var next := LedgerResult(ops[0], l);
      NoPositionTakenTwice(ops[1..], next);
      var r := LedgerTaken(ops[0], l);
      var t := TakenPositions(ops[1..], next);
      if r.Some? {
        assert r.value !in next.open && r.value < |next.log|;
        assert TakenPositions(ops, l) == [r.value] + t;
        assert forall i: nat :: i in [r.value] + t <==> i == r.value || i in t;
      } else {
        assert TakenPositions(ops, l) == t;
      }
    }
  }

  /**
    From an empty list: the entries taken are those at pairwise distinct positions of the sequence of
    appended entries, and every position is either taken or still in the list.
   */
  lemma EachAppendIsTakenOnce(ops: seq<BufferOp>) returns (positions: seq<nat>, left: set<nat>)
    ensures forall i :: 0 <= i < |positions| ==> positions[i] < |Appended(ops)|
    ensures forall i, j :: 0 <= i < j < |positions| ==> positions[i] != positions[j]
    ensures Consumed(ops, []) == EntriesAt(Appended(ops), positions)
    ensures forall i: nat :: i < |Appended(ops)| <==> i in positions || i in left
    ensures forall i: nat :: i in positions ==> i !in left
    ensures Represents(Ledger(Appended(ops), left), Final(ops, []))
  {
    var l := Ledger([], {});
    assert l.log + Appended(ops) == Appended(ops);
    RunRefinesLedger(ops, l, []);
    NoPositionTakenTwice(ops, l);
    ConsumedIsTaken(ops, l, [], Appended(ops));
    positions, left := TakenPositions(ops, l), LedgerFinal(ops, l).open;
    assert LedgerFinal(ops, l) == Ledger(Appended(ops), left);
  }
}
