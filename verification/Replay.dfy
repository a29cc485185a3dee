/**
  The replay channel as its lock sees it: one event per critical section of
  `Tunnel` and `TunnelSubscription`, any number of producers and readers.
 */
module Replay {
  import opened Common

  /** How a subscription ended. */
  datatype End = Exhausted | Failed | Lagged | ClosedByReader | TimedOut

  /** `start` and `received` record what the reader was promised and given. */
  datatype Reader<T> = Reader(start: nat, cursor: nat, received: seq<T>, end: Option<End>)

  datatype Channel<T> = Channel(items: seq<T>, base: nat, next: nat, closed: bool, failure: Option<nat>, limit: Option<nat>)

  /** `log` is every value ever accepted; `parked` maps the future of each
      registered async waiter to its subscription.  A waiter brings a new future. */
  datatype State<T> = State(ch: Channel<T>, log: seq<T>, readers: map<nat, Reader<T>>, parked: map<nat, nat>)

  datatype Start = Earliest | Latest | At(sequence: int)

  datatype Event<T> =
    | Put(value: T)
    | Close
    | Fail(error: nat)
    | Subscribe(reader: nat, start: Start)
    | Read(reader: nat, park: Option<nat>)
    | TimeOut(reader: nat)
    | CloseReader(reader: nat)
    | Discard(future: nat)

  datatype Outcome<T> = Item(value: T) | Lag(expected: nat, availableFrom: nat) | Error(error: nat) | Stop | Block

  predicate Terminal<T>(ch: Channel<T>) {
    ch.closed || ch.failure.Some?
  }

  /** `put` on an open channel. */
  function Append<T>(ch: Channel<T>, value: T): Channel<T> {
    var items := ch.items + [value];
    if ch.limit.Some? && |items| > ch.limit.value
    then ch.(items := items[1..], base := ch.base + 1, next := ch.next + 1)
    else ch.(items := items, next := ch.next + 1)
  }

  function Opening<T>(ch: Channel<T>, start: Start): Option<nat> {
    match start
    case Earliest => Some(ch.base)
    case Latest => Some(ch.next)
    case At(n) => if 0 <= n <= ch.next then Some(n) else None
  }

  /** One pass of `__next__` or `__anext__` through its critical section. */
  function Attempt<T>(ch: Channel<T>, cursor: nat, terminated: bool): Outcome<T> {
    if terminated then Stop
    else if cursor < ch.base then Lag(cursor, ch.base)
    else if cursor - ch.base < |ch.items| then Item(ch.items[cursor - ch.base])
    else if ch.failure.Some? then Error(ch.failure.value)
    else if ch.closed then Stop
    else Block
  }

  function Advance<T>(r: Reader<T>, o: Outcome<T>): Reader<T> {
    match o
    case Item(v) => r.(cursor := r.cursor + 1, received := r.received + [v])
    case Lag(_, _) => r.(end := Some(Lagged))
    case Error(_) => r.(end := Some(Failed))
    case Stop => if r.end.None? then r.(end := Some(Exhausted)) else r
    case Block => r
  }

  function Step<T>(s: State<T>, e: Event<T>): State<T> {
    match e
    case Put(v) => if Terminal(s.ch) then s else s.(ch := Append(s.ch, v), log := s.log + [v], parked := map[])
    case Close => if Terminal(s.ch) then s else s.(ch := s.ch.(closed := true), parked := map[])
    case Fail(err) => if Terminal(s.ch) then s else s.(ch := s.ch.(failure := Some(err)), parked := map[])
    case Subscribe(r, start) =>
      var c := Opening(s.ch, start);
      if r in s.readers || c.None? then s else s.(readers := s.readers[r := Reader(c.value, c.value, [], None)])
    case Read(r, park) =>
      if r !in s.readers then s
      else
        var o := Attempt(s.ch, s.readers[r].cursor, s.readers[r].end.Some?);
        var t := s.(readers := s.readers[r := Advance(s.readers[r], o)]);
        if o.Block? && park.Some? && park.value !in s.parked then t.(parked := s.parked[park.value := r]) else t
    case TimeOut(r) =>
      if r !in s.readers || s.readers[r].end.Some? then s
      else s.(readers := s.readers[r := s.readers[r].(end := Some(TimedOut))])
    case CloseReader(r) =>
      if r !in s.readers || s.readers[r].end.Some? then s
      else s.(readers := s.readers[r := s.readers[r].(end := Some(ClosedByReader))], parked := map[])
    case Discard(f) => s.(parked := s.parked - {f})
  }

  function Init<T>(limit: Option<nat>): State<T> {
    State(Channel([], 0, 0, false, None, limit), [], map[], map[])
  }

  function Run<T>(s: State<T>, es: seq<Event<T>>): State<T>
    decreases |es|
  {
    if es == [] then s else Run(Step(s, es[0]), es[1..])
  }

  lemma {:induction false} RunSnoc<T>(s: State<T>, es: seq<Event<T>>, e: Event<T>)
    ensures Run(s, es + [e]) == Step(Run(s, es), e)
    decreases |es|
  {
    if es == [] {
      assert es + [e] == [e] && [e][1..] == [];
    } else {
      assert (es + [e])[0] == es[0] && (es + [e])[1..] == es[1..] + [e];
      RunSnoc(Step(s, es[0]), es[1..], e);
    }
  }

  // ------------------------------------------------------------ invariant

  ghost predicate ChannelOk<T>(ch: Channel<T>, log: seq<T>) {
    && (ch.limit.Some? ==> ch.limit.value > 0)
    && ch.next == |log|
    && ch.base == (if ch.limit.Some? then Max(0, ch.next - ch.limit.value) else 0)
    && ch.items == log[ch.base..]
    && !(ch.closed && ch.failure.Some?)
  }

  ghost predicate ReaderOk<T>(ch: Channel<T>, log: seq<T>, r: Reader<T>) {
    && r.start <= r.cursor <= |log|
    && r.received == log[r.start..r.cursor]
    && (r.end == Some(Exhausted) ==> ch.closed && r.cursor == |log|)
    && (r.end == Some(Failed) ==> ch.failure.Some? && r.cursor == |log|)
    && (r.end == Some(Lagged) ==> r.cursor < ch.base)
  }

  /** A parked waiter has nothing to wake up for: no value, no terminal state, and
      no close of its own subscription.  (A timeout ends the subscription of the
      task that it hits; it does not wake another task parked on it.) */
  ghost predicate ParkedOk<T>(ch: Channel<T>, readers: map<nat, Reader<T>>, r: nat) {
    && r in readers && readers[r].cursor == ch.next && !Terminal(ch)
    && (readers[r].end.None? || readers[r].end == Some(TimedOut))
  }

  ghost predicate Inv<T>(s: State<T>) {
    && ChannelOk(s.ch, s.log)
    && (forall r <- s.readers :: ReaderOk(s.ch, s.log, s.readers[r]))
    && (forall f <- s.parked :: ParkedOk(s.ch, s.readers, s.parked[f]))
  }

  lemma AppendKeeps<T>(ch: Channel<T>, log: seq<T>, value: T)
    requires ChannelOk(ch, log) && !Terminal(ch)
    ensures ChannelOk(Append(ch, value), log + [value])
  {
    var now := log + [value];
    assert ch.items + [value] == now[ch.base..];
    if ch.limit.Some? && |ch.items| + 1 > ch.limit.value {
      assert now[ch.base..][1..] == now[ch.base + 1..];
    }
  }

  lemma SliceGrows<T>(log: seq<T>, a: nat, b: nat)
    requires a <= b < |log|
    ensures log[a..b + 1] == log[a..b] + [log[b]]
  {
  }

  lemma AttemptKeeps<T>(ch: Channel<T>, log: seq<T>, r: Reader<T>)
    requires ChannelOk(ch, log) && ReaderOk(ch, log, r)
    ensures ReaderOk(ch, log, Advance(r, Attempt(ch, r.cursor, r.end.Some?)))
  {
    var o := Attempt(ch, r.cursor, r.end.Some?);
    if o.Item? {
      assert o.value == log[r.cursor];
      SliceGrows(log, r.start, r.cursor);
    }
  }

  lemma PutKeepsReader<T>(ch: Channel<T>, log: seq<T>, r: Reader<T>, v: T)
    requires ReaderOk(ch, log, r) && !Terminal(ch)
    ensures ReaderOk(Append(ch, v), log + [v], r)
  {
    assert (log + [v])[r.start..r.cursor] == log[r.start..r.cursor];
  }

  lemma PutKeepsInv<T>(s: State<T>, v: T)
    requires Inv(s) && !Terminal(s.ch)
    ensures Inv(Step(s, Put(v)))
  {
    AppendKeeps(s.ch, s.log, v);
    forall r | r in s.readers
      ensures ReaderOk(Append(s.ch, v), s.log + [v], s.readers[r])
    {
      PutKeepsReader(s.ch, s.log, s.readers[r], v);
    }
  }

  /** A pass of reader `r` leaves the waiters of the others alone; its own have nothing
      to read, so it moved only if it has none. */
  lemma {:induction false} ReadKeepsParked<T>(s: State<T>, r: nat, f: nat)
    requires Inv(s) && r in s.readers && f in s.parked
    ensures ParkedOk(s.ch, s.readers[r := Advance(s.readers[r], Attempt(s.ch, s.readers[r].cursor, s.readers[r].end.Some?))], s.parked[f])
  {
    assert ParkedOk(s.ch, s.readers, s.parked[f]);
    assert ReaderOk(s.ch, s.log, s.readers[r]);
  }

  lemma {:induction false} ReadKeepsInv<T>(s: State<T>, r: nat, park: Option<nat>)
    requires Inv(s) && r in s.readers
    ensures Inv(Step(s, Read(r, park)))
  {
    AttemptKeeps(s.ch, s.log, s.readers[r]);
    var t := Step(s, Read(r, park));
    forall f | f in t.parked
      ensures ParkedOk(t.ch, t.readers, t.parked[f])
    {
      if f in s.parked {
        ReadKeepsParked(s, r, f);
      }
    }
  }

  lemma SetReaderKeepsInv<T>(s: State<T>, r: nat, q: Reader<T>)
    requires Inv(s) && ReaderOk(s.ch, s.log, q)
    requires r in s.readers ==> q.cursor == s.readers[r].cursor && q.end == Some(TimedOut)
    ensures Inv(s.(readers := s.readers[r := q]))
  {
    forall f | f in s.parked
      ensures ParkedOk(s.ch, s.readers[r := q], s.parked[f])
    {
      assert ParkedOk(s.ch, s.readers, s.parked[f]);
    }
  }

  lemma WakeAllKeepsInv<T>(s: State<T>, r: nat, q: Reader<T>)
    requires Inv(s) && ReaderOk(s.ch, s.log, q)
    ensures Inv(s.(readers := s.readers[r := q], parked := map[]))
  {
  }

  lemma EndKeepsInv<T>(s: State<T>, e: Event<T>)
    requires Inv(s) && !Terminal(s.ch) && (e.Close? || e.Fail?)
    ensures Inv(Step(s, e))
  {
    assert forall r <- s.readers :: ReaderOk(s.ch, s.log, s.readers[r]);
  }

  lemma StepKeepsInv<T>(s: State<T>, e: Event<T>)
    requires Inv(s)
    ensures Inv(Step(s, e))
  {
    match e
    case Put(v) => if !Terminal(s.ch) { PutKeepsInv(s, v); }
    case Close => if !Terminal(s.ch) { EndKeepsInv(s, e); }
    case Fail(_) => if !Terminal(s.ch) { EndKeepsInv(s, e); }
    case Read(r, park) => if r in s.readers { ReadKeepsInv(s, r, park); }
    case Subscribe(r, start) =>
      var c := Opening(s.ch, start);
      if r !in s.readers && c.Some? {
        SetReaderKeepsInv(s, r, Reader(c.value, c.value, [], None));
      }
    case TimeOut(r) =>
      if r in s.readers && s.readers[r].end.None? {
        SetReaderKeepsInv(s, r, s.readers[r].(end := Some(TimedOut)));
      }
    case CloseReader(r) =>
      if r in s.readers && s.readers[r].end.None? {
        WakeAllKeepsInv(s, r, s.readers[r].(end := Some(ClosedByReader)));
      }
    case Discard(f) =>
  }

  lemma {:induction false} RunKeepsInv<T>(s: State<T>, es: seq<Event<T>>)
    requires Inv(s)
    ensures Inv(Run(s, es))
    decreases |es|
  {
    if es != [] {
      StepKeepsInv(s, es[0]);
      RunKeepsInv(Step(s, es[0]), es[1..]);
    }
  }

  // ------------------------------------------------- what every run satisfies

  /** What a reader has received is a contiguous slice of one total order, and
      its normal end, or the channel's failure, comes after the whole of it. */
  lemma ReplayInEveryRun<T>(limit: Option<nat>, es: seq<Event<T>>, r: nat)
    requires (limit.Some? ==> limit.value > 0) && r in Run(Init(limit), es).readers
    ensures var s := Run(Init(limit), es);
            var q := s.readers[r];
            && q.start <= q.cursor <= |s.log| && q.received == s.log[q.start..q.cursor]
            && (q.end == Some(Exhausted) ==> s.ch.closed && q.received == s.log[q.start..])
            && (q.end == Some(Failed) ==> s.ch.failure.Some? && q.received == s.log[q.start..])
  {
    RunKeepsInv(Init(limit), es);
    var s := Run(Init(limit), es);
    var q := s.readers[r];
    assert ReaderOk(s.ch, s.log, q);
    assert q.cursor == |s.log| ==> s.log[q.start..q.cursor] == s.log[q.start..];
  }

  /** The values retained are the newest `limit` of them, or all. */
  lemma HistoryInEveryRun<T>(limit: Option<nat>, es: seq<Event<T>>)
    requires limit.Some? ==> limit.value > 0
    ensures var s := Run(Init(limit), es);
            && s.ch.base <= s.ch.next == |s.log| && s.ch.items == s.log[s.ch.base..] && s.ch.limit == limit
            && s.ch.base == (if limit.Some? then Max(0, |s.log| - limit.value) else 0)
  {
    RunKeepsInv(Init(limit), es);
    LimitIsFixed(Init(limit), es);
  }

  lemma {:induction false} LimitIsFixed<T>(s: State<T>, es: seq<Event<T>>)
    ensures Run(s, es).ch.limit == s.ch.limit
    decreases |es|
  {
    if es != [] {
      LimitIsFixed(Step(s, es[0]), es[1..]);
    }
  }

  /** What the next read of a live subscription gives, in terms of the log alone:
      a lag error exactly when a value it has not had is gone, counting those
      values; else the next value; else the terminal state; else a wait. */
  lemma NextRead<T>(limit: Option<nat>, es: seq<Event<T>>, r: nat)
    requires (limit.Some? ==> limit.value > 0) && r in Run(Init(limit), es).readers && Run(Init(limit), es).readers[r].end.None?
    ensures var s := Run(Init(limit), es);
            var c := s.readers[r].cursor;
            var lost := if limit.Some? then Max(0, |s.log| - limit.value) else 0;
            var o := Attempt(s.ch, c, false);
            && (o.Lag? <==> c < lost) && (o.Lag? ==> o.availableFrom - o.expected == |s.log[c..lost]|)
            && (o.Item? <==> lost <= c < |s.log|) && (o.Item? ==> o.value == s.log[c])
            && (o.Error? <==> c == |s.log| && s.ch.failure.Some? && c >= lost)
            && (o.Stop? <==> c == |s.log| && s.ch.closed && c >= lost)
            && (o.Block? <==> c == |s.log| && !Terminal(s.ch) && c >= lost)
  {
    RunKeepsInv(Init(limit), es);
    LimitIsFixed(Init(limit), es);
    var s := Run(Init(limit), es);
    assert ReaderOk(s.ch, s.log, s.readers[r]);
  }

  /** No wake-up is missed: whoever is still parked has nothing to read. */
  lemma ParkedInEveryRun<T>(limit: Option<nat>, es: seq<Event<T>>, f: nat)
    requires (limit.Some? ==> limit.value > 0) && f in Run(Init(limit), es).parked
    ensures var s := Run(Init(limit), es);
            && s.parked[f] in s.readers && !Terminal(s.ch)
            && Attempt(s.ch, s.readers[s.parked[f]].cursor, false) == Block
            && (s.readers[s.parked[f]].end.Some? ==> s.readers[s.parked[f]].end == Some(TimedOut))
  {
    RunKeepsInv(Init(limit), es);
    var s := Run(Init(limit), es);
    assert ParkedOk(s.ch, s.readers, s.parked[f]) && ReaderOk(s.ch, s.log, s.readers[s.parked[f]]);
  }

  /** The order of values is settled when they are accepted: the log only grows,
      and not at all once the channel is closed or failed. */
  lemma {:induction false} LogGrows<T>(s: State<T>, es: seq<Event<T>>)
    ensures s.log <= Run(s, es).log
    ensures Terminal(s.ch) ==> Run(s, es).log == s.log && Run(s, es).ch == s.ch
    decreases |es|
  {
    if es != [] {
      LogGrows(Step(s, es[0]), es[1..]);
    }
  }

  // --------------------------------------------------- what each event does

  /** A value put before the end is the next of the log, and wakes everyone; after the
      end nothing is accepted and the end stays what it is. */
  lemma {:induction false} PutDoes<T>(s: State<T>, v: T)
    requires Inv(s)
    ensures var t := Step(s, Put(v));
            if s.ch.closed || s.ch.failure.Some? then t == s
            else
              && t.log == s.log + [v] && t.parked == map[] && t.readers == s.readers
              && !t.ch.closed && t.ch.failure.None? && t.ch.limit == s.ch.limit
              && t.ch.next == |s.log| + 1
              && t.ch.base == (if s.ch.limit.Some? && |s.log| + 1 - s.ch.base > s.ch.limit.value then s.ch.base + 1 else s.ch.base)
              && t.ch.items == (s.log + [v])[t.ch.base..]
  {
    if !Terminal(s.ch) {
      AppendKeeps(s.ch, s.log, v);
    }
  }

  lemma {:induction false} EndDoes<T>(s: State<T>, error: nat)
    ensures var open := !s.ch.closed && s.ch.failure.None?;
            && Step(s, Close) == (if open then s.(ch := s.ch.(closed := true), parked := map[]) else s)
            && Step(s, Fail(error)) == if open then s.(ch := s.ch.(failure := Some(error)), parked := map[]) else s
  {
  }

  /** A new reader starts at the oldest value retained, after the last one, or at a
      sequence number up to there; any other start is refused. */
  lemma {:induction false} SubscribeDoes<T>(limit: Option<nat>, es: seq<Event<T>>, r: nat, start: Start)
    requires limit.Some? ==> limit.value > 0
    ensures var s := Run(Init(limit), es);
            var t := Step(s, Subscribe(r, start));
            var oldest := if limit.Some? && |s.log| > limit.value then |s.log| - limit.value else 0;
            var at := match start case Earliest => oldest case Latest => |s.log| case At(n) => n;
            t == if r !in s.readers && 0 <= at <= |s.log| then s.(readers := s.readers[r := Reader(at, at, [], None)]) else s
  {
    RunKeepsInv(Init(limit), es);
    LimitIsFixed(Init(limit), es);
  }

  /** A read by a live reader: a retained value is received and passed, a lost one ends
      it, the end of the channel ends it, and otherwise it waits, on a future if it has
      brought a new one. */
  lemma {:induction false} ReadDoes<T>(s: State<T>, r: nat, park: Option<nat>)
    requires Inv(s) && r in s.readers && s.readers[r].end.None?
    ensures var t, q := Step(s, Read(r, park)), s.readers[r];
            && t.ch == s.ch && t.log == s.log
            && (s.ch.base <= q.cursor < |s.log| ==>
                  t.readers == s.readers[r := q.(cursor := q.cursor + 1, received := q.received + [s.log[q.cursor]])])
            && (q.cursor < s.ch.base ==> t.readers == s.readers[r := q.(end := Some(Lagged))])
            && (s.ch.base <= q.cursor == |s.log| && s.ch.failure.Some? ==> t.readers == s.readers[r := q.(end := Some(Failed))])
            && (s.ch.base <= q.cursor == |s.log| && s.ch.closed ==> t.readers == s.readers[r := q.(end := Some(Exhausted))])
            && (s.ch.base <= q.cursor == |s.log| && !s.ch.closed && s.ch.failure.None? ==> t.readers == s.readers)
            && t.parked == if s.ch.base <= q.cursor == |s.log| && !s.ch.closed && s.ch.failure.None? && park.Some? && park.value !in s.parked
                           then s.parked[park.value := r] else s.parked
  {
    assert ReaderOk(s.ch, s.log, s.readers[r]);
    assert s.readers[r := s.readers[r]] == s.readers;
  }

  /** A reader ends once: by its timeout, or by its own close, which wakes everyone; a
      reader that has ended reads no more, and a discarded waiter is gone. */
  lemma {:induction false} ReaderEnds<T>(s: State<T>, r: nat, f: nat)
    requires r in s.readers
    ensures var q := s.readers[r];
            && Step(s, TimeOut(r)) == (if q.end.None? then s.(readers := s.readers[r := q.(end := Some(TimedOut))]) else s)
            && Step(s, CloseReader(r)) ==
               (if q.end.None? then s.(readers := s.readers[r := q.(end := Some(ClosedByReader))], parked := map[]) else s)
            && (q.end.Some? ==> Step(s, Read(r, None)) == s)
            && Step(s, Discard(f)) == s.(parked := s.parked - {f})
  {
    assert s.readers[r := s.readers[r]] == s.readers;
  }
}
