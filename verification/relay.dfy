/** One connection of the relay as a sequential state machine: the body of
    the `select!` loop run one event per step. Reads and expirations arrive
    as events; writes are appended to one output stream per socket. */
module Relay {
  import opened Types
  import opened Clock
  import opened Schedule

  /** A captured segment and the socket it is to be written to. */
  datatype Item = Item(bytes: seq<byte>, toUpstream: bool)

  /** What one turn of the loop observed. A read reports the whole buffer
      after the call and the count `n` it returned. `IoError` stands for any
      failed read or write, all of which end the connection through `?`. */
  datatype Event =
    | ReadUpstream(buf: seq<byte>, n: nat)
    | ReadDownstream(buf: seq<byte>, n: nat)
    | Expired
    | IoError

  /** One step's inputs: the event, the clock reading when it is handled and
      the random sample that a read would draw. */
  datatype Tick = Tick(event: Event, now: nat, sample: nat)

  /** `Relaying` is the loop; the others end it: a zero-length read returns
      `Ok`, an I/O error returns `Err`, and polling an empty queue panics in
      `unwrap`. */
  datatype Status = Relaying | ClosedClean | ClosedError | Panicked

  /** The connection's state. `upstreamPrev` is the clock of segments read
      from upstream, `downstreamPrev` that of segments read from downstream;
      `upstreamOut` and `downstreamOut` are everything written so far to the
      respective socket. A closed state keeps the entries it dropped. */
  datatype State = State(
    upstreamPrev: nat,
    downstreamPrev: nat,
    queue: seq<Entry<Item>>,
    upstreamOut: seq<byte>,
    downstreamOut: seq<byte>,
    status: Status)

  /** The entry that keeps the queue from ever being empty: no bytes, tagged
      for downstream, due a year after the connection opened. */
  function Placeholder(openTime: nat): (e: Entry<Item>)
    ensures e.item.bytes == [] && !e.item.toUpstream
    ensures e.release - openTime == PLACEHOLDER_DELAY_MS
  {
    Entry(openTime + PLACEHOLDER_DELAY_MS, Item([], false))
  }

  /** A connection just opened at `openTime`. */
  function Init(openTime: nat): (s: State)
    ensures s.status == Relaying
    ensures s.upstreamPrev == openTime && s.downstreamPrev == openTime
    ensures |s.queue| == 1 && s.queue[0] == Placeholder(openTime)
    ensures s.upstreamOut == [] && s.downstreamOut == []
  {
    State(openTime, openTime, [Placeholder(openTime)], [], [], Relaying)
  }

  /** The clock of segments read from the given side. */
  function Prev(s: State, fromUpstream: bool): nat
  {
    if fromUpstream then s.upstreamPrev else s.downstreamPrev
  }

  /** What a socket read can report: a full-size buffer and a count that
      fits in it. */
  predicate ValidEvent(e: Event)
  {
    (e.ReadUpstream? || e.ReadDownstream?) ==> |e.buf| == BUF_SIZE && e.n <= BUF_SIZE
  }

  predicate ValidTick(cfg: Config, t: Tick)
  {
    ValidEvent(t.event) && t.sample <= cfg.jitter
  }

  predicate ValidTicks(cfg: Config, ticks: seq<Tick>)
  {
    forall i :: 0 <= i < |ticks| ==> ValidTick(cfg, ticks[i])
  }

  /** Writes an expired item to the socket its tag names. */
  function Deliver(s: State, item: Item): (r: State)
    ensures item.toUpstream ==> r.upstreamOut == s.upstreamOut + item.bytes && r.downstreamOut == s.downstreamOut
    ensures !item.toUpstream ==> r.downstreamOut == s.downstreamOut + item.bytes && r.upstreamOut == s.upstreamOut
    ensures r.queue == s.queue && r.status == s.status
    ensures r.upstreamPrev == s.upstreamPrev && r.downstreamPrev == s.downstreamPrev
  {
    if item.toUpstream then s.(upstreamOut := s.upstreamOut + item.bytes)
    else s.(downstreamOut := s.downstreamOut + item.bytes)
  }

  /** One turn of the relay loop. */
  function Step(cfg: Config, s: State, t: Tick): (r: State)
    requires ValidTick(cfg, t)
    ensures s.status != Relaying ==> r == s
    ensures r.status == Relaying ==> s.status == Relaying
    ensures s.upstreamPrev <= r.upstreamPrev && s.downstreamPrev <= r.downstreamPrev
    ensures s.upstreamOut <= r.upstreamOut && s.downstreamOut <= r.downstreamOut
    ensures s.status == Relaying && t.event.ReadUpstream? && t.event.n > 0 ==>
              |r.queue| == |s.queue| + 1 && r.queue[..|s.queue|] == s.queue
              && r.queue[|s.queue|].release == r.upstreamPrev
    ensures s.status == Relaying && t.event.ReadDownstream? && t.event.n > 0 ==>
              |r.queue| == |s.queue| + 1 && r.queue[..|s.queue|] == s.queue
              && r.queue[|s.queue|].release == r.downstreamPrev
  {
    if s.status != Relaying then s
    else match t.event
      case ReadUpstream(buf, n) =>
        if n == 0 then s.(status := ClosedClean)
        else
          var release := Assign(cfg, s.upstreamPrev, t.now, t.sample);
          s.(upstreamPrev := release,
             queue := s.queue + [Entry(release, Item(buf[..n], false))])
      case ReadDownstream(buf, n) =>
        if n == 0 then s.(status := ClosedClean)
        else
          var release := Assign(cfg, s.downstreamPrev, t.now, t.sample);
          s.(downstreamPrev := release,
             queue := s.queue + [Entry(release, Item(buf[..n], true))])
      case Expired =>
        (match PollExpired(s.queue, t.now)
         case Empty => s.(status := Panicked)
         case NotReady => s
         case Ready(e, rest) => Deliver(s.(queue := rest), e.item))
      case IoError => s.(status := ClosedError)
  }

  /** The relay after a sequence of turns. Once it has stopped nothing
      changes any more; clocks only move forward and the output streams only
      grow. */
  function Run(cfg: Config, s: State, ticks: seq<Tick>): (r: State)
    requires ValidTicks(cfg, ticks)
    ensures s.status != Relaying ==> r == s
    ensures r.status == Relaying ==> s.status == Relaying
    ensures s.upstreamPrev <= r.upstreamPrev && s.downstreamPrev <= r.downstreamPrev
    ensures s.upstreamOut <= r.upstreamOut && s.downstreamOut <= r.downstreamOut
    decreases |ticks|
  {
    if |ticks| == 0 then s
    else Run(cfg, Step(cfg, s, ticks[0]), ticks[1..])
  }

  /** A non-empty read from upstream captures the first `n` bytes of the
      buffer, tags them for downstream and queues them at the release time
      the upstream clock assigns, which becomes the clock's new value. The
      downstream clock and both outputs are untouched. */
  lemma ReadUpstreamSchedules(cfg: Config, s: State, t: Tick)
    requires ValidTick(cfg, t) && s.status == Relaying
    requires t.event.ReadUpstream? && t.event.n > 0
    ensures var r := Step(cfg, s, t);
      && r.status == Relaying
      && 1 <= |t.event.buf[..t.event.n]| <= BUF_SIZE
      && r.queue == s.queue + [Entry(r.upstreamPrev, Item(t.event.buf[..t.event.n], false))]
      && s.upstreamPrev <= r.upstreamPrev
      && r.upstreamPrev == Assign(cfg, s.upstreamPrev, t.now, t.sample)
      && t.now + cfg.latency + t.sample <= r.upstreamPrev
      && (r.upstreamPrev == s.upstreamPrev || r.upstreamPrev == t.now + cfg.latency + t.sample)
      && r.downstreamPrev == s.downstreamPrev
      && r.upstreamOut == s.upstreamOut && r.downstreamOut == s.downstreamOut
  {
  }

  /** The mirror image: a non-empty read from downstream is tagged for
      upstream and moves only the downstream clock. */
  lemma ReadDownstreamSchedules(cfg: Config, s: State, t: Tick)
    requires ValidTick(cfg, t) && s.status == Relaying
    requires t.event.ReadDownstream? && t.event.n > 0
    ensures var r := Step(cfg, s, t);
      && r.status == Relaying
      && 1 <= |t.event.buf[..t.event.n]| <= BUF_SIZE
      && r.queue == s.queue + [Entry(r.downstreamPrev, Item(t.event.buf[..t.event.n], true))]
      && s.downstreamPrev <= r.downstreamPrev
      && r.downstreamPrev == Assign(cfg, s.downstreamPrev, t.now, t.sample)
      && t.now + cfg.latency + t.sample <= r.downstreamPrev
      && (r.downstreamPrev == s.downstreamPrev || r.downstreamPrev == t.now + cfg.latency + t.sample)
      && r.upstreamPrev == s.upstreamPrev
      && r.upstreamOut == s.upstreamOut && r.downstreamOut == s.downstreamOut
  {
  }

  /** A zero-length read on either side ends the relay cleanly; nothing is
      queued or written and the pending entries are dropped. */
  lemma ZeroReadClosesClean(cfg: Config, s: State, t: Tick)
    requires ValidTick(cfg, t) && s.status == Relaying
    requires (t.event.ReadUpstream? || t.event.ReadDownstream?) && t.event.n == 0
    ensures Step(cfg, s, t) == s.(status := ClosedClean)
  {
  }

  /** An expired entry leaves the queue and its bytes go to exactly the
      socket its tag names; the other socket and both clocks are untouched. */
  lemma ExpiredRoutesByTag(cfg: Config, s: State, t: Tick)
    requires ValidTick(cfg, t) && s.status == Relaying
    requires t.event.Expired? && PollExpired(s.queue, t.now).Ready?
    ensures var p := PollExpired(s.queue, t.now);
            var r := Step(cfg, s, t);
      && r.status == Relaying
      && r.queue == p.rest
      && r.upstreamPrev == s.upstreamPrev && r.downstreamPrev == s.downstreamPrev
      && (p.entry.item.toUpstream ==>
            r.upstreamOut == s.upstreamOut + p.entry.item.bytes && r.downstreamOut == s.downstreamOut)
      && (!p.entry.item.toUpstream ==>
            r.downstreamOut == s.downstreamOut + p.entry.item.bytes && r.upstreamOut == s.upstreamOut)
  {
  }

  /** Should the placeholder ever expire, it is removed and writes zero
      bytes to downstream: neither output changes. */
  lemma PlaceholderWritesNothing(cfg: Config, s: State, t: Tick, openTime: nat)
    requires ValidTick(cfg, t) && s.status == Relaying && t.event.Expired?
    requires PollExpired(s.queue, t.now).Ready? && PollExpired(s.queue, t.now).entry == Placeholder(openTime)
    ensures var r := Step(cfg, s, t);
      && r.status == Relaying
      && |r.queue| == |s.queue| - 1
      && r.upstreamOut == s.upstreamOut && r.downstreamOut == s.downstreamOut
  {
  }

  /** Within a year of opening, the placeholder never leaves the queue, so
      polling never finds it empty and the relay never panics. */
  lemma {:induction false} PlaceholderKeepsQueueNonEmpty(cfg: Config, s: State, ticks: seq<Tick>, openTime: nat)
    requires ValidTicks(cfg, ticks)
    requires Placeholder(openTime) in s.queue && s.status != Panicked
    requires forall i :: 0 <= i < |ticks| ==> ticks[i].now < openTime + PLACEHOLDER_DELAY_MS
    ensures Placeholder(openTime) in Run(cfg, s, ticks).queue
    ensures Run(cfg, s, ticks).status != Panicked
    decreases |ticks|
  {
    if |ticks| > 0 {
      var t := ticks[0];
      var s' := Step(cfg, s, t);
      if s.status == Relaying && t.event.Expired? {
        var q := s.queue;
        var p := PollExpired(q, t.now);
        if p.Ready? {
          var k := Earliest(q);
          var i :| 0 <= i < |q| && q[i] == Placeholder(openTime);
          assert k != i;
          if i < k {
            assert p.rest[i] == q[i];
          } else {
            assert p.rest[i - 1] == q[i];
          }
        }
      }
      assert Placeholder(openTime) in s'.queue && s'.status != Panicked;
      PlaceholderKeepsQueueNonEmpty(cfg, s', ticks[1..], openTime);
    }
  }
}
