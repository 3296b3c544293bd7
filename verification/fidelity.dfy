/** Per-direction ordering and byte fidelity of the relay: what each socket
    receives is, in order, what was read from the other socket, with nothing
    lost, duplicated or reordered. */
module Fidelity {
  import opened Types
  import opened Schedule
  import opened Relay

  /** The bytes an entry contributes to the stream bound for `toUpstream`. */
  function Contribution(e: Entry<Item>, toUpstream: bool): seq<byte>
  {
    if e.item.toUpstream == toUpstream then e.item.bytes else []
  }

  /** The queued bytes bound for one socket, in insertion order. */
  function Pending(q: seq<Entry<Item>>, toUpstream: bool): seq<byte>
    decreases |q|
  {
    if |q| == 0 then [] else Contribution(q[0], toUpstream) + Pending(q[1..], toUpstream)
  }

  /** An entry that carries bytes for the given socket (the placeholder does not). */
  predicate Carries(e: Entry<Item>, toUpstream: bool)
  {
    e.item.toUpstream == toUpstream && |e.item.bytes| > 0
  }

  /** The entries carrying bytes for one socket are queued in release order. */
  predicate Ordered(q: seq<Entry<Item>>, toUpstream: bool)
  {
    forall i, j :: 0 <= i < j < |q| && Carries(q[i], toUpstream) && Carries(q[j], toUpstream) ==>
      q[i].release <= q[j].release
  }

  /** No entry carrying bytes for one socket is due after that direction's clock. */
  predicate Bounded(q: seq<Entry<Item>>, toUpstream: bool, clock: nat)
  {
    forall i :: 0 <= i < |q| && Carries(q[i], toUpstream) ==> q[i].release <= clock
  }

  /** The relay invariant, relative to the bytes `fromUp` read so far from
      upstream and `fromDown` read so far from downstream. While relaying,
      each socket's output followed by the bytes still queued for it is
      exactly what was read from the other socket; once stopped, each output
      is a prefix of it. Segments read from upstream are tagged for
      downstream and use the upstream clock. */
  predicate Inv(s: State, fromUp: seq<byte>, fromDown: seq<byte>)
  {
    && Ordered(s.queue, false) && Ordered(s.queue, true)
    && Bounded(s.queue, false, s.upstreamPrev) && Bounded(s.queue, true, s.downstreamPrev)
    && s.downstreamOut <= fromUp && s.upstreamOut <= fromDown
    && (s.status == Relaying ==>
          && s.downstreamOut + Pending(s.queue, false) == fromUp
          && s.upstreamOut + Pending(s.queue, true) == fromDown)
  }

  /** Events after which the relay no longer runs: a zero-length read or an I/O error. */
  predicate Ends(e: Event)
  {
    e.IoError? || ((e.ReadUpstream? || e.ReadDownstream?) && e.n == 0)
  }

  /** True of a non-empty read from the given side. */
  predicate IsDataRead(e: Event, fromUpstream: bool)
  {
    if fromUpstream then e.ReadUpstream? && e.n > 0 else e.ReadDownstream? && e.n > 0
  }

  /** The bytes one event reads from the given side. */
  function Fresh(e: Event, fromUpstream: bool): seq<byte>
    requires ValidEvent(e)
  {
    if IsDataRead(e, fromUpstream) then e.buf[..e.n] else []
  }

  /** Everything read from one side over a sequence of turns, in read
      order, up to the event that ends the connection. */
  function Captured(ticks: seq<Tick>, fromUpstream: bool): seq<byte>
    requires forall i :: 0 <= i < |ticks| ==> ValidEvent(ticks[i].event)
    decreases |ticks|
  {
    if |ticks| == 0 || Ends(ticks[0].event) then []
    else Fresh(ticks[0].event, fromUpstream) + Captured(ticks[1..], fromUpstream)
  }

  lemma {:induction false} PendingAppend(a: seq<Entry<Item>>, b: seq<Entry<Item>>, toUpstream: bool)
    ensures Pending(a + b, toUpstream) == Pending(a, toUpstream) + Pending(b, toUpstream)
    decreases |a|
  {
    if |a| == 0 {
      assert a + b == b;
    } else {
      assert (a + b)[1..] == a[1..] + b;
      PendingAppend(a[1..], b, toUpstream);
    }
  }

  /** Entries that carry nothing for a socket add nothing to its pending bytes. */
  lemma {:induction false} PendingOfNonCarriers(a: seq<Entry<Item>>, toUpstream: bool)
    requires forall j :: 0 <= j < |a| ==> !Carries(a[j], toUpstream)
    ensures Pending(a, toUpstream) == []
    decreases |a|
  {
    if |a| > 0 {
      PendingOfNonCarriers(a[1..], toUpstream);
    }
  }

  /** Removing any entry keeps a direction's entries ordered and bounded. */
  lemma RemoveKeepsOrder(q: seq<Entry<Item>>, k: nat, toUpstream: bool, clock: nat)
    requires k < |q|
    requires Ordered(q, toUpstream) && Bounded(q, toUpstream, clock)
    ensures Ordered(Remove(q, k), toUpstream) && Bounded(Remove(q, k), toUpstream, clock)
  {
  }

  /** Splitting the pending bytes around the `k`-th entry. */
  lemma PendingAround(q: seq<Entry<Item>>, k: nat, toUpstream: bool)
    requires k < |q|
    ensures Pending(q, toUpstream)
         == Pending(q[..k], toUpstream) + Contribution(q[k], toUpstream) + Pending(q[k + 1..], toUpstream)
    ensures Pending(Remove(q, k), toUpstream)
         == Pending(q[..k], toUpstream) + Pending(q[k + 1..], toUpstream)
  {
    assert q == q[..k] + [q[k]] + q[k + 1..];
    PendingAppend(q[..k] + [q[k]], q[k + 1..], toUpstream);
    PendingAppendOne(q[..k], q[k], toUpstream);
    PendingAppend(q[..k], q[k + 1..], toUpstream);
  }

  /** In a queue ordered for its direction, no entry ahead of the earliest
      one carries bytes of its direction unless the earliest one is empty. */
  lemma NoCarrierAhead(q: seq<Entry<Item>>, k: nat)
    requires IsEarliest(q, k)
    requires Ordered(q, q[k].item.toUpstream) && |q[k].item.bytes| > 0
    ensures forall j :: 0 <= j < |q[..k]| ==> !Carries(q[..k][j], q[k].item.toUpstream)
  {
  }

  /** Removing an entry that carries nothing for a socket leaves its
      pending bytes unchanged. */
  lemma RemoveNonContributor(q: seq<Entry<Item>>, k: nat, toUpstream: bool)
    requires k < |q| && Contribution(q[k], toUpstream) == []
    ensures Pending(Remove(q, k), toUpstream) == Pending(q, toUpstream)
  {
    PendingAround(q, k, toUpstream);
    var ahead := Pending(q[..k], toUpstream);
    assert ahead + [] == ahead;
  }

  /** Removing an entry with nothing for its socket queued ahead of it takes
      its bytes off the front of that socket's pending bytes. */
  lemma RemoveFront(q: seq<Entry<Item>>, k: nat, toUpstream: bool)
    requires k < |q| && Pending(q[..k], toUpstream) == []
    ensures Pending(q, toUpstream) == Contribution(q[k], toUpstream) + Pending(Remove(q, k), toUpstream)
  {
    PendingAround(q, k, toUpstream);
    var c := Contribution(q[k], toUpstream);
    assert [] + c == c;
    assert [] + Pending(q[k + 1..], toUpstream) == Pending(q[k + 1..], toUpstream);
  }

  /** In a queue ordered for its direction, the bytes of the earliest entry
      come first among those queued for its socket, and removing it leaves
      the other socket's pending bytes alone. */
  lemma RemoveEarliestPending(q: seq<Entry<Item>>)
    requires |q| > 0
    requires Ordered(q, false) && Ordered(q, true)
    ensures var k := Earliest(q);
      && Pending(q, q[k].item.toUpstream) == q[k].item.bytes + Pending(Remove(q, k), q[k].item.toUpstream)
      && Pending(q, !q[k].item.toUpstream) == Pending(Remove(q, k), !q[k].item.toUpstream)
  {
    var k := Earliest(q);
    var tag := q[k].item.toUpstream;
    var other := !tag;
    assert Contribution(q[k], other) == [];
    RemoveNonContributor(q, k, other);
    assert Contribution(q[k], tag) == q[k].item.bytes;
    if |q[k].item.bytes| > 0 {
      NoCarrierAhead(q, k);
      PendingOfNonCarriers(q[..k], tag);
      RemoveFront(q, k, tag);
    } else {
      assert Contribution(q[k], tag) == [];
      RemoveNonContributor(q, k, tag);
      assert q[k].item.bytes + Pending(Remove(q, k), tag) == Pending(Remove(q, k), tag);
    }
  }

  /** Appending an entry due no earlier than its direction's queued entries
      keeps the queue ordered and bounded by the advanced clock. */
  lemma AppendOrdered(q: seq<Entry<Item>>, e: Entry<Item>, clock: nat, newClock: nat)
    requires Ordered(q, e.item.toUpstream) && Bounded(q, e.item.toUpstream, clock)
    requires clock <= e.release == newClock
    ensures Ordered(q + [e], e.item.toUpstream) && Bounded(q + [e], e.item.toUpstream, newClock)
  {
  }

  /** Appending an entry for the other socket leaves a direction's order and
      bound untouched. */
  lemma AppendOther(q: seq<Entry<Item>>, e: Entry<Item>, toUpstream: bool, clock: nat)
    requires e.item.toUpstream != toUpstream
    requires Ordered(q, toUpstream) && Bounded(q, toUpstream, clock)
    ensures Ordered(q + [e], toUpstream) && Bounded(q + [e], toUpstream, clock)
  {
  }

  lemma PendingAppendOne(q: seq<Entry<Item>>, e: Entry<Item>, toUpstream: bool)
    ensures Pending(q + [e], toUpstream) == Pending(q, toUpstream) + Contribution(e, toUpstream)
  {
    PendingAppend(q, [e], toUpstream);
    assert [e][1..] == [];
  }

  /** Delivering an item whose bytes lead its socket's pending bytes, from
      a queue that is ordered and bounded, keeps the invariant. */
  lemma DeliverKeepsInv(s: State, rest: seq<Entry<Item>>, item: Item, fromUp: seq<byte>, fromDown: seq<byte>)
    requires s.status == Relaying && Inv(s, fromUp, fromDown)
    requires Ordered(rest, false) && Ordered(rest, true)
    requires Bounded(rest, false, s.upstreamPrev) && Bounded(rest, true, s.downstreamPrev)
    requires Pending(s.queue, item.toUpstream) == item.bytes + Pending(rest, item.toUpstream)
    requires Pending(s.queue, !item.toUpstream) == Pending(rest, !item.toUpstream)
    ensures Inv(Deliver(s.(queue := rest), item), fromUp, fromDown)
  {
    var r := Deliver(s.(queue := rest), item);
    if item.toUpstream {
      assert r.upstreamOut + Pending(rest, true) == s.upstreamOut + (item.bytes + Pending(rest, true));
    } else {
      assert r.downstreamOut + Pending(rest, false) == s.downstreamOut + (item.bytes + Pending(rest, false));
    }
  }

  /** Delivering the earliest due entry keeps the invariant. */
  lemma ExpireKeepsInv(s: State, now: nat, fromUp: seq<byte>, fromDown: seq<byte>)
    requires s.status == Relaying && Inv(s, fromUp, fromDown)
    requires PollExpired(s.queue, now).Ready?
    ensures Inv(Deliver(s.(queue := PollExpired(s.queue, now).rest), PollExpired(s.queue, now).entry.item), fromUp, fromDown)
  {
    var q := s.queue;
    var k := Earliest(q);
    RemoveKeepsOrder(q, k, false, s.upstreamPrev);
    RemoveKeepsOrder(q, k, true, s.downstreamPrev);
    RemoveEarliestPending(q);
    DeliverKeepsInv(s, Remove(q, k), q[k].item, fromUp, fromDown);
  }

  /** Queuing a segment at its direction's advanced clock, with the other
      clock and both outputs unchanged, keeps the invariant, the history of
      the side it was read from growing by its bytes. */
  lemma ScheduleKeepsInv(s: State, r: State, e: Entry<Item>, fromUp: seq<byte>, fromDown: seq<byte>)
    requires s.status == Relaying && Inv(s, fromUp, fromDown)
    requires r.status == Relaying && r.queue == s.queue + [e]
    requires r.upstreamOut == s.upstreamOut && r.downstreamOut == s.downstreamOut
    requires e.item.toUpstream ==>
               s.downstreamPrev <= e.release == r.downstreamPrev && r.upstreamPrev == s.upstreamPrev
    requires !e.item.toUpstream ==>
               s.upstreamPrev <= e.release == r.upstreamPrev && r.downstreamPrev == s.downstreamPrev
    ensures e.item.toUpstream ==> Inv(r, fromUp, fromDown + e.item.bytes)
    ensures !e.item.toUpstream ==> Inv(r, fromUp + e.item.bytes, fromDown)
  {
    var tag := e.item.toUpstream;
    if tag {
      AppendOrdered(s.queue, e, s.downstreamPrev, r.downstreamPrev);
      AppendOther(s.queue, e, false, s.upstreamPrev);
    } else {
      AppendOrdered(s.queue, e, s.upstreamPrev, r.upstreamPrev);
      AppendOther(s.queue, e, true, s.downstreamPrev);
    }
    PendingAppendOne(s.queue, e, false);
    PendingAppendOne(s.queue, e, true);
  }

  /** One turn that does not end the connection keeps the invariant, the
      read history growing by what the turn read. */
  lemma StepPreservesInv(cfg: Config, s: State, t: Tick, fromUp: seq<byte>, fromDown: seq<byte>)
    requires ValidTick(cfg, t) && !Ends(t.event)
    requires Inv(s, fromUp, fromDown)
    ensures Inv(Step(cfg, s, t), fromUp + Fresh(t.event, true), fromDown + Fresh(t.event, false))
  {
    var r := Step(cfg, s, t);
    var up' := fromUp + Fresh(t.event, true);
    var down' := fromDown + Fresh(t.event, false);
    if s.status != Relaying {
      assert r == s;
    } else {
      match t.event
      case ReadUpstream(buf, n) =>
        ReadUpstreamSchedules(cfg, s, t);
        ScheduleKeepsInv(s, r, Entry(r.upstreamPrev, Item(buf[..n], false)), fromUp, fromDown);
        assert Fresh(t.event, true) == buf[..n] && Fresh(t.event, false) == [];
      case ReadDownstream(buf, n) =>
        ReadDownstreamSchedules(cfg, s, t);
        ScheduleKeepsInv(s, r, Entry(r.downstreamPrev, Item(buf[..n], true)), fromUp, fromDown);
        assert Fresh(t.event, true) == [] && Fresh(t.event, false) == buf[..n];
      case Expired =>
        assert Fresh(t.event, true) == [] && Fresh(t.event, false) == [];
        assert up' == fromUp && down' == fromDown;
        var p := PollExpired(s.queue, t.now);
        if p.Ready? {
          ExpireKeepsInv(s, t.now, fromUp, fromDown);
        }
    }
  }

  /** A turn whose event ends the connection keeps the invariant with the
      read history unchanged. */
  lemma EndingStepPreservesInv(cfg: Config, s: State, t: Tick, fromUp: seq<byte>, fromDown: seq<byte>)
    requires ValidTick(cfg, t) && Ends(t.event)
    requires Inv(s, fromUp, fromDown)
    ensures Step(cfg, s, t).status != Relaying
    ensures Inv(Step(cfg, s, t), fromUp, fromDown)
  {
  }

  /** The invariant holds over any sequence of turns, relative to everything
      captured from each side. */
  lemma {:induction false} RunPreservesInv(cfg: Config, s: State, ticks: seq<Tick>, fromUp: seq<byte>, fromDown: seq<byte>)
    requires ValidTicks(cfg, ticks)
    requires Inv(s, fromUp, fromDown)
    ensures Inv(Run(cfg, s, ticks), fromUp + Captured(ticks, true), fromDown + Captured(ticks, false))
    decreases |ticks|
  {
    if |ticks| == 0 {
      assert fromUp + [] == fromUp && fromDown + [] == fromDown;
    } else {
      var t := ticks[0];
      var s' := Step(cfg, s, t);
      if Ends(t.event) {
        EndingStepPreservesInv(cfg, s, t, fromUp, fromDown);
        assert Run(cfg, s', ticks[1..]) == s';
        assert fromUp + [] == fromUp && fromDown + [] == fromDown;
      } else {
        StepPreservesInv(cfg, s, t, fromUp, fromDown);
        var up' := fromUp + Fresh(t.event, true);
        var down' := fromDown + Fresh(t.event, false);
        RunPreservesInv(cfg, s', ticks[1..], up', down');
        assert up' + Captured(ticks[1..], true) == fromUp + Captured(ticks, true);
        assert down' + Captured(ticks[1..], false) == fromDown + Captured(ticks, false);
      }
    }
  }

  /** A fresh connection satisfies the invariant with nothing read. */
  lemma InitInv(openTime: nat)
    ensures Inv(Init(openTime), [], [])
    ensures Placeholder(openTime) in Init(openTime).queue
    ensures Init(openTime).upstreamPrev == openTime && Init(openTime).downstreamPrev == openTime
    ensures Pending(Init(openTime).queue, false) == [] && Pending(Init(openTime).queue, true) == []
  {
  }

  /** Whatever happens on the connection, the bytes written to each socket
      are a prefix of the bytes read from the other one, in read order:
      nothing is duplicated, reordered or invented. */
  lemma DeliveredIsPrefix(cfg: Config, openTime: nat, ticks: seq<Tick>)
    requires ValidTicks(cfg, ticks)
    ensures Run(cfg, Init(openTime), ticks).downstreamOut <= Captured(ticks, true)
    ensures Run(cfg, Init(openTime), ticks).upstreamOut <= Captured(ticks, false)
  {
    InitInv(openTime);
    RunPreservesInv(cfg, Init(openTime), ticks, [], []);
    assert [] + Captured(ticks, true) == Captured(ticks, true);
    assert [] + Captured(ticks, false) == Captured(ticks, false);
  }

  /** While the connection is still open nothing is lost either: each
      socket's output followed by what is still queued for it is exactly what
      was read from the other side. */
  lemma NothingLostWhileRelaying(cfg: Config, openTime: nat, ticks: seq<Tick>)
    requires ValidTicks(cfg, ticks)
    requires Run(cfg, Init(openTime), ticks).status == Relaying
    ensures var r := Run(cfg, Init(openTime), ticks);
      && r.downstreamOut + Pending(r.queue, false) == Captured(ticks, true)
      && r.upstreamOut + Pending(r.queue, true) == Captured(ticks, false)
  {
    InitInv(openTime);
    RunPreservesInv(cfg, Init(openTime), ticks, [], []);
    assert [] + Captured(ticks, true) == Captured(ticks, true);
    assert [] + Captured(ticks, false) == Captured(ticks, false);
  }

  /** Entries bound for one socket that are queued one after another are
      released in that order. */
  lemma QueuedInReleaseOrder(cfg: Config, openTime: nat, ticks: seq<Tick>, toUpstream: bool)
    requires ValidTicks(cfg, ticks)
    ensures Ordered(Run(cfg, Init(openTime), ticks).queue, toUpstream)
  {
    InitInv(openTime);
    RunPreservesInv(cfg, Init(openTime), ticks, [], []);
  }
}
