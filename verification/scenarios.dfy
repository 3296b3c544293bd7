/** Two concrete connections worked through the model: segments "A" then
    "B" read from upstream one millisecond apart, released to downstream in
    read order. */
module Scenarios {
  import opened Types
  import opened Clock
  import opened Schedule
  import opened Relay

  /** A read buffer whose first byte is `b`; the rest is stale zeroes. */
  function BufferWith(b: byte): (buf: seq<byte>)
    ensures |buf| == BUF_SIZE && buf[..1] == [b]
  {
    seq(BUF_SIZE, i => if i == 0 then b else 0)
  }

  const A: byte := 65
  const B: byte := 66

  /** A state with "A" then "B" queued for downstream behind the placeholder. */
  function Queued(clock: nat, releaseA: nat, releaseB: nat): State
  {
    State(clock, 0, [Placeholder(0), Entry(releaseA, Item([A], false)), Entry(releaseB, Item([B], false))],
          [], [], Relaying)
  }

  /** Reads "A" at 0 with sample `sa`, then "B" at 1 with sample `sb`. */
  function TwoReads(sa: nat, sb: nat): seq<Tick>
  {
    [Tick(ReadUpstream(BufferWith(A), 1), 0, sa), Tick(ReadUpstream(BufferWith(B), 1), 1, sb)]
  }

  /** Two expirations at `t1` and `t2`. */
  function TwoExpiries(t1: nat, t2: nat): seq<Tick>
  {
    [Tick(Expired, t1, 0), Tick(Expired, t2, 0)]
  }

  lemma RunTwo(cfg: Config, s: State, ticks: seq<Tick>)
    requires |ticks| == 2 && ValidTicks(cfg, ticks)
    ensures Run(cfg, s, ticks) == Step(cfg, Step(cfg, s, ticks[0]), ticks[1])
  {
    var s1 := Step(cfg, s, ticks[0]);
    assert ticks[1..][0] == ticks[1] && ticks[1..][1..] == [];
    assert Run(cfg, s, ticks) == Run(cfg, s1, ticks[1..]);
    assert Run(cfg, s1, ticks[1..]) == Run(cfg, Step(cfg, s1, ticks[1]), []);
  }

  /** With "A" due no later than "B" and by `now`, one expiration delivers
      "A" and leaves "B" queued. */
  lemma ExpireA(cfg: Config, releaseA: nat, releaseB: nat, now: nat)
    requires releaseA <= releaseB < PLACEHOLDER_DELAY_MS && releaseA <= now
    ensures Step(cfg, Queued(releaseB, releaseA, releaseB), Tick(Expired, now, 0))
         == State(releaseB, 0, [Placeholder(0), Entry(releaseB, Item([B], false))], [], [A], Relaying)
  {
    var q := Queued(releaseB, releaseA, releaseB).queue;
    assert IsEarliest(q, 1);
    EarliestUnique(q, 1);
  }

  /** With only "B" queued and due, one expiration delivers it. */
  lemma ExpireB(cfg: Config, releaseB: nat, now: nat)
    requires releaseB <= now < PLACEHOLDER_DELAY_MS
    ensures Step(cfg, State(releaseB, 0, [Placeholder(0), Entry(releaseB, Item([B], false))], [], [A], Relaying),
                 Tick(Expired, now, 0))
         == State(releaseB, 0, [Placeholder(0)], [], [A, B], Relaying)
  {
  }

  /** Base latency 50 ms and no jitter: "A" read at 0 is due at 50 and "B"
      read at 1 is due at 51. */
  lemma FixedLatencyReads()
    ensures Run(Config(50, 0), Init(0), TwoReads(0, 0)) == Queued(51, 50, 51)
  {
  }

  /** Expiring at 50 and then at 51 delivers "AB" to downstream and nothing
      to upstream. */
  lemma FixedLatencyScenario()
    ensures Run(Config(50, 0), Run(Config(50, 0), Init(0), TwoReads(0, 0)), TwoExpiries(50, 51)).downstreamOut == [A, B]
    ensures Run(Config(50, 0), Run(Config(50, 0), Init(0), TwoReads(0, 0)), TwoExpiries(50, 51)).upstreamOut == []
  {
    var cfg := Config(50, 0);
    FixedLatencyReads();
    RunTwo(cfg, Queued(51, 50, 51), TwoExpiries(50, 51));
    ExpireA(cfg, 50, 51, 50);
    ExpireB(cfg, 51, 51);
  }

  /** Base latency 50 ms, jitter 100 ms: "A" read at 0 samples 100 and is
      due at 150; "B" read at 1 samples 20, whose sampled time 71 would
      overtake "A", so it is widened to 150. */
  lemma WideningReads()
    ensures Run(Config(50, 100), Init(0), TwoReads(100, 20)) == Queued(150, 150, 150)
  {
  }

  /** Both segments leave at 150, "A" first. */
  lemma WideningScenario()
    ensures Run(Config(50, 100), Run(Config(50, 100), Init(0), TwoReads(100, 20)), TwoExpiries(150, 150)).downstreamOut == [A, B]
  {
    var cfg := Config(50, 100);
    WideningReads();
    RunTwo(cfg, Queued(150, 150, 150), TwoExpiries(150, 150));
    ExpireA(cfg, 150, 150, 150);
    ExpireB(cfg, 150, 150);
  }

  /** The same two reads at the level of the upstream clock alone. */
  lemma WideningReleases()
    ensures Releases(Config(50, 100), 0, [Sample(0, 100), Sample(1, 20)]) == [150, 150]
  {
  }
}
