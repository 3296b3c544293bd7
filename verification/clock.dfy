/** The delay generator and the per-direction clock: the `random_delay`
    closure of the relay, with the random sample and the current time
    passed in as parameters. */
module Clock {
  import opened Types

  /** The one-way delay of a segment: the base latency plus a sample drawn
      from `0..=jitter`. */
  function Delay(cfg: Config, sample: nat): (d: nat)
    requires sample <= cfg.jitter
    ensures cfg.latency <= d <= cfg.latency + cfg.jitter
  {
    cfg.latency + sample
  }

  /** Every delay in `[latency, latency + jitter]` is produced by some sample. */
  lemma DelayCoversRange(cfg: Config, d: nat)
    requires cfg.latency <= d <= cfg.latency + cfg.jitter
    ensures exists sample: nat :: sample <= cfg.jitter && Delay(cfg, sample) == d
  {
    assert Delay(cfg, d - cfg.latency) == d;
  }

  /** Assigns a release time to a segment read at `now` in a direction whose
      clock stands at `prev`; the result is also the clock's new value. */
  function Assign(cfg: Config, prev: nat, now: nat, sample: nat): (release: nat)
    requires sample <= cfg.jitter
    ensures prev <= release
    ensures now + Delay(cfg, sample) <= release
    ensures release == prev || release == now + Delay(cfg, sample)
    ensures now + cfg.latency <= release
    ensures release == prev || release <= now + cfg.latency + cfg.jitter
  {
    var candidate := now + Delay(cfg, sample);
    if prev < candidate then candidate else prev
  }

  /** The assigned release time is the earliest instant that is neither
      before the previous release in the same direction nor before the
      sampled time. */
  lemma AssignIsLeast(cfg: Config, prev: nat, now: nat, sample: nat, t: nat)
    requires sample <= cfg.jitter
    requires prev <= t && now + Delay(cfg, sample) <= t
    ensures Assign(cfg, prev, now, sample) <= t
  {
  }

  /** Widening: when the sampled time falls before the previous release,
      the segment gets exactly the previous release time and the clock does
      not move; otherwise it gets its sampled time. */
  lemma AssignWidening(cfg: Config, prev: nat, now: nat, sample: nat)
    requires sample <= cfg.jitter
    ensures now + Delay(cfg, sample) < prev ==> Assign(cfg, prev, now, sample) == prev
    ensures prev <= now + Delay(cfg, sample) ==> Assign(cfg, prev, now, sample) == now + Delay(cfg, sample)
  {
  }

  /** The time and random sample of one read. */
  datatype Sample = Sample(now: nat, sample: nat)

  predicate Admissible(cfg: Config, samples: seq<Sample>)
  {
    forall i :: 0 <= i < |samples| ==> samples[i].sample <= cfg.jitter
  }

  /** The release times the clock assigns to a run of reads in one
      direction, starting from clock value `prev`. Whatever the samples,
      even when a later read draws a smaller delay than an earlier one, the
      times never decrease in read order. */
  function Releases(cfg: Config, prev: nat, samples: seq<Sample>): (rs: seq<nat>)
    requires Admissible(cfg, samples)
    ensures |rs| == |samples|
    ensures forall i :: 0 <= i < |rs| ==> prev <= rs[i]
    ensures forall i, j :: 0 <= i <= j < |rs| ==> rs[i] <= rs[j]
    ensures forall i :: 0 <= i < |rs| ==> samples[i].now + cfg.latency <= rs[i]
    ensures forall i :: 0 <= i < |rs| ==> samples[i].now + Delay(cfg, samples[i].sample) <= rs[i]
    ensures |rs| > 0 ==> rs[0] == prev || rs[0] == samples[0].now + Delay(cfg, samples[0].sample)
    ensures forall i :: 0 < i < |rs| ==>
              rs[i] == rs[i - 1] || rs[i] == samples[i].now + Delay(cfg, samples[i].sample)
    decreases |samples|
  {
    if |samples| == 0 then []
    else
      var r := Assign(cfg, prev, samples[0].now, samples[0].sample);
      [r] + Releases(cfg, r, samples[1..])
  }
}
