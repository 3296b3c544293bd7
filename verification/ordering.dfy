/** Per-direction ordering of release times over a whole connection: the
    release times the relay assigns to one side's segments are exactly what
    that side's clock produces from the reads' times and samples, so they
    never decrease in read order. */
module Ordering {
  import opened Types
  import opened Clock
  import opened Relay
  import opened Fidelity

  /** The release times of the entries the relay queues, in read order, for
      the segments read from one side: each non-empty read appends one entry
      to the queue, and this takes that entry's release time. */
  function Assigned(cfg: Config, s: State, ticks: seq<Tick>, fromUpstream: bool): (rs: seq<nat>)
    requires ValidTicks(cfg, ticks)
    ensures forall i :: 0 <= i < |rs| ==> Prev(s, fromUpstream) <= rs[i]
    ensures forall i, j :: 0 <= i <= j < |rs| ==> rs[i] <= rs[j]
    ensures forall i :: 0 <= i < |rs| ==> rs[i] <= Prev(Run(cfg, s, ticks), fromUpstream)
    decreases |ticks|
  {
    if |ticks| == 0 then []
    else
      var s' := Step(cfg, s, ticks[0]);
      var head := if s.status == Relaying && IsDataRead(ticks[0].event, fromUpstream)
                  then [s'.queue[|s.queue|].release] else [];
      head + Assigned(cfg, s', ticks[1..], fromUpstream)
  }

  /** The time and sample of each non-empty read from one side, in read
      order, up to the event that ends the connection. */
  function ReadSamples(cfg: Config, ticks: seq<Tick>, fromUpstream: bool): (samples: seq<Sample>)
    requires ValidTicks(cfg, ticks)
    ensures Admissible(cfg, samples)
    decreases |ticks|
  {
    if |ticks| == 0 || Ends(ticks[0].event) then []
    else
      var head := if IsDataRead(ticks[0].event, fromUpstream)
                  then [Sample(ticks[0].now, ticks[0].sample)] else [];
      head + ReadSamples(cfg, ticks[1..], fromUpstream)
  }

  /** A stopped relay assigns nothing more. */
  lemma {:induction false} AssignedAfterStop(cfg: Config, s: State, ticks: seq<Tick>, fromUpstream: bool)
    requires ValidTicks(cfg, ticks) && s.status != Relaying
    ensures Assigned(cfg, s, ticks, fromUpstream) == []
    decreases |ticks|
  {
    if |ticks| > 0 {
      AssignedAfterStop(cfg, s, ticks[1..], fromUpstream);
    }
  }

  /** One turn that does not end the connection either keeps relaying or
      panics; a non-empty read from a side advances that side's clock to the
      release time `Assign` computes, and any other turn leaves it alone. */
  lemma StepClock(cfg: Config, s: State, t: Tick, fromUpstream: bool)
    requires ValidTick(cfg, t) && s.status == Relaying && !Ends(t.event)
    ensures Step(cfg, s, t).status == Relaying || Step(cfg, s, t).status == Panicked
    ensures IsDataRead(t.event, fromUpstream) ==>
              Prev(Step(cfg, s, t), fromUpstream) == Assign(cfg, Prev(s, fromUpstream), t.now, t.sample)
    ensures !IsDataRead(t.event, fromUpstream) ==>
              Prev(Step(cfg, s, t), fromUpstream) == Prev(s, fromUpstream)
  {
  }

  lemma ReleasesCons(cfg: Config, prev: nat, sm: Sample, tail: seq<Sample>)
    requires sm.sample <= cfg.jitter && Admissible(cfg, tail)
    ensures Admissible(cfg, [sm] + tail)
    ensures Releases(cfg, prev, [sm] + tail)
         == [Assign(cfg, prev, sm.now, sm.sample)] + Releases(cfg, Assign(cfg, prev, sm.now, sm.sample), tail)
  {
    assert ([sm] + tail)[0] == sm && ([sm] + tail)[1..] == tail;
  }

  /** The inductive step of `AssignedIsReleases`: if the turns after the
      first agree with the clock, so do all of them. */
  lemma AssignedIsReleasesStep(cfg: Config, s: State, ticks: seq<Tick>, fromUpstream: bool)
    requires ValidTicks(cfg, ticks) && |ticks| > 0 && !Ends(ticks[0].event)
    requires s.status == Relaying
    requires Assigned(cfg, Step(cfg, s, ticks[0]), ticks[1..], fromUpstream)
          == Releases(cfg, Prev(Step(cfg, s, ticks[0]), fromUpstream), ReadSamples(cfg, ticks[1..], fromUpstream))
    ensures Assigned(cfg, s, ticks, fromUpstream)
         == Releases(cfg, Prev(s, fromUpstream), ReadSamples(cfg, ticks, fromUpstream))
  {
    var t := ticks[0];
    var s' := Step(cfg, s, t);
    var rest := ticks[1..];
    var tail := ReadSamples(cfg, rest, fromUpstream);
    StepClock(cfg, s, t, fromUpstream);
    if IsDataRead(t.event, fromUpstream) {
      var sm := Sample(t.now, t.sample);
      assert ReadSamples(cfg, ticks, fromUpstream) == [sm] + tail;
      assert s'.queue[|s.queue|].release == Prev(s', fromUpstream);
      assert Assigned(cfg, s, ticks, fromUpstream) == [Prev(s', fromUpstream)] + Assigned(cfg, s', rest, fromUpstream);
      ReleasesCons(cfg, Prev(s, fromUpstream), sm, tail);
    } else {
      assert ReadSamples(cfg, ticks, fromUpstream) == [] + tail;
      assert Assigned(cfg, s, ticks, fromUpstream) == [] + Assigned(cfg, s', rest, fromUpstream);
      assert [] + tail == tail;
      assert [] + Assigned(cfg, s', rest, fromUpstream) == Assigned(cfg, s', rest, fromUpstream);
    }
  }

  /** Unless the relay panics, the release times it assigns to one side's
      segments are those the side's clock computes from the reads alone:
      each is the later of the previous one and the read's sampled time, and
      the other side's traffic has no influence on them. */
  lemma {:induction false} AssignedIsReleases(cfg: Config, s: State, ticks: seq<Tick>, fromUpstream: bool)
    requires ValidTicks(cfg, ticks)
    requires s.status == Relaying && Run(cfg, s, ticks).status != Panicked
    ensures Assigned(cfg, s, ticks, fromUpstream)
         == Releases(cfg, Prev(s, fromUpstream), ReadSamples(cfg, ticks, fromUpstream))
    decreases |ticks|
  {
    if |ticks| > 0 {
      var t := ticks[0];
      var s' := Step(cfg, s, t);
      var rest := ticks[1..];
      assert ValidTick(cfg, t);
      assert Run(cfg, s, ticks) == Run(cfg, s', rest);
      if Ends(t.event) {
        AssignedAfterStop(cfg, s', rest, fromUpstream);
        assert !IsDataRead(t.event, fromUpstream);
        assert Assigned(cfg, s, ticks, fromUpstream) == [] + Assigned(cfg, s', rest, fromUpstream);
      } else {
        StepClock(cfg, s, t, fromUpstream);
        assert s'.status == Relaying;
        AssignedIsReleases(cfg, s', rest, fromUpstream);
        AssignedIsReleasesStep(cfg, s, ticks, fromUpstream);
      }
    }
  }

  /** For a connection observed within a year of opening, each side's
      release times are its clock's, starting from the opening time: never
      before `now + latency`, never decreasing in read order, and widened
      only to the previous release of the same side. */
  lemma ConnectionReleases(cfg: Config, openTime: nat, ticks: seq<Tick>, fromUpstream: bool)
    requires ValidTicks(cfg, ticks)
    requires forall i :: 0 <= i < |ticks| ==> ticks[i].now < openTime + PLACEHOLDER_DELAY_MS
    ensures Assigned(cfg, Init(openTime), ticks, fromUpstream)
         == Releases(cfg, openTime, ReadSamples(cfg, ticks, fromUpstream))
  {
    PlaceholderKeepsQueueNonEmpty(cfg, Init(openTime), ticks, openTime);
    AssignedIsReleases(cfg, Init(openTime), ticks, fromUpstream);
  }
}
