# tcpdelay relay core in Dafny

This project models the per-connection latency scheduler of `tcpdelay`. That is a TCP proxy that delays every
segment it forwards by a base latency plus random jitter, and it never reorders a direction's bytes.

The model has two parts:

- **The direction clock.** This is the `random_delay` closure. It adds `latency` and a sample from `0..=jitter` to the
  current time. The segment gets the later of that time and the previous release time in the same direction, and
  that later time becomes the clock's new value.
- **The relay step machine.** This is the body of the `select!` loop, handling one event per step. A step is a
  non-empty or zero-length read from upstream or from downstream, an expiration of the delay queue, or an I/O
  error. The state holds the two clocks (`upstream_prev`, `downstream_prev`), the queue of
  `(release time, Item{bytes, to_upstream})` entries seeded with the one-year placeholder, the bytes written so far
  to each socket, and a status.

Time is a `nat` number of milliseconds. The current time, the random sample and the bytes a read returns are inputs
of each step. Writes are appends to one output stream per socket.

Modules, leaf first:

- `Types` (`types.dfy`): the `byte` type, `Config`, the 1024-byte buffer size and the 365-day placeholder delay.
- `Clock` (`clock.dfy`): `Delay`, `Assign` (the closure), and `Releases`. `Releases` is the clock run over a
  sequence of reads.
- `Schedule` (`schedule.dfy`): the delay queue as a sequence in insertion order. `PollExpired` takes out the
  earliest entry, with ties going to the entry inserted first, once it is due.
- `Relay` (`relay.dfy`): `State`, `Init`, `Step` and `Run`, plus lemmas about single steps.
- `Fidelity` (`fidelity.dfy`): the invariant tying each output to what the other side read, and the prefix theorem.
- `Ordering` (`ordering.dfy`): the release times the relay assigns are exactly the clock's `Releases`.
- `Scenarios` (`scenarios.dfy`): two worked connections. One has 50 ms of latency and no jitter. The other shows
  widening under 100 ms of jitter: "B" read at 1 with sample 20 has sampled time 1 + 50 + 20 = 71, and it is
  widened to "A"'s 150.

Two points about the code that the model keeps as written:

- `upstream_prev` is the clock for segments read *from* upstream (src/main.rs:86-89), which are delivered to
  downstream; `downstream_prev` is the clock for segments read from downstream (src/main.rs:97-100).
  `Prev(s, fromUpstream)` selects a clock by the side that was read.
- The placeholder is tagged `to_upstream = false` (src/main.rs:68), so if it expired an empty write would go to
  downstream. `PlaceholderWritesNothing` shows that this write changes neither output.

## Model

| member | source | states |
|---|---|---|
| `Clock.Delay` | src/main.rs:36-37 | the one-way delay is `latency` plus a sample, so it lies in `[latency, latency + jitter]` |
| `Clock.DelayCoversRange` | src/main.rs:37 | every delay in `[latency, latency + jitter]` comes from some sample in `0..=jitter` |
| `Clock.Assign` | src/main.rs:35-41 | the release time is no earlier than `prev` and no earlier than `now + latency + s`, and it equals one of the two; it is at least `now + latency`, and unless it equals `prev` it is at most `now + latency + jitter` |
| `Clock.AssignIsLeast` | src/main.rs:38-40 | the release time is the least instant satisfying both lower bounds, which is `max(prev, now + latency + s)` |
| `Clock.AssignWidening` | src/main.rs:39-40 | when the sampled time is before `prev`, the release time is exactly `prev` and the clock stays put; otherwise it is the sampled time |
| `Clock.Releases` | src/main.rs:35-41 | for any samples, including adversarial ones, a direction's release times never decrease in read order and never precede the opening clock value; each is no earlier than its own sampled time `now + latency + s` and equals either that or the previous release, so it is exactly `max(previous, now + latency + s)` |
| `Schedule.Earliest` | src/main.rs:102-105 | the entry that expires next has the minimal release time, and every entry inserted before it is due strictly later (stable extraction, assumed) |
| `Schedule.EarliestUnique` | src/main.rs:102-105 | exactly one index satisfies the extraction rule, so the order in which entries expire is determined |
| `Schedule.Remove` | src/main.rs:105 | taking an entry out leaves all the other entries in their order |
| `Schedule.PollExpired` | src/main.rs:102-105 | polling an empty queue answers at once with nothing; a non-empty queue is pending exactly while every entry is still in the future; otherwise it yields the earliest entry, which is due and no later than any entry left |
| `Relay.Step` | src/main.rs:78-113 | a stopped relay never changes and never resumes; clocks never move back; outputs only grow; a non-empty read keeps every queued entry and appends exactly one, due at the read side's new clock value |
| `Relay.Run` | src/main.rs:78-114 | the same four facts over any sequence of turns |
| `Relay.Placeholder` | src/main.rs:64-71 | the never-empty entry carries no bytes, is tagged for downstream, and is due 365 days after the connection opens |
| `Relay.Init` | src/main.rs:62-76 | a fresh connection is relaying, has both clocks at the opening time, has only the placeholder queued, and has written nothing |
| `Relay.Deliver` | src/main.rs:106-110 | an item's bytes are appended to upstream's output exactly when it is tagged `to_upstream`, otherwise to downstream's; the other output, the queue and the clocks are unchanged |
| `Relay.ReadUpstreamSchedules` | src/main.rs:80-90 | a read of `n >= 1` bytes from upstream queues exactly `buf[..n]` (1 to 1024 bytes), tagged `to_upstream = false`, at `Assign(upstream_prev, now, s)` = `max(upstream_prev, now + latency + s)`, which becomes `upstream_prev`; `downstream_prev` and both outputs are unchanged |
| `Relay.ReadDownstreamSchedules` | src/main.rs:91-101 | a read of `n >= 1` bytes from downstream queues exactly `buf[..n]`, tagged `to_upstream = true`, at `max(downstream_prev, now + latency + s)`, which becomes `downstream_prev`; `upstream_prev` and both outputs are unchanged |
| `Relay.ZeroReadClosesClean` | src/main.rs:80-101 | a zero-length read on either side ends the relay cleanly, queuing and writing nothing |
| `Relay.ExpiredRoutesByTag` | src/main.rs:102-111 | an expired entry leaves the queue, and its bytes go to upstream exactly when its tag says `to_upstream`, otherwise to downstream; the other output and both clocks are unchanged |
| `Relay.PlaceholderWritesNothing` | src/main.rs:64-71 | if the placeholder ever expired, it would leave the queue and change neither output |
| `Relay.PlaceholderKeepsQueueNonEmpty` | src/main.rs:64-71 | while every turn happens within a year of opening, the placeholder stays queued, so no poll finds the queue empty and the relay never panics |
| `Fidelity.InitInv` | src/main.rs:62-76 | a fresh connection satisfies the invariant with nothing read, has nothing pending for either socket, has both clocks at the opening time, and has the placeholder queued |
| `Fidelity.ExpireKeepsInv` | src/main.rs:102-111 | delivering the earliest due entry moves its bytes from the front of its socket's pending bytes to that socket's output |
| `Fidelity.ScheduleKeepsInv` | src/main.rs:86-100 | queuing a segment at its direction's advanced clock keeps the invariant, with the history of the side it was read from extended by exactly its bytes |
| `Fidelity.StepPreservesInv` | src/main.rs:78-113 | every turn that does not end the connection keeps each direction's queued entries ordered and bounded by its clock, and keeps each output plus its pending bytes equal to what the other side read |
| `Fidelity.EndingStepPreservesInv` | src/main.rs:80-111 | a zero-length read or an I/O error stops the relay, and each output remains a prefix of what the other side read |
| `Fidelity.RunPreservesInv` | src/main.rs:78-114 | the invariant holds over any sequence of turns, relative to everything captured from each side up to the ending event |
| `Fidelity.DeliveredIsPrefix` | src/main.rs:86-110 | the bytes written to downstream are a prefix of the bytes read from upstream in read order, and symmetrically: nothing duplicated, reordered or invented |
| `Fidelity.NothingLostWhileRelaying` | src/main.rs:86-110 | while open, each socket's output followed by its still-queued bytes is exactly what the other side read |
| `Fidelity.QueuedInReleaseOrder` | src/main.rs:86-100 | in every reachable state, one direction's queued segments are due in the order they were read |
| `Ordering.Assigned` | src/main.rs:86-100 | the release times of the entries queued for one side's segments never decrease in read order and lie between the starting clock and the final clock |
| `Ordering.ReadSamples` | src/main.rs:37-38 | the samples of one side's reads, up to the ending event, all lie in `0..=jitter` |
| `Ordering.AssignedAfterStop` | src/main.rs:80-111 | after the relay stops, whether on a zero-length read or on an error exit, no further segment is scheduled |
| `Ordering.StepClock` | src/main.rs:86-100 | on a turn that keeps the relay running, a non-empty read moves its own side's clock as `Assign` computes, and every other such turn leaves that clock alone, so each direction is unaffected by the other |
| `Ordering.AssignedIsReleases` | src/main.rs:75-100 | unless the relay panics, the release times of the entries queued for one side are exactly the clock's `Releases` over that side's reads alone |
| `Ordering.ConnectionReleases` | src/main.rs:64-100 | within a year of opening, each side's assigned release times are its clock's, started at the opening time |
| `Scenarios.FixedLatencyReads` | src/main.rs:35-41 | with latency 50 and jitter 0, "A" read from upstream at 0 and "B" at 1 are queued for downstream at 50 and 51, behind the placeholder |
| `Scenarios.FixedLatencyScenario` | src/main.rs:86-110 | expiring at 50 and then at 51 writes "AB" to downstream and nothing to upstream |
| `Scenarios.WideningReads` | src/main.rs:35-41 | with latency 50 and jitter 100, "A" sampling 100 is due at 150; "B"'s sampled time 71 is widened to 150 |
| `Scenarios.WideningScenario` | src/main.rs:86-110 | two expirations at 150 write "A" before "B" to downstream, the equal times being broken by read order |
| `Scenarios.ExpireA` | src/main.rs:102-110 | with "A" due and no later than "B", an expiration writes "A" to downstream and leaves "B" and the placeholder queued |
| `Scenarios.ExpireB` | src/main.rs:102-110 | with "B" due, an expiration writes it after "A", leaving only the placeholder |
| `Scenarios.WideningReleases` | src/main.rs:35-41 | the upstream clock alone gives release times `[150, 150]` for the same reads |

## Left out

- Sockets, connecting to the target, `read` and `write_all` are left out. A read is an event carrying the buffer and
  the count it returned, and a write is an append to that socket's output stream.
- Every I/O error is one abstract `IoError` event that ends the relay. A `write_all` that fails partway through is not
  modelled.
- `tokio::select!` fairness, `tokio::spawn` and concurrency between connections are left out. The model covers one
  connection, one event per step.
- The internals of `DelayQueue` are left out. Stable extraction is assumed, not verified: among entries due at the same
  time, the one inserted first comes out first. The library's timer-wheel granularity is not modelled either.
- An `Expired` event taken before the earliest entry is due leaves the state unchanged. In the program that arm of
  `select!` would simply not resolve.
- `poll_expired` on an empty queue yields `None`, and the `unwrap` then panics. This is the `Panicked` status.
- `thread_rng` and `Instant::now()` are left out. The sample and the current time are step inputs, and the sample is
  constrained to `0..=jitter`.
- The code reads the clock three times at connection open (the placeholder insert and the two `prev` clocks). The
  model uses one opening time for all three.
- Overflow of `Instant` and `Duration` and the 64-bit option values is left out: time is an unbounded `nat`.
- Option parsing, defaults, the listener and accept loop, and `println!` logging are left out. They are configuration
  and UI, with no scheduling logic.
