/** The delay queue of one connection, as a sequence of entries in
    insertion order. Extraction takes the entry with the smallest release
    time and, among equal release times, the one inserted first: the
    library queue's own tie-breaking is not visible, so this stable order is
    an assumption of the model. */
module Schedule {

  /** A scheduled entry: an item paired with its absolute release time. */
  datatype Entry<T> = Entry(release: nat, item: T)

  /** `k` indexes the entry that leaves the queue next: no entry is released
      earlier, and every entry inserted before it is released strictly later. */
  predicate IsEarliest<T>(q: seq<Entry<T>>, k: nat)
  {
    && k < |q|
    && (forall j :: 0 <= j < |q| ==> q[k].release <= q[j].release)
    && (forall j :: 0 <= j < k ==> q[k].release < q[j].release)
  }

  /** Index of the entry extracted next from a non-empty queue. */
  function Earliest<T>(q: seq<Entry<T>>): (k: nat)
    requires |q| > 0
    ensures IsEarliest(q, k)
    decreases |q|
  {
    if |q| == 1 then 0
    else
      var k := Earliest(q[..|q| - 1]);
      if q[|q| - 1].release < q[k].release then |q| - 1 else k
  }

  /** The extraction order is determined: exactly one index is earliest. */
  lemma EarliestUnique<T>(q: seq<Entry<T>>, k: nat)
    requires IsEarliest(q, k)
    ensures k == Earliest(q)
  {
  }

  /** The queue without its `k`-th entry, the others keeping their order. */
  function Remove<T>(q: seq<Entry<T>>, k: nat): (r: seq<Entry<T>>)
    requires k < |q|
    ensures |r| == |q| - 1
    ensures forall i :: 0 <= i < k ==> r[i] == q[i]
    ensures forall i :: k <= i < |r| ==> r[i] == q[i + 1]
  {
    q[..k] + q[k + 1..]
  }

  /** Result of polling the queue for an expired entry at some instant. */
  datatype Poll<T> = Empty | NotReady | Ready(entry: Entry<T>, rest: seq<Entry<T>>)

  /** Polling the queue at `now`: an empty queue answers at once with
      nothing; otherwise the earliest entry comes out once its release time
      has arrived, and until then the poll stays pending. */
  function PollExpired<T>(q: seq<Entry<T>>, now: nat): (p: Poll<T>)
    ensures p.Empty? <==> |q| == 0
    ensures p.NotReady? <==> |q| > 0 && forall j :: 0 <= j < |q| ==> now < q[j].release
    ensures p.Ready? ==>
              && |q| > 0
              && p.entry == q[Earliest(q)]
              && p.rest == Remove(q, Earliest(q))
              && p.entry.release <= now
    ensures p.Ready? ==> forall j :: 0 <= j < |p.rest| ==> p.entry.release <= p.rest[j].release
  {
    if |q| == 0 then Empty
    else
      var k := Earliest(q);
      if q[k].release <= now then Ready(q[k], Remove(q, k)) else NotReady
  }
}
