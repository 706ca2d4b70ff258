/** One fixed ring of the static work-stealing queue, as a value.
    The counts are unbounded; the words the code keeps are their low 32 bits.
    `released <= booked <= Tail()`: positions [booked, Tail()) are the published
    entries, and [released, booked) is the window a thief or a drain has booked
    and is still copying. */
module Ring {
  import opened Words

  /** A task pointer. */
  type Ptr = int

  /** Who owns the booked window. */
  datatype Booker = Nobody | Thief(core: nat) | Drainer

  datatype Ring = Ring(push: int, pop: int, booked: int, released: int, buf: seq<Ptr>, booker: Booker)
  {
    function Tail(): int { push - pop }
  }

  ghost predicate RingOk(q: Ring, n: int) {
    && |q.buf| == n > 0
    && 0 <= q.pop
    && 0 <= q.released <= q.booked <= q.Tail() <= q.released + n
    && (q.released == q.booked <==> q.booker == Nobody)
  }

  /** The entry in the slot of position `i`. */
  function At(q: Ring, i: int): Ptr
    requires |q.buf| > 0
  {
    q.buf[Slot(i, |q.buf|)]
  }

  /** The entries at positions [lo, hi). */
  function Items(q: Ring, lo: int, hi: int): (r: seq<Ptr>)
    requires |q.buf| > 0 && lo <= hi
    ensures |r| == hi - lo
    ensures forall k :: 0 <= k < |r| ==> r[k] == At(q, lo + k)
  {
    seq(hi - lo, k requires 0 <= k < hi - lo => At(q, lo + k))
  }

  /** The published entries, oldest first: what the deque holds. */
  function Contents(q: Ring): seq<Ptr>
    requires |q.buf| > 0 && q.booked <= q.Tail()
  {
    Items(q, q.booked, q.Tail())
  }

  // ----- the five ways a ring changes -----

  function WriteAt(q: Ring, i: int, x: Ptr): Ring
    requires |q.buf| > 0
  {
    q.(buf := q.buf[Slot(i, |q.buf|) := x])
  }

  function Publish(q: Ring, k: int): Ring { q.(push := q.push + k) }

  function PopBack(q: Ring): Ring { q.(pop := q.pop + 1) }

  function Book(q: Ring, k: int, who: Booker): Ring { q.(booked := q.booked + k, booker := who) }

  function Release(q: Ring): Ring { q.(released := q.booked, booker := Nobody) }

  /** What every other agent may rely on when the ring changes.  `owner` says
      that the agent is the only one that pushes and pops; `me` is the name it
      books under. */
  ghost predicate Rely(q: Ring, q': Ring, owner: bool, me: Booker) {
    && |q'.buf| == |q.buf| > 0
    && q.push <= q'.push && q.pop <= q'.pop && q.booked <= q'.booked && q.released <= q'.released
    && (owner ==> q'.push == q.push && q'.pop == q.pop && q'.buf == q.buf)
    && (q.booker == me ==>
      && q'.booker == me && q'.released == q.released && q'.booked == q.booked
      && forall i :: q.released <= i < q.booked ==> At(q', i) == At(q, i))
    && (q.booker != me ==> q'.booker != me)
  }

  // ----- what each change does to the entries -----

  /** A write touches no other position of the same lap. */
  lemma WriteFrame(q: Ring, base: int, i: int, x: Ptr)
    requires |q.buf| > 0 && base <= i < base + |q.buf|
    ensures At(WriteAt(q, i, x), i) == x
    ensures forall j :: base <= j < base + |q.buf| && j != i ==> At(WriteAt(q, i, x), j) == At(q, j)
  {
    forall j | base <= j < base + |q.buf| && j != i
      ensures At(WriteAt(q, i, x), j) == At(q, j)
    {
      if i < j { SlotsDiffer(i, j, |q.buf|); } else { SlotsDiffer(j, i, |q.buf|); }
    }
  }

  /** A write beyond the tail and within a ring of the released head touches
      neither a published entry nor an entry of the booked window. */
  lemma WriteKeeps(q: Ring, n: int, i: int, x: Ptr)
    requires RingOk(q, n) && q.Tail() <= i < q.released + n
    ensures RingOk(WriteAt(q, i, x), n)
    ensures Contents(WriteAt(q, i, x)) == Contents(q)
    ensures forall me :: Rely(q, WriteAt(q, i, x), false, me)
  {
    WriteFrame(q, q.released, i, x);
  }

  /** A write a whole ring past the released head lands in the booked window. */
  lemma WriteHits(q: Ring, n: int, x: Ptr)
    requires |q.buf| == n > 0
    ensures At(WriteAt(q, q.Tail(), x), q.Tail() - n) == x
  {
    var t := q.Tail();
    assert t - n == (t / n - 1) * n + t % n by {
      assert t == (t / n) * n + t % n;
      assert (t / n - 1) * n == (t / n) * n - n;
    }
    ModUnique(t - n, n, t / n - 1, t % n);
  }

  lemma PublishKeeps(q: Ring, n: int, k: int)
    requires RingOk(q, n) && 0 <= k && q.Tail() + k <= q.released + n
    ensures RingOk(Publish(q, k), n)
    ensures Contents(Publish(q, k)) == Contents(q) + Items(q, q.Tail(), q.Tail() + k)
    ensures forall me :: Rely(q, Publish(q, k), false, me)
  {
  }

  lemma PopKeeps(q: Ring, n: int)
    requires RingOk(q, n) && q.booked < q.Tail()
    ensures RingOk(PopBack(q), n)
    ensures Contents(q) == Contents(PopBack(q)) + [At(q, q.Tail() - 1)]
    ensures forall me :: Rely(q, PopBack(q), false, me)
  {
  }

  lemma BookKeeps(q: Ring, n: int, k: int, who: Booker)
    requires RingOk(q, n) && q.released == q.booked && 0 < k <= q.Tail() - q.booked && who != Nobody
    ensures RingOk(Book(q, k, who), n)
    ensures Contents(q) == Items(q, q.booked, q.booked + k) + Contents(Book(q, k, who))
    ensures forall me, owner :: me != who && me != Nobody ==> Rely(q, Book(q, k, who), owner, me)
  {
  }

  lemma ReleaseKeeps(q: Ring, n: int)
    requires RingOk(q, n) && q.booker != Nobody
    ensures RingOk(Release(q), n) && Contents(Release(q)) == Contents(q)
    ensures forall me, owner :: me != q.booker && me != Nobody ==> Rely(q, Release(q), owner, me)
  {
  }
}
