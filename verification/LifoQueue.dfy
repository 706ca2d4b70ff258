/** The queue of the static executor as the code has it: three words and a fixed
    buffer, updated in place by `Worker` and `Stealer` calls that run one after
    the other.  The ghost ring holds the unbounded counts; `Valid` ties the words
    to them, and each method is proved against the deque the ring stands for. */
module LifoQueue {
  import opened Options
  import opened Words
  import R = Ring

  type Ptr = R.Ptr

  /** `Overflow`: a subtraction left the word, where a build with overflow checks
      panics, before anything was booked. */
  datatype StealError = Empty | Busy | Overflow

  datatype Outcome<T> = Ok(value: T) | Err(error: StealError)

  function Min(a: int, b: int): int { if a <= b then a else b }

  /** How many entries a booking takes: what the caller's count function answers,
      at most the destination's room and at most what there is. */
  function Count(countFn: nat -> nat, max: int, available: nat): (k: int)
    ensures k <= countFn(available) && k <= max && k <= available
    ensures k == countFn(available) || k == max || k == available
  {
    Min(Min(countFn(available), max), available)
  }

  class Queue {
    var pushCount: u32
    var popCountAndHead: u64
    var head: u32
    const buffer: array<Ptr>
    ghost var ring: R.Ring

    /** The words and the buffer are those of the ghost ring. */
    ghost predicate Tied()
      reads this, buffer
    {
      && IsPowerOfTwo(buffer.Length) && 0 < buffer.Length <= 0x8000_0000
      && ring.buf == buffer[..]
      && pushCount == Low(ring.push)
      && popCountAndHead == Pack(Low(ring.pop), Low(ring.booked))
      && head == Low(ring.released)
    }

    ghost predicate Valid()
      reads this, buffer
    {
      && Tied()
      && ring.released <= ring.booked <= ring.released + buffer.Length
      && ring.booked <= ring.Tail() <= ring.booked + buffer.Length
    }

    /** Room is left below the released head, as well-behaved clients ensure. */
    ghost predicate Roomy()
      reads this, buffer
    {
      ring.Tail() <= ring.released + buffer.Length
    }

    /** The tail is less than a wrap past the released head: always so, except on the
        largest ring there is, wholly booked and wholly refilled by `push`. */
    ghost predicate Measurable()
      reads this, buffer
    {
      ring.Tail() - ring.released < WORD
    }

    /** What a steal takes for the room left here: a ring that cannot be measured
        looks empty. */
    ghost function Free(): int
      reads this, buffer
      requires Valid()
    {
      buffer.Length - if Measurable() then |Window()| + |Contents()| else 0
    }

    /** The published entries, oldest first. */
    ghost function Contents(): seq<Ptr>
      reads this, buffer
      requires Valid()
    {
      R.Contents(ring)
    }

    /** The entries booked and not yet released. */
    ghost function Window(): seq<Ptr>
      reads this, buffer
      requires Valid()
    {
      R.Items(ring, ring.released, ring.booked)
    }

    constructor (n: nat)
      requires IsPowerOfTwo(n) && n <= 0x8000_0000
      ensures Valid() && Roomy() && fresh(buffer) && buffer.Length == n
      ensures Contents() == [] && Window() == []
    {
      var k: nat :| n == Pow2(k);
      pushCount, head := 0, 0;
      popCountAndHead := Pack(0, 0);
      buffer := new Ptr[n](i => 0);
      new;
      ring := R.Ring(0, 0, 0, 0, buffer[..], R.Nobody);
    }

    method ReadAt(position: u32, ghost i: int) returns (x: Ptr)
      requires Valid() && position == Low(i)
      ensures x == R.At(ring, i)
    {
      MaskedSlot(i, buffer.Length);
      x := buffer[BitAnd(position as nat, buffer.Length - 1)];
    }

    method WriteAt(position: u32, item: Ptr, ghost i: int)
      requires Tied() && position == Low(i)
      modifies buffer, `ring
      ensures Tied() && ring == R.WriteAt(old(ring), i, item)
      ensures old(Valid()) ==> Valid()
    {
      MaskedSlot(i, buffer.Length);
      buffer[BitAnd(position as nat, buffer.Length - 1)] := item;
      ring := R.WriteAt(ring, i, item);
    }

    /** The packed word as its two halves. */
    method LoadWord() returns (popCount: u32, booked: u32)
      requires Valid()
      ensures popCount == Low(ring.pop) && booked == Low(ring.booked)
    {
      PackRoundTrip(Low(ring.pop), Low(ring.booked), 0, 0);
      var word := Unpack(popCountAndHead);
      popCount, booked := word.0, word.1;
    }

    /** Refuses exactly when a whole ring is published; otherwise the entry becomes
        the newest.  The booked window survives when the tail was less than a ring
        past the released head, and loses its oldest entry to the new one when not. */
    method Push(item: Ptr) returns (ok: bool)
      requires Valid()
      modifies this, buffer
      ensures Valid() && ok == (|old(Contents())| < buffer.Length)
      ensures !ok ==> ring == old(ring)
      ensures ok ==> Contents() == old(Contents()) + [item]
      ensures ok && old(ring.Tail()) < old(ring.released) + buffer.Length ==> Window() == old(Window()) && Roomy()
      ensures ok && old(ring.Tail()) >= old(ring.released) + buffer.Length ==>
        R.At(ring, old(ring.Tail()) - buffer.Length) == item && old(ring.released) < old(ring.booked)
    {
      hide Low, WrappingAdd, WrappingSub, Pack, Unpack;
      var popCount, booked := LoadWord();
      var tail := WrappingSub(pushCount, popCount);
      SubExact(ring.push, ring.pop);
      SubExact(ring.Tail(), ring.booked);
      if WrappingSub(tail, booked) as int >= buffer.Length {
        return false;
      }
      PushOnRing(ring, item);
      ghost var t := ring.Tail();
      WriteAt(tail, item, t);
      AddWord(ring.push, 1);
      pushCount := WrappingAdd(pushCount, 1);
      ring := R.Publish(ring, 1);
      return true;
    }

    /** Writes and publishes items until the tail word meets the limit word.  With
        room below the released head that appends what fits and drops the rest.
        Without, the limit is already behind the tail, and items are written over
        booked and published entries until they run out or the words have wrapped. */
    method Extend(items: seq<Ptr>)
      requires Valid()
      modifies this, buffer
      ensures Tied()
      ensures var k := Min(|items|, Low(old(ring).released + buffer.Length - old(ring).Tail()) as int);
        ring == R.Publish(Written(old(ring), items[..k]), k)
      ensures old(Roomy()) ==>
        && Valid() && Roomy() && Window() == old(Window())
        && Contents() == old(Contents()) +
             items[..Min(|items|, buffer.Length - |old(Window())| - |old(Contents())|)]
    {
      hide Low, WrappingAdd, WrappingSub, Pack, Unpack;
      var popCount, _ := LoadWord();
      var tail := WrappingSub(pushCount, popCount);
      SubExact(ring.push, ring.pop);
      AddWord(ring.released, buffer.Length as u32);
      var maxTail := WrappingAdd(head, buffer.Length as u32);
      ghost var t, q, room := ring.Tail(), ring, Low(ring.released + buffer.Length - ring.Tail()) as int;
      var k := 0;
      while k < |items|
        invariant 0 <= k <= |items| && k <= room && tail == Low(t + k)
        invariant Tied() && pushCount == old(pushCount) && ring == Written(q, items[..k])
      {
        MeetsAfter(q.released + buffer.Length, t, k);
        if tail == maxTail { break; }
        WrittenNext(q, items, k);
        WriteAt(tail, items[k], t + k);
        AddWord(t + k, 1);
        tail := WrappingAdd(tail, 1);
        k := k + 1;
      }
      MeetsAfter(q.released + buffer.Length, t, k);
      AddExact(t + k, q.pop);
      pushCount := WrappingAdd(tail, popCount);
      ring := R.Publish(ring, k);
      if old(Roomy()) { ExtendFits(q, items, k, room); }
    }

    /** Takes the newest entry.  `failures` is how often the weak swap fails
        spuriously before it succeeds. */
    method Pop(failures: nat) returns (r: Option<Ptr>)
      requires Valid()
      modifies this
      ensures Valid() && Window() == old(Window())
      ensures old(Contents()) == [] ==> r == None && ring == old(ring)
      ensures old(Contents()) != [] ==> r.Some? && old(Contents()) == Contents() + [r.value]
    {
      hide Low, WrappingAdd, WrappingSub, Pack, Unpack;
      var popCount, booked := LoadWord();
      var tail := WrappingSub(pushCount, popCount);
      var newPopCount := WrappingAdd(popCount, 1);
      SubExact(ring.push, ring.pop);
      AddWord(ring.pop, 1);
      LowExact(ring.Tail(), ring.booked);
      var fails := failures;
      while true
        invariant Valid() && ring == old(ring) && popCountAndHead == old(popCountAndHead) && booked == Low(ring.booked)
        decreases fails
      {
        if tail == booked { return None; }
        if fails == 0 { break; }
        fails := fails - 1;
        booked := Unpack(popCountAndHead).1;
        PackRoundTrip(Low(ring.pop), Low(ring.booked), 0, 0);
      }
      popCountAndHead := Pack(newPopCount, booked);
      ring := ring.(pop := ring.pop + 1);
      AddWord(ring.Tail() + 1, 1);
      var x := ReadAt(WrappingSub(tail, 1), ring.Tail());
      return Some(x);
    }

    method ItemCount(popCount: u32, booked: u32) returns (count: u32)
      requires Valid() && popCount == Low(ring.pop) && booked == Low(ring.booked)
      ensures count as int == |Contents()|
    {
      SubExact(ring.push, ring.pop);
      SubExact(ring.Tail(), ring.booked);
      count := WrappingSub(WrappingSub(pushCount, popCount), booked);
    }

    /** Books a prefix of the published entries, unless a window is already open: as
        many as were asked for, the limit allows and there are. */
    method BookItems(countFn: nat -> nat, max: u32, failures: nat) returns (r: Outcome<(u32, u32, u32)>)
      requires Valid()
      modifies this
      ensures Valid() && unchanged(`pushCount) && unchanged(`head)
      ensures r.Err? ==> ring == old(ring) && r.error != Overflow
      ensures r == Err(Busy) <==> old(Window()) != []
      ensures var there := |old(Contents())|;
        var asked := countFn(there);
        && (r == Err(Empty) <==> old(Window()) == [] && (asked == 0 || max == 0 || there == 0))
        && (r.Ok? ==>
              var count := r.value.2 as int;
              && 0 < count <= asked && count <= max as int && count <= there
              && (count == asked || count == max as int || count == there)
              && r.value.0 == Low(old(ring.booked)) && r.value.1 == Low(old(ring.booked) + count)
              && ring == old(ring).(booked := old(ring.booked) + count))
    {
      hide Low, WrappingAdd, WrappingSub, Pack, Unpack;
      var popCount, booked := LoadWord();
      var oldHead := head;
      var fails := failures;
      LowExact(ring.booked, ring.released);
      while true
        invariant Valid() && ring == old(ring) && popCountAndHead == old(popCountAndHead)
        invariant pushCount == old(pushCount) && head == old(head)
        invariant popCount == Low(ring.pop) && booked == Low(ring.booked)
        decreases fails
      {
        if oldHead != booked { return Err(Busy); }
        var itemCount := ItemCount(popCount, booked);
        if itemCount == 0 { return Err(Empty); }
        var count := Count(countFn, max as int, itemCount as nat);
        if count == 0 { return Err(Empty); }
        var newHead := WrappingAdd(booked, count as u32);
        if fails == 0 {
          AddWord(ring.booked, count as u32);
          popCountAndHead := Pack(popCount, newHead);
          ring := ring.(booked := ring.booked + count);
          return Ok((booked, newHead, count as u32));
        }
        fails := fails - 1;
        popCount, booked := LoadWord();
      }
    }

    // ----- stealing: `this` is the victim, `dest` the ring of the thief -----

    /** Room left in the ring below its released head; `None` if the tail is more than
        a ring past it, where the subtraction overflows. */
    method FreeCapacity() returns (tail: u32, free: Option<u32>)
      requires Valid()
      ensures tail == Low(ring.Tail())
      ensures free == None <==> !Roomy() && Measurable()
      ensures free.Some? ==> free.value as int == Free()
    {
      var popCount, _ := LoadWord();
      tail := WrappingSub(pushCount, popCount);
      SubExact(ring.push, ring.pop);
      SubExact(ring.Tail(), ring.released);
      var len := WrappingSub(tail, head);
      if len as int > buffer.Length { return tail, None; }
      free := Some(buffer.Length as u32 - len);
    }

    /** The copy loop of a steal. */
    method CopyInto(dest: Queue, lo: u32, destTail: u32, count: u32, ghost i: int)
      requires Valid() && dest.Tied() && dest != this && dest.buffer != buffer
      requires lo == Low(i) && destTail == Low(dest.ring.Tail())
      modifies dest.buffer, dest`ring
      ensures dest.Tied() && dest.ring == Written(old(dest.ring), R.Items(ring, i, i + count as int))
    {
      hide Low, WrappingAdd, WrappingSub, Pack, Unpack;
      ghost var q, items := dest.ring, R.Items(ring, i, i + count as int);
      assert items[..0] == [] && items[..count] == items;
      var offset: u32 := 0;
      while offset < count
        invariant offset <= count && dest.Tied() && dest.ring == Written(q, items[..offset])
      {
        AddWord(i, offset);
        AddWord(q.Tail(), offset);
        var x := ReadAt(WrappingAdd(lo, offset), i + offset as int);
        WrittenNext(q, items, offset as nat);
        dest.WriteAt(WrappingAdd(destTail, offset), x, q.Tail() + offset as int);
        offset := offset + 1;
      }
    }

    /** Publishes what a steal has written. */
    method PublishCopies(count: u32)
      requires Tied()
      modifies `pushCount, `ring
      ensures Tied() && ring == R.Publish(old(ring), count as int)
    {
      hide Low, WrappingAdd, WrappingSub, Pack, Unpack;
      AddWord(ring.push, count);
      pushCount := WrappingAdd(pushCount, count);
      ring := R.Publish(ring, count as int);
    }

    /** The store that ends a steal or a drain. */
    method Release(end: u32)
      requires Valid() && end == Low(ring.booked)
      modifies `head, `ring
      ensures Valid() && Window() == [] && Contents() == old(Contents())
      ensures ring == old(ring).(released := ring.booked)
    {
      head := end;
      ring := ring.(released := ring.booked);
    }

    /** What a steal does once it has booked: `v` is the ring before the booking. */
    method MoveBooked(dest: Queue, lo: u32, hi: u32, count: u32, destTail: u32, ghost v: R.Ring)
      requires Valid() && dest.Tied() && dest != this && dest.buffer != buffer
      requires |v.buf| > 0 && v.booked <= v.Tail() && 0 < count as int <= v.Tail() - v.booked
      requires ring == v.(booked := v.booked + count as int)
      requires lo == Low(v.booked) && hi == Low(v.booked + count as int) && destTail == Low(dest.ring.Tail())
      modifies this, dest, dest.buffer
      ensures Valid() && dest.Tied() && Window() == []
      ensures count as int <= |R.Contents(v)| && Contents() == R.Contents(v)[count..]
      ensures dest.ring == R.Publish(Written(old(dest.ring), R.Contents(v)[..count]), count as int)
    {
      hide Low, WrappingAdd, WrappingSub, Pack, Unpack;
      BookOnRing(v, count as int);
      CopyInto(dest, lo, destTail, count, v.booked);
      dest.PublishCopies(count);
      Release(hi);
    }

    /** The same with the newest booked entry kept for the caller. */
    method MoveBookedButLast(dest: Queue, lo: u32, hi: u32, count: u32, destTail: u32, ghost v: R.Ring)
      returns (last: Ptr)
      requires Valid() && dest.Tied() && dest != this && dest.buffer != buffer
      requires |v.buf| > 0 && v.booked <= v.Tail() && 0 < count as int <= v.Tail() - v.booked
      requires ring == v.(booked := v.booked + count as int)
      requires lo == Low(v.booked) && hi == Low(v.booked + count as int) && destTail == Low(dest.ring.Tail())
      modifies this, dest, dest.buffer
      ensures Valid() && dest.Tied() && Window() == []
      ensures count as int <= |R.Contents(v)| && Contents() == R.Contents(v)[count..]
      ensures dest.ring == R.Publish(Written(old(dest.ring), R.Contents(v)[..count - 1]), count as int - 1)
      ensures last == R.Contents(v)[count - 1]
    {
      hide R.At;
      hide Low, WrappingAdd, WrappingSub, Pack, Unpack;
      var transfer := count - 1;
      BookOnRing(v, count as int);
      BookButLast(v, count as int);
      CopyInto(dest, lo, destTail, transfer, v.booked);
      AddWord(v.booked, transfer);
      last := ReadAt(WrappingAdd(lo, transfer), v.booked + transfer as int);
      dest.PublishCopies(transfer);
      Release(hi);
    }

    /** Moves a prefix of the victim's entries, in order, to the back of `dest`.  Into
        a ring that cannot be measured they are written all the same. */
    method Steal(dest: Queue, countFn: nat -> nat, failures: nat) returns (r: Outcome<nat>)
      requires Valid() && dest.Valid() && dest != this && dest.buffer != buffer
      modifies this, dest, dest.buffer
      ensures Valid() && dest.Tied()
      ensures r == Err(Overflow) <==> old(!dest.Roomy() && dest.Measurable())
      ensures r == Err(Busy) <==> old(dest.Roomy() || !dest.Measurable()) && old(Window()) != []
      ensures r.Err? ==> ring == old(ring) && dest.ring == old(dest.ring) && dest.Valid()
      ensures var there, room := |old(Contents())|, old(dest.Free());
        var asked, fits := countFn(there), old(dest.Roomy() || !dest.Measurable());
        && (r == Err(Empty) <==> fits && old(Window()) == [] && (asked == 0 || room == 0 || there == 0))
        && (r.Ok? ==>
              var count := r.value;
              && 0 < count <= asked && count <= room && count <= there
              && (count == asked || count == room || count == there)
              && Window() == [] && Contents() == old(Contents())[count..]
              && dest.ring == R.Publish(Written(old(dest.ring), old(Contents())[..count]), count))
      ensures old(dest.Roomy()) ==> dest.Valid() && dest.Roomy() && dest.Window() == old(dest.Window())
      ensures old(dest.Roomy()) && r.Ok? ==> dest.Contents() == old(dest.Contents()) + old(Contents())[..r.value]
    {
      hide R.At, R.Items, Queue.Free, Written;
      hide Low, WrappingAdd, WrappingSub, Pack, Unpack;
      FreeMeans(dest);
      var destTail, capacity := dest.FreeCapacity();
      if capacity == None { return Err(Overflow); }
      var free := capacity.value;
      ghost var v, q, items := ring, dest.ring, Contents();
      var booking := BookItems(countFn, free, failures);
      if booking.Err? { return Err(booking.error); }
      var (lo, hi, count) := booking.value;
      MoveBooked(dest, lo, hi, count, destTail, v);
      if old(dest.Roomy()) { CopiesFit(q, items, count as nat); }
      return Ok(count as nat);
    }

    /** Books one entry more than a steal may and hands the newest booked one to
        the caller; the others go to the back of `dest`. */
    method StealAndPop(dest: Queue, countFn: nat -> nat, failures: nat) returns (r: Outcome<(Ptr, nat)>)
      requires Valid() && dest.Valid() && dest != this && dest.buffer != buffer
      modifies this, dest, dest.buffer
      ensures Valid() && dest.Tied()
      ensures r == Err(Overflow) <==> old(!dest.Roomy() && dest.Measurable())
      ensures r == Err(Busy) <==> old(dest.Roomy() || !dest.Measurable()) && old(Window()) != []
      ensures r.Err? ==> ring == old(ring) && dest.ring == old(dest.ring) && dest.Valid()
      ensures var there, room := |old(Contents())|, old(dest.Free());
        var asked, fits := countFn(there), old(dest.Roomy() || !dest.Measurable());
        && (r == Err(Empty) <==> fits && old(Window()) == [] && (asked == 0 || there == 0))
        && (r.Ok? ==>
              var count := r.value.1 + 1;
              && count <= asked && count <= room + 1 && count <= there
              && (count == asked || count == room + 1 || count == there)
              && r.value.0 == old(Contents())[count - 1]
              && Window() == [] && Contents() == old(Contents())[count..]
              && dest.ring == R.Publish(Written(old(dest.ring), old(Contents())[..count - 1]), count - 1))
      ensures old(dest.Roomy()) ==> dest.Valid() && dest.Roomy() && dest.Window() == old(dest.Window())
      ensures old(dest.Roomy()) && r.Ok? ==> dest.Contents() == old(dest.Contents()) + old(Contents())[..r.value.1]
    {
      hide R.At, R.Items, Queue.Free, Written;
      hide Low, WrappingAdd, WrappingSub, Pack, Unpack;
      FreeMeans(dest);
      var destTail, capacity := dest.FreeCapacity();
      if capacity == None { return Err(Overflow); }
      var free := capacity.value;
      ghost var v, q, items := ring, dest.ring, Contents();
      var booking := BookItems(countFn, free + 1, failures);
      if booking.Err? { return Err(booking.error); }
      var (lo, hi, count) := booking.value;
      var last := MoveBookedButLast(dest, lo, hi, count, destTail, v);
      if old(dest.Roomy()) { CopiesFit(q, items, (count - 1) as nat); }
      return Ok((last, (count - 1) as nat));
    }

    /** Books a prefix for a drain object to hand out. */
    method MakeDrain(countFn: nat -> nat, failures: nat) returns (r: Outcome<Drain>)
      requires Valid()
      modifies this
      ensures Valid()
      ensures r == Err(Busy) <==> old(Window()) != []
      ensures r.Err? ==> ring == old(ring) && r.error != Overflow
      ensures var there := |old(Contents())|;
        var asked := countFn(there);
        && (r == Err(Empty) <==> old(Window()) == [] && (asked == 0 || there == 0))
        && (r.Ok? ==>
              && fresh(r.value) && r.value.queue == this && r.value.Valid()
              && var count := |r.value.Remaining()|;
              && 0 < count <= asked && count <= there && (count == asked || count == there)
              && r.value.Remaining() == old(Contents())[..count]
              && Contents() == old(Contents())[count..])
    {
      ghost var v := ring;
      var booking := BookItems(countFn, 0xffff_ffff, failures);
      if booking.Err? { return Err(booking.error); }
      var (lo, hi, count) := booking.value;
      BookOnRing(v, count as int);
      var d := new Drain(this, lo, hi, v.booked);
      return Ok(d);
    }
  }

  /** A drain in progress: hands out a booked window entry by entry and releases
      it with the last one. */
  class Drain {
    const queue: Queue
    var current: u32
    const end: u32
    ghost var at: int
    ghost const stop: int

    ghost predicate Valid()
      reads this, queue, queue.buffer
    {
      && queue.Valid() && current == Low(at) && end == Low(stop)
      && (at < stop ==> queue.ring.released <= at && stop == queue.ring.booked)
      && at <= stop < at + WORD
    }

    ghost function Remaining(): seq<Ptr>
      reads this, queue, queue.buffer
      requires Valid()
    {
      R.Items(queue.ring, at, stop)
    }

    constructor (queue: Queue, current: u32, end: u32, ghost at: int)
      requires queue.Valid() && queue.ring.released <= at < queue.ring.booked
      requires current == Low(at) && end == Low(queue.ring.booked)
      ensures Valid() && this.queue == queue && Remaining() == R.Items(queue.ring, at, queue.ring.booked)
    {
      this.queue, this.current, this.end := queue, current, end;
      this.at, this.stop := at, queue.ring.booked;
    }

    /** The next entry of the window; with the last one the window closes. */
    method Next() returns (r: Option<Ptr>)
      requires Valid()
      modifies this, queue
      ensures Valid() && queue.Contents() == old(queue.Contents())
      ensures old(Remaining()) == [] ==> r == None && Remaining() == [] && queue.ring == old(queue.ring)
      ensures old(Remaining()) != [] ==> r == Some(old(Remaining())[0]) && Remaining() == old(Remaining())[1..]
      ensures |old(Remaining())| == 1 ==> queue.Window() == []
    {
      hide Low, WrappingAdd, WrappingSub, Pack, Unpack, R.At;
      LowExact(at, stop);
      LowExact(at + 1, stop);
      AddWord(at, 1);
      if current == end { return None; }
      var item := queue.ReadAt(current, at);
      current := WrappingAdd(current, 1);
      at := at + 1;
      if current == end { queue.Release(end); }
      return Some(item);
    }
  }

  lemma FreeMeans(q: Queue)
    requires q.Valid()
    ensures q.Free() <= q.buffer.Length
    ensures q.Roomy() ==> q.Measurable() && q.Free() == q.ring.released + q.buffer.Length - q.ring.Tail()
  {
  }

  lemma BookOnRing(q: R.Ring, k: int)
    requires |q.buf| > 0 && q.booked <= q.Tail() && 0 <= k <= q.Tail() - q.booked
    ensures k <= |R.Contents(q)|
    ensures R.Items(q, q.booked, q.booked + k) == R.Contents(q)[..k]
    ensures R.Contents(q.(booked := q.booked + k)) == R.Contents(q)[k..]
    ensures R.Items(q.(booked := q.booked + k), q.booked, q.booked + k) == R.Contents(q)[..k]
  {
  }

  lemma BookButLast(q: R.Ring, k: int)
    requires |q.buf| > 0 && q.booked <= q.Tail() && 0 < k <= q.Tail() - q.booked
    ensures k <= |R.Contents(q)|
    ensures R.Items(q.(booked := q.booked + k), q.booked, q.booked + k - 1) == R.Contents(q)[..k - 1]
    ensures R.At(q.(booked := q.booked + k), q.booked + k - 1) == R.Contents(q)[k - 1]
  {
  }

  /** `q'` is `q` with the first `k` items written beyond its tail. */
  ghost predicate Wrote(q: R.Ring, q': R.Ring, items: seq<Ptr>, k: nat) {
    && |q.buf| > 0 && q.released <= q.booked <= q.Tail() && k <= |items|
    && |q'.buf| == |q.buf| && q' == q.(buf := q'.buf)
    && R.Contents(q') == R.Contents(q)
    && R.Items(q', q.released, q.booked) == R.Items(q, q.released, q.booked)
    && R.Items(q', q.Tail(), q.Tail() + k) == items[..k]
  }

  lemma WroteOne(q: R.Ring, q': R.Ring, items: seq<Ptr>, k: nat)
    requires Wrote(q, q', items, k) && k < |items| && q.Tail() + k < q.released + |q.buf|
    ensures Wrote(q, R.WriteAt(q', q.Tail() + k, items[k]), items, k + 1)
  {
    var q'' := R.WriteAt(q', q.Tail() + k, items[k]);
    R.WriteFrame(q', q.released, q.Tail() + k, items[k]);
    assert R.Items(q'', q.Tail(), q.Tail() + k + 1) == R.Items(q', q.Tail(), q.Tail() + k) + [items[k]];
  }

  lemma WroteAll(q: R.Ring, q': R.Ring, items: seq<Ptr>, k: nat)
    requires Wrote(q, q', items, k)
    ensures R.Contents(R.Publish(q', k)) == R.Contents(q) + items[..k]
    ensures R.Items(R.Publish(q', k), q.released, q.booked) == R.Items(q, q.released, q.booked)
  {
    assert R.Contents(R.Publish(q', k)) == R.Contents(q') + R.Items(q', q.Tail(), q.Tail() + k);
  }

  /** `q` with the items written at its tail and beyond, none published. */
  function Written(q: R.Ring, items: seq<Ptr>): (r: R.Ring)
    requires |q.buf| > 0
    ensures |r.buf| == |q.buf| && r == q.(buf := r.buf)
  {
    if items == [] then q
    else
      var n := |items| - 1;
      R.WriteAt(Written(q, items[..n]), q.Tail() + n, items[n])
  }

  lemma WrittenUnfolds(q: R.Ring, items: seq<Ptr>, k: nat)
    requires |q.buf| > 0 && |items| == k + 1
    ensures Written(q, items) == R.WriteAt(Written(q, items[..k]), q.Tail() + k, items[k])
  {
  }

  lemma PartOf(items: seq<Ptr>, k: nat)
    requires k < |items|
    ensures |items[..k + 1]| == k + 1 && items[..k + 1][..k] == items[..k] && items[..k + 1][k] == items[k]
  {
  }

  lemma WrittenNext(q: R.Ring, items: seq<Ptr>, k: nat)
    requires |q.buf| > 0 && k < |items|
    ensures Written(q, items[..k + 1]) == R.WriteAt(Written(q, items[..k]), q.Tail() + k, items[k])
  {
    hide *;
    PartOf(items, k);
    WrittenUnfolds(q, items[..k + 1], k);
  }

  /** The tail word meets the limit word after as many items as the wrapped
      difference of the two. */
  lemma MeetsAfter(limit: int, t: int, k: int)
    requires 0 <= k <= Low(limit - t) as int
    ensures Low(t + k) == Low(limit) <==> k == Low(limit - t) as int
  {
    var room := Low(limit - t) as int;
    SubExact(limit, t);
    AddExact(t, room);
    if k < room {
      LowExact(t + k, t + room);
    }
    assert (limit - t) % WORD == room;
    assert (limit - (t + room)) % WORD == 0;
  }

  lemma {:induction false} WrittenIsWrote(q: R.Ring, items: seq<Ptr>, k: nat)
    requires |q.buf| > 0 && q.released <= q.booked <= q.Tail()
    requires k <= |items| && q.Tail() + k <= q.released + |q.buf|
    ensures Wrote(q, Written(q, items[..k]), items, k)
  {
    if k > 0 {
      WrittenIsWrote(q, items, k - 1);
      WrittenNext(q, items, k - 1);
      WroteOne(q, Written(q, items[..k - 1]), items, k - 1);
    }
  }

  lemma CopiesFit(q: R.Ring, items: seq<Ptr>, k: nat)
    requires |q.buf| > 0 && q.released <= q.booked <= q.Tail()
    requires k <= |items| && q.Tail() + k <= q.released + |q.buf|
    ensures var q' := R.Publish(Written(q, items[..k]), k);
      && q'.Tail() <= q'.released + |q.buf|
      && R.Contents(q') == R.Contents(q) + items[..k]
      && R.Items(q', q.released, q.booked) == R.Items(q, q.released, q.booked)
  {
    WrittenIsWrote(q, items, k);
    WroteAll(q, Written(q, items[..k]), items, k);
  }

  lemma ExtendFits(q: R.Ring, items: seq<Ptr>, k: nat, room: int)
    requires 0 < |q.buf| <= 0x8000_0000 && q.released <= q.booked <= q.Tail() <= q.released + |q.buf|
    requires room == Low(q.released + |q.buf| - q.Tail()) as int && k == Min(|items|, room)
    ensures room == |q.buf| - (q.booked - q.released) - (q.Tail() - q.booked)
    ensures var q' := R.Publish(Written(q, items[..k]), k);
      && q'.Tail() <= q'.released + |q.buf|
      && R.Contents(q') == R.Contents(q) + items[..k]
      && R.Items(q', q.released, q.booked) == R.Items(q, q.released, q.booked)
  {
    CopiesFit(q, items, k);
  }

  lemma PushOnRing(q: R.Ring, item: Ptr)
    requires |q.buf| > 0 && q.released <= q.booked <= q.Tail() < q.booked + |q.buf|
    ensures var q' := R.Publish(R.WriteAt(q, q.Tail(), item), 1);
      && R.Contents(q') == R.Contents(q) + [item]
      && (q.Tail() < q.released + |q.buf| ==> R.Items(q', q.released, q.booked) == R.Items(q, q.released, q.booked))
      && R.At(q', q.Tail() - |q.buf|) == item
  {
    R.WriteFrame(q, q.booked, q.Tail(), item);
    if q.Tail() < q.released + |q.buf| { R.WriteFrame(q, q.released, q.Tail(), item); }
    R.WriteHits(q, |q.buf|, item);
  }
}
