/** One core of the static executor and a task pool as the code runs them, call by
    call: the state words and the queues are updated in place. */
module StaticCore {
  import opened Options
  import opened Words
  import opened StaticExecutor
  import L = LifoQueue
  import R = Ring

  /** The first slot that is free, or the length. */
  function FirstFree(states: seq<TaskState>): (k: nat)
    ensures k <= |states| && (k < |states| ==> states[k] == Free)
    ensures forall j :: 0 <= j < k ==> states[j] != Free
  {
    if states == [] || states[0] == Free then 0 else 1 + FirstFree(states[1..])
  }

  lemma {:induction false} FirstFreeIs(states: seq<TaskState>, k: nat)
    requires k <= |states| && (k < |states| ==> states[k] == Free) && forall j :: 0 <= j < k ==> states[j] != Free
    ensures FirstFree(states) == k
  {
    if k > 0 { FirstFreeIs(states[1..], k - 1); }
  }

  class TaskPool<F> {
    const states: array<TaskState>
    const futures: array<Option<F>>

    predicate Valid() { states.Length == futures.Length && states as object != futures }

    constructor (n: nat)
      ensures Valid() && states.Length == n && fresh(states) && fresh(futures)
      ensures forall i :: 0 <= i < n ==> states[i] == Free && futures[i] == None
    {
      states := new TaskState[n](_ => Free);
      futures := new Option<F>[n](_ => None);
    }

    /** Claims the first free slot for the future; `None` where the code panics. */
    method Init(future: F) returns (r: Option<nat>)
      requires Valid()
      modifies states, futures
      ensures var k := FirstFree(old(states[..]));
        if k == states.Length then r == None && states[..] == old(states[..]) && futures[..] == old(futures[..])
        else
          && r == Some(k) && states[..] == old(states[..])[k := Initialized]
          && futures[..] == old(futures[..])[k := Some(future)]
    {
      for slot := 0 to states.Length
        invariant forall j :: 0 <= j < slot ==> states[j] != Free
        invariant states[..] == old(states[..]) && futures[..] == old(futures[..])
      {
        if states[slot] != Free { continue; }
        FirstFreeIs(states[..], slot);
        states[slot] := Initialized;
        futures[slot] := Some(future);
        return Some(slot);
      }
      FirstFreeIs(states[..], states.Length);
      return None;
    }
  }

  class Core {
    const queues: seq<L.Queue>
    const id: nat
    const tasks: array<TaskState>

    constructor (queues: seq<L.Queue>, id: nat, tasks: array<TaskState>)
      requires id < |queues|
      ensures this.queues == queues && this.id == id && this.tasks == tasks
    {
      this.queues, this.id, this.tasks := queues, id, tasks;
    }

    /** The queues are separate objects with separate buffers. */
    ghost predicate Separate() {
      && id < |queues|
      && forall i, j :: 0 <= i < j < |queues| ==> queues[i] != queues[j] && queues[i].buffer != queues[j].buffer
    }

    ghost function Footprint(): set<object> {
      (set q: L.Queue | q in queues :: q as object) + (set q: L.Queue | q in queues :: q.buffer as object)
    }

    ghost predicate Valid()
      reads Footprint()
    {
      Separate() && forall q :: q in queues ==> q.Valid() && q.Roomy()
    }

    /** Marks an initialized task ready, and queues the entry whatever the state was;
        `false` where the code panics. */
    method Add(t: nat) returns (ok: bool)
      requires id < |queues| && queues[id].Valid() && t < tasks.Length
      modifies tasks, queues[id], queues[id].buffer
      ensures queues[id].Valid() && ok == (|old(queues[id].Contents())| < queues[id].buffer.Length)
      ensures tasks[..] == old(tasks[..])[t := if old(tasks[t]) == Initialized then Ready else old(tasks[t])]
      ensures queues[id].Contents() == old(queues[id].Contents()) + if ok then [t] else []
    {
      if tasks[t] == Initialized {
        tasks[t] := Ready;
      }
      ok := queues[id].Push(t);
    }

    /** An entry whose task is not ready does nothing.  Otherwise the task is polled;
        `ready` is the answer.  A pending task is ready again and its entry goes back,
        if there is room. */
    method RunTask(t: nat, ready: bool) returns (polled: bool)
      requires id < |queues| && queues[id].Valid() && queues[id].Roomy() && t < tasks.Length
      modifies tasks, queues[id], queues[id].buffer
      ensures queues[id].Valid() && polled == (old(tasks[t]) == Ready)
      ensures tasks[..] == old(tasks[..])[t := if polled then (if ready then Unreachable else Ready) else old(tasks[t])]
      ensures var q := queues[id];
        var requeued := polled && !ready && |old(q.Contents())| < q.buffer.Length;
        && q.Contents() == old(q.Contents()) + (if requeued then [t] else [])
        && (|old(q.Contents())| + |old(q.Window())| < q.buffer.Length ==> q.Window() == old(q.Window()) && q.Roomy())
    {
      if tasks[t] != Ready { return false; }
      tasks[t] := Running;
      if ready {
        if tasks[t] == Running { tasks[t] := Unreachable; }
      } else {
        tasks[t] := Ready;
        RoomMeans(queues[id]);
        var _ := queues[id].Push(t);
      }
      return true;
    }

    /** Asks the siblings in order for one entry each, until one gives its oldest. */
    method TrySteal(failures: nat) returns (r: Option<int>, victim: nat)
      requires Valid()
      modifies Footprint()
      ensures Valid()
      ensures queues[id].Contents() == old(queues[id].Contents()) && queues[id].Window() == old(queues[id].Window())
      ensures r == None ==> victim == |queues|
      ensures r.Some? ==>
        && victim < |queues| && victim != id && old(!Unwilling(queues[victim]))
        && old(queues[victim].Contents()) == [r.value] + queues[victim].Contents()
      ensures forall j :: 0 <= j < victim && j != id ==> old(Unwilling(queues[j]))
      ensures forall j :: 0 <= j < |queues| && j != victim ==> queues[j].Contents() == old(queues[j].Contents())
    {
      hide L.Queue.Valid, L.Queue.Roomy, L.Queue.Contents, L.Queue.Window;
      r, victim := None, 0;
      while victim < |queues|
        invariant r == None && victim <= |queues| && Valid()
        invariant forall j :: 0 <= j < |queues| ==>
          queues[j].Contents() == old(queues[j].Contents()) && queues[j].Window() == old(queues[j].Window())
        invariant forall j :: 0 <= j < victim && j != id ==> old(Unwilling(queues[j]))
      {
        if victim != id {
          assert queues[victim] in queues && queues[id] in queues;
          r := TakeOne(queues[victim], queues[id], failures);
          if r.Some? { return; }
        }
        victim := victim + 1;
      }
    }

    /** Every entry names a task. */
    ghost predicate Entries()
      requires Valid()
      reads Footprint()
    {
      forall j :: 0 <= j < |queues| ==> forall x :: x in queues[j].Contents() ==> 0 <= x < tasks.Length
    }

    /** One turn of the loop of `run`: the newest entry of the own queue, else the
        oldest of a sibling, is run; `from` is the queue it came from, if any.  A
        pending task's entry always fits back, and nothing else moves. */
    method Turn(ready: int -> bool, failures: nat) returns (t: Option<int>, from: nat)
      requires Valid() && Entries() && |queues[id].Window()| < queues[id].buffer.Length
      modifies tasks, Footprint()
      ensures Valid() && Entries() && queues[id].Window() == old(queues[id].Window())
      ensures t == None ==> from == |queues| && tasks[..] == old(tasks[..])
      ensures t.Some? ==> from < |queues| && 0 <= t.value < tasks.Length
      ensures from == id <==> old(queues[id].Contents()) != []
      ensures forall j :: 0 <= j < |queues| && j != id && j != from ==>
        queues[j].Contents() == old(queues[j].Contents())
      ensures from != id ==> forall j :: 0 <= j < from && j != id ==> old(Unwilling(queues[j]))
      ensures from != id && t.Some? ==>
        old(queues[from].Contents()) == [t.value] + queues[from].Contents() && old(!Unwilling(queues[from]))
      ensures var own := old(queues[id].Contents());
        && (t == None ==> queues[id].Contents() == own)
        && (t.Some? && own != [] ==> t.value == own[|own| - 1])
        && (t.Some? ==> var was := old(tasks[t.value]);
              && queues[id].Contents()
                 == (if own == [] then [] else own[..|own| - 1]) + Back(t.value, was, ready(t.value))
              && tasks[..] == old(tasks[..])[t.value :=
                   if was != Ready then was else if ready(t.value) then Unreachable else Ready])
    {
      hide L.Queue.Valid, L.Queue.Roomy, L.Queue.Contents, L.Queue.Window;
      t, from := Take(failures);
      if t == None { return; }
      assert queues[id] in queues;
      var _ := RunTask(t.value, ready(t.value));
      assert forall x :: x in queues[id].Contents() ==> x == t.value || x in old(queues[id].Contents());
      OthersNameTasks();
    }

    /** Any number of turns with the newest own entry ready and its polls pending:
        that entry takes every turn, and no other entry moves.  The older ones can
        leave by steals of the siblings only. */
    method ANewestPendingEntryTakesEveryTurn(turns: nat, ready: (nat, int) -> bool, failures: nat)
      returns (ran: seq<int>)
      requires Valid() && Entries() && |queues[id].Window()| < queues[id].buffer.Length
      requires queues[id].Contents() != []
      requires var t := Newest(); tasks[t] == Ready && forall i: nat :: i < turns ==> !ready(i, t)
      modifies tasks, Footprint()
      ensures Valid() && tasks[..] == old(tasks[..])
      ensures forall j :: 0 <= j < |queues| ==> queues[j].Contents() == old(queues[j].Contents())
      ensures |ran| == turns && forall i :: 0 <= i < turns ==> ran[i] == old(Newest())
    {
      hide L.Queue.Valid, L.Queue.Roomy, L.Queue.Contents, L.Queue.Window;
      ran := [];
      ghost var own := queues[id].Contents();
      ghost var n := |own| - 1;
      assert own[n] in own && own[..n] + [own[n]] == own;
      while |ran| < turns
        invariant |ran| <= turns && Valid() && Entries() && queues[id].Window() == old(queues[id].Window())
        invariant tasks[..] == old(tasks[..])
        invariant forall j :: 0 <= j < |queues| ==> queues[j].Contents() == old(queues[j].Contents())
        invariant forall i :: 0 <= i < |ran| ==> ran[i] == own[n]
      {
        var k := |ran|;
        var t, from := Turn(x => ready(k, x), failures);
        assert tasks[..][own[n]] == Ready;
        ran := ran + [t.value];
      }
    }

    /** The entry the core runs next. */
    ghost function Newest(): (t: int)
      requires Valid() && Entries() && queues[id].Contents() != []
      reads Footprint()
      ensures 0 <= t < tasks.Length
    {
      var own := queues[id].Contents();
      assert own[|own| - 1] in own;
      own[|own| - 1]
    }

    /** What others hold still names tasks if the own queue does. */
    twostate lemma OthersNameTasks()
      requires old(Valid()) && Valid() && old(Entries())
      requires forall x :: x in queues[id].Contents() ==> 0 <= x < tasks.Length
      requires forall j :: 0 <= j < |queues| && j != id ==>
        forall x :: x in queues[j].Contents() ==> x in old(queues[j].Contents())
      ensures Entries()
    {
    }

    /** The newest entry of the own queue, or else the oldest of a sibling. */
    method Take(failures: nat) returns (t: Option<int>, from: nat)
      requires Valid() && Entries() && |queues[id].Window()| < queues[id].buffer.Length
      modifies Footprint()
      ensures Valid() && queues[id].Window() == old(queues[id].Window())
      ensures t == None ==> from == |queues|
      ensures t.Some? ==> from < |queues| && 0 <= t.value < tasks.Length
      ensures from == id <==> old(queues[id].Contents()) != []
      ensures forall j :: 0 <= j < |queues| && j != from ==> queues[j].Contents() == old(queues[j].Contents())
      ensures from != id ==> forall j :: 0 <= j < from && j != id ==> old(Unwilling(queues[j]))
      ensures t.Some? && from == id ==> old(queues[id].Contents()) == queues[id].Contents() + [t.value]
      ensures t.Some? && from != id ==> old(queues[from].Contents()) == [t.value] + queues[from].Contents()
      ensures from != id && t.Some? ==> old(!Unwilling(queues[from]))
      ensures |queues[id].Contents()| + |queues[id].Window()| < queues[id].buffer.Length
    {
      hide L.Queue.Valid, L.Queue.Roomy, L.Queue.Contents, L.Queue.Window;
      assert queues[id] in queues;
      RoomMeans(queues[id]);
      t := queues[id].Pop(failures);
      RoomMeans(queues[id]);
      from := id;
      if t.Some? {
        assert t.value in old(queues[id].Contents());
      } else {
        t, from := TrySteal(failures);
        if t.Some? { assert t.value in old(queues[from].Contents()); }
      }
    }
  }

  /** What `run_task` puts back. */
  function Back(t: int, s: TaskState, ready: bool): seq<int> {
    if s == Ready && !ready then [t] else []
  }

  /** A queue with nothing to give: empty, or with a booking under way. */
  ghost predicate Unwilling(q: L.Queue)
    requires q.Valid()
    reads q, q.buffer
  {
    q.Contents() == [] || q.Window() != []
  }

  twostate lemma SameRing(q: L.Queue)
    requires old(q.Valid()) && q.Valid() && q.ring == old(q.ring)
    ensures q.Contents() == old(q.Contents()) && q.Window() == old(q.Window())
  {
  }

  method TakeOne(src: L.Queue, dest: L.Queue, failures: nat) returns (r: Option<int>)
    requires src.Valid() && src.Roomy() && dest.Valid() && dest.Roomy() && src != dest && src.buffer != dest.buffer
    modifies src, dest, dest.buffer
    ensures src.Valid() && src.Roomy() && dest.Valid() && dest.Roomy()
    ensures dest.Contents() == old(dest.Contents()) && dest.Window() == old(dest.Window())
    ensures r == None <==> old(Unwilling(src))
    ensures r == None ==> src.Contents() == old(src.Contents()) && src.Window() == old(src.Window())
    ensures r.Some? ==> old(src.Contents()) == [r.value] + src.Contents()
  {
    hide L.Queue.Valid, L.Queue.Contents, L.Queue.Window;
    ghost var was := src.Contents();
    RoomMeans(dest);
    var o := src.StealAndPop(dest, _ => 1, failures);
    if o.Err? {
      SameRing(src);
      SameRing(dest);
      match o.error {
        case Busy => assert o == L.Err(L.Busy);
        case Empty => assert o == L.Err(L.Empty);
        case Overflow =>
      }
      return None;
    }
    RoomMeans(src);
    assert was[..1] == [was[0]] && was == was[..1] + was[1..];
    return Some(o.value.0);
  }

  lemma RoomMeans(q: L.Queue)
    requires q.Valid()
    ensures |q.Contents()| + |q.Window()| == q.ring.Tail() - q.ring.released
    ensures q.Roomy() <==> |q.Contents()| + |q.Window()| <= q.buffer.Length
    ensures q.Window() == [] ==> q.Roomy()
  {
  }
}
