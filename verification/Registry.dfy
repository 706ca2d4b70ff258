/** The global registry of the dynamic executor: a vector of plain slots that is
    searched from the front, and whose dead slots are reused.  Each operation is
    proved to act as on a finite map from live ids. */
module Registry {
  import opened Options
  import opened BagSums

  datatype Slot = Slot(id: nat, alive: bool, cancelled: bool, freq: nat)

  /** The three searches the operations make. */
  datatype Query = Dead | Live(id: nat) | Named(id: nat)

  predicate Matches(q: Query, s: Slot) {
    match q
    case Dead => !s.alive
    case Live(id) => s.alive && s.id == id
    case Named(id) => s.id == id
  }

  /** The first match, or the length. */
  function Find(reg: seq<Slot>, q: Query): (k: nat)
    ensures k <= |reg| && (k < |reg| ==> Matches(q, reg[k]))
    ensures forall j :: 0 <= j < k ==> !Matches(q, reg[j])
  {
    if reg == [] || Matches(q, reg[0]) then 0 else 1 + Find(reg[1..], q)
  }

  lemma {:induction false} FindIs(reg: seq<Slot>, q: Query, k: nat)
    requires k <= |reg| && (k < |reg| ==> Matches(q, reg[k]))
    requires forall j :: 0 <= j < k ==> !Matches(q, reg[j])
    ensures Find(reg, q) == k
  {
    if k > 0 { FindIs(reg[1..], q, k - 1); }
  }

  function Inserted(reg: seq<Slot>, id: nat, freq: nat): seq<Slot> {
    var k := Find(reg, Dead);
    if k < |reg| then reg[k := Slot(id, true, false, freq)] else reg + [Slot(id, true, false, freq)]
  }

  function Retired(reg: seq<Slot>, id: nat): seq<Slot> {
    var k := Find(reg, Named(id));
    if k < |reg| then reg[k := reg[k].(alive := false)] else reg
  }

  function Cancelled(reg: seq<Slot>, id: nat): seq<Slot> {
    var k := Find(reg, Live(id));
    if k < |reg| then reg[k := reg[k].(cancelled := true)] else reg
  }

  function Retuned(reg: seq<Slot>, id: nat, freq: nat): seq<Slot> {
    var k := Find(reg, Live(id));
    if k < |reg| then reg[k := reg[k].(freq := freq)] else reg
  }

  /** What the registry says about a live id: whether it is cancelled, and its rate. */
  datatype Info = Info(cancelled: bool, freq: nat)

  function Lookup(reg: seq<Slot>, id: nat): Option<Info> {
    var k := Find(reg, Live(id));
    if k < |reg| then Some(Info(reg[k].cancelled, reg[k].freq)) else None
  }

  /** A poller's look at its slot, which reaps a cancelled one. */
  function Synced(reg: seq<Slot>, id: nat): seq<Slot> {
    var k := Find(reg, Live(id));
    if k < |reg| && reg[k].cancelled then reg[k := reg[k].(alive := false)] else reg
  }

  /** No two slots ever carry the same id, dead or alive. */
  predicate Distinct(reg: seq<Slot>) {
    forall i, j :: 0 <= i < j < |reg| ==> reg[i].id != reg[j].id
  }

  predicate Unused(reg: seq<Slot>, id: nat) {
    forall i :: 0 <= i < |reg| ==> reg[i].id != id
  }

  // ----- the registry as a map -----

  lemma LookupAt(reg: seq<Slot>, k: nat)
    requires Distinct(reg) && k < |reg|
    ensures Lookup(reg, reg[k].id) == if reg[k].alive then Some(Info(reg[k].cancelled, reg[k].freq)) else None
    ensures Find(reg, Named(reg[k].id)) == k
  {
    var id := reg[k].id;
    FindIs(reg, Named(id), k);
    FindIs(reg, Live(id), if reg[k].alive then k else |reg|);
  }

  lemma LookupUnused(reg: seq<Slot>, id: nat)
    requires Unused(reg, id)
    ensures Lookup(reg, id) == None && Find(reg, Named(id)) == |reg|
  {
    FindIs(reg, Live(id), |reg|);
    FindIs(reg, Named(id), |reg|);
  }

  /** One slot changes: only the lookups of its old and new id can. */
  lemma LookupElsewhere(reg: seq<Slot>, k: nat, s: Slot, x: nat)
    requires Distinct(reg) && k < |reg| && x != reg[k].id && x != s.id
    ensures Lookup(reg[k := s], x) == Lookup(reg, x)
  {
    var j := Find(reg, Live(x));
    FindIs(reg[k := s], Live(x), j);
  }

  lemma LookupGrown(reg: seq<Slot>, s: Slot, x: nat)
    requires x != s.id
    ensures Lookup(reg + [s], x) == Lookup(reg, x)
  {
    var j := Find(reg, Live(x));
    FindIs(reg + [s], Live(x), if j < |reg| then j else |reg| + 1);
  }

  /** A fresh id joins the map, whether it takes a dead slot or a new one. */
  lemma InsertAddsOne(reg: seq<Slot>, id: nat, freq: nat, x: nat)
    requires Distinct(reg) && Unused(reg, id)
    ensures Distinct(Inserted(reg, id, freq))
    ensures Lookup(Inserted(reg, id, freq), x) == if x == id then Some(Info(false, freq)) else Lookup(reg, x)
  {
    var k := Find(reg, Dead);
    var s := Slot(id, true, false, freq);
    var r := Inserted(reg, id, freq);
    assert forall i :: 0 <= i < |r| ==> r[i].id == if i == k then id else reg[i].id;
    if x == id {
      LookupAt(r, k);
    } else if k == |reg| {
      LookupGrown(reg, s, x);
    } else if x == reg[k].id {
      LookupAt(reg, k);
      assert Unused(r, x);
      LookupUnused(r, x);
    } else {
      LookupElsewhere(reg, k, s, x);
    }
  }

  /** The slot named `id`, if any, changes in place. */
  lemma ChangeOne(reg: seq<Slot>, k: nat, s: Slot, x: nat)
    requires Distinct(reg) && k < |reg| && s.id == reg[k].id
    ensures Distinct(reg[k := s])
    ensures Lookup(reg[k := s], x) ==
      if x == s.id then (if s.alive then Some(Info(s.cancelled, s.freq)) else None) else Lookup(reg, x)
  {
    if x == s.id { LookupAt(reg[k := s], k); } else { LookupElsewhere(reg, k, s, x); }
  }

  lemma RetireRemovesOne(reg: seq<Slot>, id: nat, x: nat)
    requires Distinct(reg)
    ensures Distinct(Retired(reg, id))
    ensures Lookup(Retired(reg, id), x) == if x == id then None else Lookup(reg, x)
  {
    var k := Find(reg, Named(id));
    if k < |reg| { ChangeOne(reg, k, reg[k].(alive := false), x); } else { LookupUnused(reg, id); }
  }

  lemma CancelMarksOne(reg: seq<Slot>, id: nat, x: nat)
    requires Distinct(reg)
    ensures Distinct(Cancelled(reg, id))
    ensures Lookup(Cancelled(reg, id), x) ==
      if x == id && Lookup(reg, id).Some? then Some(Lookup(reg, id).value.(cancelled := true)) else Lookup(reg, x)
  {
    var k := Find(reg, Live(id));
    if k < |reg| { ChangeOne(reg, k, reg[k].(cancelled := true), x); }
  }

  lemma SetFreqRetunesOne(reg: seq<Slot>, id: nat, freq: nat, x: nat)
    requires Distinct(reg)
    ensures Distinct(Retuned(reg, id, freq))
    ensures Lookup(Retuned(reg, id, freq), x) ==
      if x == id && Lookup(reg, id).Some? then Some(Lookup(reg, id).value.(freq := freq)) else Lookup(reg, x)
  {
    var k := Find(reg, Live(id));
    if k < |reg| { ChangeOne(reg, k, reg[k].(freq := freq), x); }
  }

  lemma SyncReapsTheCancelled(reg: seq<Slot>, id: nat, x: nat)
    requires Distinct(reg)
    ensures Distinct(Synced(reg, id))
    ensures Lookup(Synced(reg, id), x) ==
      if x == id && Lookup(reg, id).Some? && Lookup(reg, id).value.cancelled then None else Lookup(reg, x)
  {
    var k := Find(reg, Live(id));
    if k < |reg| && reg[k].cancelled { ChangeOne(reg, k, reg[k].(alive := false), x); }
  }

  // ----- the live ids as a bag -----

  function SlotBag(s: Slot): multiset<nat> {
    if s.alive then multiset{s.id} else multiset{}
  }

  function SlotBags(reg: seq<Slot>): (b: seq<multiset<nat>>)
    ensures |b| == |reg|
  {
    seq(|reg|, i requires 0 <= i < |reg| => SlotBag(reg[i]))
  }

  function AliveBag(reg: seq<Slot>): multiset<nat> {
    Sum(SlotBags(reg))
  }

  lemma AliveChanges(reg: seq<Slot>, k: nat, s: Slot)
    requires k < |reg|
    ensures AliveBag(reg[k := s]) + SlotBag(reg[k]) == AliveBag(reg) + SlotBag(s)
  {
    assert SlotBags(reg[k := s]) == SlotBags(reg)[k := SlotBag(s)];
    SumUpdate(SlotBags(reg), k, SlotBag(s));
  }

  lemma AliveGrows(reg: seq<Slot>, s: Slot)
    ensures AliveBag(reg + [s]) == AliveBag(reg) + SlotBag(s)
  {
    var b := SlotBags(reg + [s]);
    assert b[..|b| - 1] == SlotBags(reg);
  }

  /** There are never more live ids than slots, and just as many if no slot is dead. */
  lemma {:induction false} AliveCount(reg: seq<Slot>)
    ensures |AliveBag(reg)| <= |reg|
    ensures Find(reg, Dead) == |reg| ==> |AliveBag(reg)| == |reg|
  {
    if reg == [] { return; }
    var n := |reg| - 1;
    assert reg == reg[..n] + [reg[n]];
    AliveGrows(reg[..n], reg[n]);
    AliveCount(reg[..n]);
    if Find(reg, Dead) == |reg| {
      assert !Matches(Dead, reg[n]);
      assert forall j :: 0 <= j < n ==> !Matches(Dead, reg[j]);
      FindIs(reg[..n], Dead, n);
    }
  }

  /** The bag of live ids holds each id as often as the map does. */
  lemma {:induction false} AliveIsLookup(reg: seq<Slot>, x: nat)
    requires Distinct(reg)
    ensures AliveBag(reg)[x] == if Lookup(reg, x).Some? then 1 else 0
  {
    if reg == [] { return; }
    var n := |reg| - 1;
    var s := reg[n];
    assert reg == reg[..n] + [s];
    AliveGrows(reg[..n], s);
    AliveIsLookup(reg[..n], x);
    if x == s.id {
      LookupAt(reg, n);
      LookupUnused(reg[..n], x);
    } else {
      LookupGrown(reg[..n], s, x);
    }
  }

  lemma InsertAlive(reg: seq<Slot>, id: nat, freq: nat)
    ensures AliveBag(Inserted(reg, id, freq)) == AliveBag(reg) + multiset{id}
  {
    var k := Find(reg, Dead);
    var s := Slot(id, true, false, freq);
    if k < |reg| { AliveChanges(reg, k, s); } else { AliveGrows(reg, s); }
  }

  lemma RetireAlive(reg: seq<Slot>, id: nat)
    requires Distinct(reg)
    ensures AliveBag(Retired(reg, id)) == AliveBag(reg) - multiset{id}
  {
    forall x ensures AliveBag(Retired(reg, id))[x] == (AliveBag(reg) - multiset{id})[x] {
      RetireRemovesOne(reg, id, x);
      AliveIsLookup(reg, x);
      AliveIsLookup(Retired(reg, id), x);
    }
  }

  // ----- the vector in place -----

  class Store {
    var slots: seq<Slot>
    var nextId: nat

    constructor ()
      ensures slots == [] && nextId == 1
    {
      slots, nextId := [], 1;
    }

    method FetchId() returns (id: nat)
      modifies `nextId
      ensures id == old(nextId) && nextId == id + 1
    {
      id := nextId;
      nextId := nextId + 1;
    }

    /** The search every operation makes: slot by slot, from the front. */
    method Search(q: Query) returns (k: nat)
      ensures k == Find(slots, q)
    {
      k := 0;
      while k < |slots| && !Matches(q, slots[k])
        invariant k <= |slots| && forall j :: 0 <= j < k ==> !Matches(q, slots[j])
      {
        k := k + 1;
      }
      FindIs(slots, q, k);
    }

    method Insert(id: nat, freq: nat)
      modifies `slots
      ensures slots == Inserted(old(slots), id, freq)
    {
      var k := Search(Dead);
      if k < |slots| {
        slots := slots[k := Slot(id, true, false, freq)];
      } else {
        slots := slots + [Slot(id, true, false, freq)];
      }
    }

    method Retire(id: nat)
      modifies `slots
      ensures slots == Retired(old(slots), id)
    {
      var k := Search(Named(id));
      if k < |slots| {
        slots := slots[k := slots[k].(alive := false)];
      }
    }

    /** `true` exactly if the id is live, and then nothing but its mark changes. */
    method Cancel(id: nat) returns (ok: bool)
      modifies `slots
      ensures ok == Lookup(old(slots), id).Some?
      ensures slots == Cancelled(old(slots), id)
    {
      var k := Search(Live(id));
      ok := k < |slots|;
      if ok {
        slots := slots[k := slots[k].(cancelled := true)];
      }
    }

    method SetFreq(id: nat, freq: nat) returns (ok: bool)
      modifies `slots
      ensures ok == Lookup(old(slots), id).Some?
      ensures slots == Retuned(old(slots), id, freq)
    {
      var k := Search(Live(id));
      ok := k < |slots|;
      if ok {
        slots := slots[k := slots[k].(freq := freq)];
      }
    }

    method IsAlive(id: nat) returns (ok: bool)
      ensures ok == Lookup(slots, id).Some?
    {
      var k := Search(Live(id));
      ok := k < |slots|;
    }

    method Sync(id: nat) returns (info: Option<Info>)
      modifies `slots
      ensures info == Lookup(old(slots), id)
      ensures slots == Synced(old(slots), id)
    {
      var k := Search(Live(id));
      if k == |slots| { return None; }
      info := Some(Info(slots[k].cancelled, slots[k].freq));
      if slots[k].cancelled {
        slots := slots[k := slots[k].(alive := false)];
      }
    }
  }
}
