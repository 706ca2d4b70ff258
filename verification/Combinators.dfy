/** The join and select combinators: what one poll does to a combinator's own
    fields, given what each child would answer if it were polled. */
module Combinators {
  import opened Options

  datatype Poll<R> = Pending | Ready(value: R)
  datatype Unit = Unit
  datatype Result<E> = Ok | Err(error: E)
  datatype Either<A, B> = Left(left: A) | Right(right: B)

  /** The new fields, the answer, and which children were polled for it. */
  datatype Stepped<S, R> = Stepped(state: S, answer: Poll<R>, asksHead: bool, asksTail: bool)

  datatype Flags = Flags(head: bool, tail: bool)

  function JoinStep(f: Flags, h: Poll<Unit>, t: Poll<Unit>): Stepped<Flags, Unit> {
    var g := Flags(f.head || h.Ready?, f.tail || t.Ready?);
    Stepped(g, if g.head && g.tail then Ready(Unit) else Pending, !f.head, !f.tail)
  }

  predicate Fails<E>(p: Poll<Result<E>>) { p.Ready? && p.value.Err? }

  /** An error ends the poll at once, before the tail is asked if the head has it. */
  function TryStep<E>(f: Flags, h: Poll<Result<E>>, t: Poll<Result<E>>): Stepped<Flags, Result<E>> {
    if !f.head && Fails(h) then Stepped(f, h, true, false)
    else
      var head := f.head || h.Ready?;
      if !f.tail && Fails(t) then Stepped(Flags(head, false), t, !f.head, true)
      else
        var tail := f.tail || t.Ready?;
        Stepped(Flags(head, tail), if head && tail then Ready(Ok) else Pending, !f.head, !f.tail)
  }

  datatype Kept<A, B> = Kept(head: Option<A>, tail: Option<B>)

  function Keep<R>(was: Option<R>, p: Poll<R>): Option<R> {
    if was.None? && p.Ready? then Some(p.value) else was
  }

  /** The results are moved out when the pair is complete. */
  function JoinAllStep<A, B>(k: Kept<A, B>, h: Poll<A>, t: Poll<B>): Stepped<Kept<A, B>, (A, B)> {
    var head, tail := Keep(k.head, h), Keep(k.tail, t);
    if head.Some? && tail.Some? then
      Stepped(Kept(None, None), Ready((head.value, tail.value)), k.head.None?, k.tail.None?)
    else Stepped(Kept(head, tail), Pending, k.head.None?, k.tail.None?)
  }

  function SelectStep<A, B>(h: Poll<A>, t: Poll<B>): Stepped<Unit, Either<A, B>> {
    if h.Ready? then Stepped(Unit, Ready(Left(h.value)), true, false)
    else Stepped(Unit, if t.Ready? then Ready(Right(t.value)) else Pending, true, true)
  }

  // ----- the fields, updated in place -----

  class Join {
    var headDone: bool
    var tailDone: bool

    constructor ()
      ensures !headDone && !tailDone
    {
      headDone, tailDone := false, false;
    }

    method Poll(h: Poll<Unit>, t: Poll<Unit>) returns (r: Poll<Unit>, asksHead: bool, asksTail: bool)
      modifies this
      ensures Stepped(Flags(headDone, tailDone), r, asksHead, asksTail)
           == JoinStep(old(Flags(headDone, tailDone)), h, t)
    {
      asksHead, asksTail := false, false;
      if !headDone {
        asksHead := true;
        headDone := h.Ready?;
      }
      if !tailDone {
        asksTail := true;
        tailDone := t.Ready?;
      }
      r := if headDone && tailDone then Ready(Unit) else Pending;
    }
  }

  class TryJoin<E> {
    var headDone: bool
    var tailDone: bool

    constructor ()
      ensures !headDone && !tailDone
    {
      headDone, tailDone := false, false;
    }

    method Poll(h: Poll<Result<E>>, t: Poll<Result<E>>) returns (r: Poll<Result<E>>, asksHead: bool, asksTail: bool)
      modifies this
      ensures Stepped(Flags(headDone, tailDone), r, asksHead, asksTail) == TryStep(old(Flags(headDone, tailDone)), h, t)
    {
      asksHead, asksTail := false, false;
      if !headDone {
        asksHead := true;
        match h
        case Ready(Err(e)) => return Ready(Err(e)), true, false;
        case Ready(Ok) => headDone := true;
        case Pending =>
      }
      if !tailDone {
        asksTail := true;
        match t
        case Ready(Err(e)) => return Ready(Err(e)), asksHead, true;
        case Ready(Ok) => tailDone := true;
        case Pending =>
      }
      r := if headDone && tailDone then Ready(Ok) else Pending;
    }
  }

  class JoinAll<A, B> {
    var headRes: Option<A>
    var tailRes: Option<B>

    constructor ()
      ensures headRes == None && tailRes == None
    {
      headRes, tailRes := None, None;
    }

    method Poll(h: Poll<A>, t: Poll<B>) returns (r: Poll<(A, B)>, asksHead: bool, asksTail: bool)
      modifies this
      ensures Stepped(Kept(headRes, tailRes), r, asksHead, asksTail) == JoinAllStep(old(Kept(headRes, tailRes)), h, t)
    {
      asksHead, asksTail := headRes.None?, tailRes.None?;
      if headRes.None? {
        if h.Ready? { headRes := Some(h.value); }
      }
      if tailRes.None? {
        if t.Ready? { tailRes := Some(t.value); }
      }
      if headRes.Some? && tailRes.Some? {
        r := Ready((headRes.value, tailRes.value));
        headRes, tailRes := None, None;
      } else {
        r := Pending;
      }
    }
  }

  /** Keeps nothing of its own. */
  method SelectPoll<A, B>(h: Poll<A>, t: Poll<B>) returns (r: Poll<Either<A, B>>, asksTail: bool)
    ensures Stepped(Unit, r, true, asksTail) == SelectStep(h, t)
  {
    if h.Ready? { return Ready(Left(h.value)), false; }
    if t.Ready? { return Ready(Right(t.value)), true; }
    return Pending, true;
  }
}
