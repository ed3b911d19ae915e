/** The command port between the editor and the generator thread, as a
    sequential state machine. PLAY and STOP share one overwritable slot;
    every other command is appended to a FIFO queue, which is served first.
    The pending flag stands for the thread event. */
module CommPort {
  import opened Wrappers

  /** The commands of the generator thread; `S` is the parameter record
      that PLAY and PREPARE carry. */
  datatype Command<S> =
    | Play(params: S)
    | Stop
    | Prepare(params: S)
    | Write(path: string)
    | Drop
    | Quit

  /** PLAY and STOP overwrite each other instead of queueing. */
  predicate Coalesced<S>(c: Command<S>) {
    c.Play? || c.Stop?
  }

  datatype Port<S> = Port(queue: seq<Command<S>>, slot: Option<Command<S>>, pending: bool)

  /** The invariant the two operations keep: the flag is raised exactly when
      something is waiting, the slot only holds PLAY or STOP, the queue never
      does. */
  predicate Valid<S>(p: Port<S>) {
    && (p.pending <==> |p.queue| > 0 || p.slot.Some?)
    && (p.slot.Some? ==> Coalesced(p.slot.value))
    && (forall i :: 0 <= i < |p.queue| ==> !Coalesced(p.queue[i]))
  }

  function EmptyPort<S>(): (p: Port<S>)
    ensures Valid(p) && !p.pending
  {
    Port([], None, false)
  }

  /** `set`: store PLAY/STOP in the slot, queue the rest, raise the flag. */
  function Set<S>(p: Port<S>, c: Command<S>): (r: Port<S>)
    ensures Valid(p) ==> Valid(r)
    ensures r.pending
    ensures Coalesced(c) ==> r.slot == Some(c) && r.queue == p.queue
    ensures !Coalesced(c) ==> r.slot == p.slot && r.queue == p.queue + [c]
  {
    if c.Play? || c.Stop? then p.(slot := Some(c), pending := true)
    else p.(queue := p.queue + [c], pending := true)
  }

  /** `get`, once the event has been signalled: the queue head if there is
      one, otherwise the slot, which is emptied; the flag is lowered when
      nothing is left. */
  function Get<S>(p: Port<S>): (r: (Command<S>, Port<S>))
    requires Valid(p) && p.pending
    ensures Valid(r.1)
    ensures Coalesced(r.0) <==> |p.queue| == 0
    ensures |p.queue| > 0 ==> r.0 == p.queue[0] && r.1.queue == p.queue[1..] && r.1.slot == p.slot
    ensures |p.queue| == 0 ==> Some(r.0) == p.slot && r.1.queue == [] && r.1.slot == None
    ensures Size(r.1) == Size(p) - 1
  {
    var (cmd, q, s) :=
      if |p.queue| > 0 then (p.queue[0], p.queue[1..], p.slot)
      else (p.slot.value, p.queue, None);
    (cmd, Port(q, s, |q| > 0 || s.Some?))
  }

  /** The number of commands waiting. */
  function Size<S>(p: Port<S>): nat {
    |p.queue| + (if p.slot.Some? then 1 else 0)
  }

  /** Every command `get` hands out until the port is idle. */
  function Drain<S>(p: Port<S>): (r: seq<Command<S>>)
    requires Valid(p)
    decreases Size(p)
    ensures |r| == Size(p)
  {
    if !p.pending then []
    else
      var (c, p') := Get(p);
      [c] + Drain(p')
  }

  /** `set` applied to each command in turn. */
  function SetAll<S>(p: Port<S>, cs: seq<Command<S>>): (r: Port<S>)
    ensures Valid(p) ==> Valid(r)
    decreases |cs|
  {
    if |cs| == 0 then p else SetAll(Set(p, cs[0]), cs[1..])
  }

  /** The queued (non-coalesced) commands of a submission, in order. */
  function Queued<S>(cs: seq<Command<S>>): (r: seq<Command<S>>)
    ensures forall i :: 0 <= i < |r| ==> !Coalesced(r[i])
  {
    if |cs| == 0 then []
    else if Coalesced(cs[|cs| - 1]) then Queued(cs[..|cs| - 1])
    else Queued(cs[..|cs| - 1]) + [cs[|cs| - 1]]
  }

  /** The last PLAY or STOP of a submission, if any. */
  function LastCoalesced<S>(cs: seq<Command<S>>): (r: Option<Command<S>>)
    ensures r.Some? ==> Coalesced(r.value)
  {
    if |cs| == 0 then None
    else if Coalesced(cs[|cs| - 1]) then Some(cs[|cs| - 1])
    else LastCoalesced(cs[..|cs| - 1])
  }

  function OptionSeq<T>(o: Option<T>): seq<T> {
    if o.Some? then [o.value] else []
  }

  /** After a batch of submissions the queue holds the non-coalesced ones in
      order and the slot holds the last coalesced one, or what it held. */
  lemma {:induction false} SetAllState<S>(p: Port<S>, cs: seq<Command<S>>)
    ensures SetAll(p, cs).queue == p.queue + Queued(cs)
    ensures SetAll(p, cs).slot == if LastCoalesced(cs).Some? then LastCoalesced(cs) else p.slot
    ensures |cs| > 0 ==> SetAll(p, cs).pending
    ensures |cs| == 0 ==> SetAll(p, cs) == p
    decreases |cs|
  {
    if |cs| > 0 {
      var last := cs[|cs| - 1];
      var init := cs[..|cs| - 1];
      assert cs == init + [last];
      SetAllSnoc(p, init, last);
      SetAllState(p, init);
    }
  }

  /** Submitting one more command is one more `set`. */
  lemma {:induction false} SetAllSnoc<S>(p: Port<S>, cs: seq<Command<S>>, c: Command<S>)
    ensures SetAll(p, cs + [c]) == Set(SetAll(p, cs), c)
    decreases |cs|
  {
    if |cs| == 0 {
      assert [c][1..] == [];
    } else {
      assert (cs + [c])[1..] == cs[1..] + [c];
      SetAllSnoc(Set(p, cs[0]), cs[1..], c);
    }
  }

  /** Draining delivers the queue in order, then the slot. */
  lemma {:induction false} DrainOrder<S>(p: Port<S>)
    requires Valid(p)
    ensures Drain(p) == p.queue + OptionSeq(p.slot)
    decreases Size(p)
  {
    if p.pending {
      var (c, p') := Get(p);
      DrainOrder(p');
    }
  }

  /** Of the commands submitted to an idle port before the generator looks,
      it receives every queued command in submission order, then only the
      last PLAY or STOP. */
  lemma Coalescing<S>(cs: seq<Command<S>>)
    ensures Drain(SetAll(EmptyPort(), cs)) == Queued(cs) + OptionSeq(LastCoalesced(cs))
  {
    var p := SetAll(EmptyPort(), cs);
    SetAllState(EmptyPort(), cs);
    DrainOrder(p);
  }
}
