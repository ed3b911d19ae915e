/** The generator thread's dispatch loop as a state machine over the
    command port. Sound output and file writing become effects the worker
    records; rendering is a parameter, so the same loop serves both the
    cached `WavFile` player and the older one-shot `Wave`. */
module Worker {
  import opened Wrappers
  import opened CommPort

  /** What the thread asks of the outside world. */
  datatype Effect<B> =
    | StopSound                       // `PlaySound(0, 0, 0)`
    | PlayLoop(buf: B)                // asynchronous looped playback of a buffer
    | WriteFile(path: string, buf: B) // `writeToFile(path)`

  /** `P` is the player's own state (its wave caches), `B` a rendered file. */
  datatype Worker<P, B> = Worker(player: P, prepared: Option<B>, running: bool, effects: seq<Effect<B>>)

  datatype Failure<E> =
    | RenderFailed(error: E)  // generating a file raised
    | NothingPrepared         // WRITE with no prepared file: a method call on `None`

  function Idle<P, B>(player: P): (w: Worker<P, B>)
    ensures w.running && w.prepared.None? && w.effects == []
  {
    Worker(player, None, true, [])
  }

  /** One command. PLAY renders with the persistent player state; PREPARE
      renders with a blank one and keeps the result; WRITE emits the kept
      file and forgets it; DROP forgets it; STOP stops the sound; QUIT stops
      the sound and the loop. */
  function Step<S, P, B, E>(w: Worker<P, B>, c: Command<S>, render: (P, S) -> Result<(P, B), E>, blank: P)
    : (r: Result<Worker<P, B>, Failure<E>>)
    ensures r.Ok? ==> (r.value.running <==> w.running && !c.Quit?)
    ensures r.Ok? ==> |r.value.effects| >= |w.effects| && r.value.effects[..|w.effects|] == w.effects
    ensures r.Err? <==> (c.Write? && w.prepared.None?)
                        || (c.Play? && render(w.player, c.params).Err?)
                        || (c.Prepare? && render(blank, c.params).Err?)
    ensures r.Ok? && (c.Write? || c.Drop?) ==> r.value.prepared.None?
    ensures r.Ok? && (c.Stop? || c.Quit? || c.Play?) ==> r.value.prepared == w.prepared
    ensures r.Ok? && !c.Play? ==> r.value.player == w.player
  {
    match c
    case Quit => Ok(w.(running := false, effects := w.effects + [StopSound]))
    case Stop => Ok(w.(effects := w.effects + [StopSound]))
    case Play(s) =>
      (match render(w.player, s)
       case Err(e) => Err(RenderFailed(e))
       case Ok((p, buf)) => Ok(w.(player := p, effects := w.effects + [PlayLoop(buf)])))
    case Prepare(s) =>
      (match render(blank, s)
       case Err(e) => Err(RenderFailed(e))
       case Ok((_, buf)) => Ok(w.(prepared := Some(buf))))
    case Write(path) =>
      if w.prepared.None? then Err(NothingPrepared)
      else Ok(w.(prepared := None, effects := w.effects + [WriteFile(path, w.prepared.value)]))
    case Drop => Ok(w.(prepared := None))
  }

  /** The thread loop up to the point where it would block on an idle port,
      or returns after QUIT; an exception ends it with the failure. */
  function Run<S, P, B, E>(w: Worker<P, B>, p: Port<S>, render: (P, S) -> Result<(P, B), E>, blank: P)
    : (r: Result<(Worker<P, B>, Port<S>), Failure<E>>)
    requires Valid(p)
    decreases Size(p)
    ensures r.Ok? ==> Valid(r.value.1)
    ensures r.Ok? && w.running ==> !r.value.0.running || !r.value.1.pending
  {
    if !w.running || !p.pending then Ok((w, p))
    else
      var (c, p') := Get(p);
      match Step(w, c, render, blank)
      case Err(e) => Err(e)
      case Ok(w') => Run(w', p', render, blank)
  }

  /** The commands handled one after another, stopping after QUIT. */
  function Steps<S, P, B, E>(w: Worker<P, B>, cs: seq<Command<S>>, render: (P, S) -> Result<(P, B), E>, blank: P)
    : (r: Result<Worker<P, B>, Failure<E>>)
    decreases |cs|
  {
    if !w.running || |cs| == 0 then Ok(w)
    else
      match Step(w, cs[0], render, blank)
      case Err(e) => Err(e)
      case Ok(w') => Steps(w', cs[1..], render, blank)
  }

  /** The loop handles exactly the commands the port hands out, in order. */
  lemma {:induction false} RunIsSteps<S, P, B, E>(w: Worker<P, B>, p: Port<S>, render: (P, S) -> Result<(P, B), E>, blank: P)
    requires Valid(p)
    ensures Run(w, p, render, blank).Ok? <==> Steps(w, Drain(p), render, blank).Ok?
    ensures Run(w, p, render, blank).Ok? ==> Run(w, p, render, blank).value.0 == Steps(w, Drain(p), render, blank).value
    decreases Size(p)
  {
    if w.running && p.pending {
      var (c, p') := Get(p);
      assert Drain(p) == [c] + Drain(p');
      assert Drain(p)[1..] == Drain(p');
      match Step(w, c, render, blank)
      case Err(_) =>
      case Ok(w') => RunIsSteps(w', p', render, blank);
    }
  }

  /** Several PLAY and STOP requests before the thread looks: it only sees
      the last. PLAY, PLAY, STOP therefore never renders anything and only
      stops the sound. */
  lemma PlayPlayStop<S, P, B, E>(a: S, b: S, player: P, render: (P, S) -> Result<(P, B), E>, blank: P)
    ensures var port := SetAll(EmptyPort(), [Play(a), Play(b), Stop]);
      Run(Idle(player), port, render, blank) == Ok((Idle(player).(effects := [StopSound]), EmptyPort()))
  {
    var cs: seq<Command<S>> := [Play(a), Play(b), Stop];
    var port := SetAll(EmptyPort(), cs);
    Coalescing(cs);
    var one: seq<Command<S>> := [Play(a)];
    var two: seq<Command<S>> := [Play(a), Play(b)];
    assert cs[..2] == two && two[..1] == one && one[..0] == [];
    assert Queued(one) == [];
    assert Queued(two) == [];
    assert Queued(cs) == [];
    assert LastCoalesced(cs) == Some(Stop);
    assert Drain(port) == [Stop];
    RunIsSteps(Idle(player), port, render, blank);
    assert port == Port([], Some(Stop), true) by {
      SetAllState(EmptyPort(), cs);
    }
  }

  /** The queue is served before the slot: PREPARE, PLAY, WRITE writes the
      prepared file first and starts the playback last. */
  lemma PrepareBeforePlay<S, P, B, E>(a: S, b: S, path: string, player: P, render: (P, S) -> Result<(P, B), E>, blank: P)
    requires render(blank, a).Ok? && render(player, b).Ok?
    ensures var port := SetAll(EmptyPort(), [Prepare(a), Play(b), Write(path)]);
      var r := Run(Idle(player), port, render, blank);
      && r.Ok?
      && r.value.0.effects == [WriteFile(path, render(blank, a).value.1), PlayLoop(render(player, b).value.1)]
      && r.value.0.prepared.None?
      && r.value.0.player == render(player, b).value.0
  {
    var cs: seq<Command<S>> := [Prepare(a), Play(b), Write(path)];
    var port := SetAll(EmptyPort(), cs);
    var order := [Prepare(a), Write(path), Play(b)];
    PlayServedLast(a, b, path);
    RunIsSteps(Idle(player), port, render, blank);
    var w0: Worker<P, B> := Idle(player);
    var w1 := Step(w0, Prepare(a), render, blank).value;
    var w2 := Step(w1, Write(path), render, blank).value;
    var w3 := Step(w2, Play(b), render, blank).value;
    StepsCons(w0, order, render, blank);
    StepsCons(w1, order[1..], render, blank);
    StepsCons(w2, order[1..][1..], render, blank);
    assert order[1..][1..][1..] == [];
  }

  /** The port hands out PREPARE and WRITE before the PLAY that was
      submitted between them. */
  lemma PlayServedLast<S>(a: S, b: S, path: string)
    ensures Drain(SetAll(EmptyPort(), [Prepare(a), Play(b), Write(path)])) == [Prepare(a), Write(path), Play(b)]
  {
    var cs: seq<Command<S>> := [Prepare(a), Play(b), Write(path)];
    Coalescing(cs);
    var one: seq<Command<S>> := [Prepare(a)];
    assert cs[..2] == one + [Play(b)] && cs[..2][..1] == one && one[..0] == [];
    assert Queued(one) == one;
    assert Queued(cs) == [Prepare(a), Write(path)];
    assert LastCoalesced(cs) == Some(Play(b));
  }

  /** A running worker handles the first command, then the rest. */
  lemma StepsCons<S, P, B, E>(w: Worker<P, B>, cs: seq<Command<S>>, render: (P, S) -> Result<(P, B), E>, blank: P)
    requires w.running && |cs| > 0 && Step(w, cs[0], render, blank).Ok?
    ensures Steps(w, cs, render, blank) == Steps(Step(w, cs[0], render, blank).value, cs[1..], render, blank)
  {
  }

  /** WRITE without a prepared file raises, so does WRITE right after DROP. */
  lemma WriteNeedsPrepare<S, P, B, E>(w: Worker<P, B>, path: string, render: (P, S) -> Result<(P, B), E>, blank: P)
    requires w.running
    ensures Step(w, Drop, render, blank).Ok?
    ensures Steps(w, [Drop, Write(path)], render, blank) == Err(NothingPrepared)
  {
    var cs: seq<Command<S>> := [Drop, Write(path)];
    var w' := Step(w, Drop, render, blank).value;
    assert cs[1..] == [Write(path)];
    assert Step(w', Write(path), render, blank) == Err(NothingPrepared);
  }

  /** After QUIT nothing else is handled: later commands leave the worker as
      QUIT left it. */
  lemma QuitIsFinal<S, P, B, E>(w: Worker<P, B>, rest: seq<Command<S>>, render: (P, S) -> Result<(P, B), E>, blank: P)
    requires w.running
    ensures var r := Steps(w, [Quit] + rest, render, blank);
      && r.Ok? && !r.value.running
      && r.value.effects == w.effects + [StopSound]
      && r.value.prepared == w.prepared
  {
    assert ([Quit] + rest)[1..] == rest;
  }
}
