// That no one waits for some one who cannot move, that every round of the encoder ends
// and every packet in a writer's hand gets on, and that new clients are looked for first.

module EncoderWaiting {

  import opened Wrappers
  import opened EncoderModel
  import opened EncoderClient
  import opened EncoderInvariant
  import opened EncoderSafety
  import opened EncoderBlocking
  import opened EncoderProgress

  // ---------- no one waits in vain ----------

  // A writer that holds its client's lock can go on while no one destroys its input.
  lemma {:induction false} HolderMoves(s: State, id: nat, ch: Choice)
    requires Inv(s) && InRange(s) && id < |s.clients| && s.clients[id].rlock
    requires !s.enc.pc.DestroyCall? && !s.enc.pc.DestroyNil?
    ensures WriterStep(s, id, ch).Some?
  {
    hide Lists, ReadersInv, Flow, Segment, Conserved, Shape;
    ClientOf(s, id);
    WritersIndex(s);
    var k := s.clients[id].input;
    assert InputInv(s.enc, k, s.inputs[k]);
  }

  lemma {:induction false} ReaderMoves(s: State, id: nat, k: nat, ch: Choice)
    requires Inv(s) && InRange(s) && k < |s.inputs| && id in s.inputs[k].readers
    ensures id < |s.clients| && WriterStep(s, id, ch).Some?
  {
    hide Lists, InputsInv, ClientsInv;
    assert ReadersOf(s.clients, k, s.inputs[k].readers);
  }

  lemma {:induction false} TakesNext(s: State)
    requires Inv(s) && InRange(s) && s.enc.pc.Fan? && s.enc.todo != []
    ensures s.enc.todo[0] < |s.clients| && !s.clients[s.enc.todo[0]].wlock
  {
    hide InputsInv, ReadersInv, ClientsInv, Flow, Segment, Conserved, Shape, Distinct;
    ClientOf(s, s.enc.todo[0]);
  }

  lemma {:induction false} InputUnlocked(s: State)
    requires Inv(s) && InRange(s) && s.enc.input.Some? && !s.enc.pc.DestroyCall? && !s.enc.pc.DestroyNil?
    ensures var x := s.inputs[s.enc.input.value]; !x.wlock && (x.encoderReads ==> ReadsInput(s.enc.pc))
  {
    hide Lists, ReadersInv, ClientsInv;
    assert InputInv(s.enc, s.enc.input.value, s.inputs[s.enc.input.value]);
  }

  // When the encoder cannot move though a client is waiting to be accepted, it has
  // returned, or waits for its own lock, or a writer it waits for can move.
  lemma {:induction false} EncoderWaits(s: State, ch: Choice)
    requires Inv(s) && InRange(s) && EncoderStep(s, Yes).None?
    ensures s.enc.pc.Exited? || Stuck(s) || exists id :: 0 <= id < |s.clients| && WriterStep(s, id, ch).Some?
  {
    hide Inv, Serve, WriterStep;
    if s.enc.pc.Fan? {
      TakesNext(s);
      HolderMoves(s, s.enc.todo[0], ch);
    } else if s.enc.pc.CleanLock? {
      if !s.clients[s.enc.cur].wlock { HolderMoves(s, s.enc.cur, ch); }
    } else if Serves(s.enc.pc) {
      InputUnlocked(s);
      ServeAlways(s.enc.pc, s.clients[s.enc.cur], s.read - 1, s.enc.input.value, Yes);
    } else if s.enc.pc.DestroyLock? {
      InputUnlocked(s);
      var k := s.enc.input.value;
      var id :| id in s.inputs[k].readers;
      ReaderMoves(s, id, k, ch);
    }
  }

  // So at every point of every run some one can move, unless the encoder has returned or
  // waits for its own lock.
  lemma {:induction false} NoDeadlock(evs: seq<Event>, ch: Choice)
    ensures var s := Run(evs);
      || s.enc.pc.Exited? || Stuck(s) || EncoderStep(s, Yes).Some?
      || exists id :: 0 <= id < |s.clients| && WriterStep(s, id, ch).Some?
  {
    hide *;
    RunKeeps(evs);
    if EncoderStep(Run(evs), Yes).None? { EncoderWaits(Run(evs), ch); }
  }

  lemma {:induction false} ServeAlways(pc: Pc, c: Client, p: Packet, input: nat, ch: Choice)
    requires Serves(pc)
    ensures Serve(pc, c, p, input, ch).Some?
  {
  }

  // When a writer that has not ended cannot move, its channel is empty and open, or it
  // waits for the encoder and the encoder can move.
  lemma {:induction false} WriterWaits(s: State, id: nat, ch: Choice)
    requires Inv(s) && InRange(s) && id < |s.clients| && WriterStep(s, id, ch).None?
    ensures var c := s.clients[id];
      || c.writer.NoWriter? || c.writer.BlockedOnNil? || c.writer.Done?
      || (c.writer.Recv? && c.chan.queue == [] && !c.chan.closed)
      || EncoderStep(s, ch).Some?
  {
    hide Lists, ReadersInv, ClientsInv, Flow, Segment, Conserved, EncoderStep;
    ClientOf(s, id);
    WritersIndex(s);
    var c := s.clients[id];
    if c.writer.Got? {
      HolderWorks(s, id, ch);
    } else if c.writer.Reading? {
      assert InputInv(s.enc, c.input, s.inputs[c.input]);
      DestroyWorks(s, ch);
    }
  }

  lemma {:induction false} HolderWorks(s: State, id: nat, ch: Choice)
    requires Inv(s) && InRange(s) && id < |s.clients| && s.clients[id].wlock && s.clients[id].writer.Got?
    ensures EncoderStep(s, ch).Some?
  {
    hide Inv, Flow, Segment, Conserved, Serve, Clean;
    ClientOf(s, id);
    InRangeKept(s);
    if Serves(s.enc.pc) {
      InputUnlocked(s);
      ServeAlways(s.enc.pc, s.clients[s.enc.cur], s.read - 1, s.enc.input.value, ch);
    } else {
      CleanAlways(s.enc.pc, s.clients[s.enc.cur], if s.enc.shut then ShutNext else Fan);
    }
  }

  lemma {:induction false} InRangeKept(s: State)
    requires InRange(s)
    ensures WorksOnCur(s.enc.pc) ==> s.enc.cur < |s.clients|
    ensures Serves(s.enc.pc) ==> s.enc.input.Some?
  {
  }

  lemma {:induction false} CleanAlways(pc: Pc, c: Client, next: Pc)
    requires Cleans(pc) && !pc.CleanLock?
    ensures Clean(pc, c, next).Some?
  {
  }

  lemma {:induction false} DestroyWorks(s: State, ch: Choice)
    requires InRange(s) && (s.enc.pc.DestroyCall? || s.enc.pc.DestroyNil?)
    ensures EncoderStep(s, ch).Some?
  {
  }

  // ---------- rounds end, and packets get through ----------

  // How many steps at place pc are left for a client with q packets in its channel, at most.
  function StepsLeft(pc: Pc, q: nat): nat {
    match pc
    case Locked => 96
    case OutRLock => 95
    case OutOpen => 94
    case OutDone(_) => 93
    case Unlock => 92
    case Clone => 91
    case Send(_) => 90
    case SlowFree(_) => 89
    case CleanLock => 88
    case CleanPipe => 87
    case CleanOut => 86
    case CleanOutNil => 85
    case CleanUnlock => 84
    case CleanClose => 83
    case Drain => 2 * q + 2
    case DrainFree(_) => 2 * q + 3
    case DrainNil => 1
    case _ => 0
  }

  // In a round or while cleaning up on the way out: what is left to do.
  function Work(s: State): nat
    requires InRange(s)
  {
    100 * |s.enc.todo| + if WorksOnCur(s.enc.pc) then StepsLeft(s.enc.pc, |s.clients[s.enc.cur].chan.queue|) else 0
  }

  predicate Working(e: Encoder) {
    InRound(e) || Closing(e)
  }

  lemma {:induction false} ServeWorks(pc: Pc, c: Client, p: Packet, input: nat, ch: Choice)
    requires Serves(pc)
    ensures var r := Serve(pc, c, p, input, ch);
      r.Some? ==> StepsLeft(r.value.pc, |r.value.client.chan.queue|) < StepsLeft(pc, |c.chan.queue|)
  {
  }

  lemma {:induction false} CleanWorks(pc: Pc, c: Client, next: Pc)
    requires Cleans(pc) && |c.chan.queue| <= CHANNEL_SIZE && (next.Fan? || next.ShutNext?)
    ensures var r := Clean(pc, c, next);
      r.Some? ==> StepsLeft(r.value.pc, |r.value.client.chan.queue|) < StepsLeft(pc, |c.chan.queue|)
  {
  }

  lemma {:induction false} ChannelBound(s: State, id: nat)
    requires Inv(s) && id < |s.clients|
    ensures |s.clients[id].chan.queue| <= CHANNEL_SIZE
  {
    hide Inv, Flow, Segment, Conserved, Locks, Opened, Unopened;
    ClientOf(s, id);
  }

  // Every step of the encoder in a round, or on its way out, leaves less to do; so a
  // round over n clients takes at most 100 * n + 1 of them.
  lemma {:induction false} WorkShrinks(s: State, ch: Choice)
    requires Inv(s) && InRange(s) && Working(s.enc)
    ensures var r := EncoderStep(s, ch);
      r.Some? && Working(r.value.enc) && !r.value.enc.pc.Exited? ==> InRange(r.value) && Work(r.value) < Work(s)
  {
    hide Inv, Serve, Clean, WritersInRange, Below, StepsLeft;
    EncoderStepInRange(s, ch);
    if Serves(s.enc.pc) {
      ServeStepWorks(s, ch);
    } else if Cleans(s.enc.pc) {
      CleanStepWorks(s);
    } else {
      TakeWorks(s, ch);
    }
  }

  lemma {:induction false} ServeStepWorks(s: State, ch: Choice)
    requires InRange(s) && Serves(s.enc.pc)
    ensures var r := ServeStep(s, ch); r.Some? ==> InRange(r.value) && Work(r.value) < Work(s)
  {
    hide Serve, WritersInRange, Below, StepsLeft;
    ServeInRange(s, ch);
    ServeWorks(s.enc.pc, s.clients[s.enc.cur], s.read - 1, s.enc.input.value, ch);
    ServeGoesOn(s.enc.pc, s.clients[s.enc.cur], s.read - 1, s.enc.input.value, ch);
  }

  lemma {:induction false} CleanStepWorks(s: State)
    requires Inv(s) && InRange(s) && Cleans(s.enc.pc)
    ensures var r := CleanStep(s); r.Some? ==> InRange(r.value) && Work(r.value) < Work(s)
  {
    hide Inv, Clean, WritersInRange, Below, StepsLeft;
    var next := if s.enc.shut then ShutNext else Fan;
    CleanInRange(s);
    ChannelBound(s, s.enc.cur);
    CleanWorks(s.enc.pc, s.clients[s.enc.cur], next);
    CleanGoesOn(s.enc.pc, s.clients[s.enc.cur], next);
  }

  lemma {:induction false} TakeWorks(s: State, ch: Choice)
    requires InRange(s) && Working(s.enc) && !Serves(s.enc.pc) && !Cleans(s.enc.pc)
    ensures var r := EncoderStep(s, ch);
      r.Some? && Working(r.value.enc) && !r.value.enc.pc.Exited? ==> InRange(r.value) && Work(r.value) < Work(s)
  {
    hide Serve, Clean, WritersInRange;
    EncoderStepInRange(s, ch);
  }

  // How many steps a writer is from its next packet or its end.
  function WriterLeft(w: Writer): nat {
    match w
    case Got(_) => 6
    case Reading(_) => 5
    case Writing(_) => 4
    case Wrote(_, _) => 3
    case Released(_, _) => 2
    case Freeing(_) => 1
    case Quit => 1
    case _ => 0
  }

  // A writer with a packet in hand comes nearer to its next one, or its end, by every step.
  lemma {:induction false} WriterGetsOn(c: Client, field: bool, ch: Choice)
    requires WriterLeft(c.writer) > 0
    ensures Write(c, field, ch).Some? ==> WriterLeft(Write(c, field, ch).value.writer) < WriterLeft(c.writer)
  {
  }

  // Before it opens an input or reads from it the encoder has looked for new clients and
  // found no more; it opens one only if it has none.
  lemma {:induction false} LooksFirst(s: State, ev: Event)
    requires InRange(s) && !s.enc.pc.Opening? && !s.enc.pc.ReadPacket?
    ensures var s' := Next(s, ev);
      s'.enc.pc.Opening? || s'.enc.pc.ReadPacket? ==>
        && s.enc.pc.Accept? && ev.OfEncoder? && !ev.choice.Yes?
        && (s'.enc.pc.Opening? <==> s.enc.input.None?)
  {
    hide WritersInRange, Serve, Clean, Write;
    if ev.OfWriter? {
      WriterKeepsPc(s, ev.client, ev.choice);
    } else if Serves(s.enc.pc) {
      ServeGoesOn(s.enc.pc, s.clients[s.enc.cur], s.read - 1, s.enc.input.value, ev.choice);
    } else if Cleans(s.enc.pc) {
      CleanGoesOn(s.enc.pc, s.clients[s.enc.cur], if s.enc.shut then ShutNext else Fan);
    }
  }
}
