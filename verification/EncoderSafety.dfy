// What holds of every run of the protocol, from the start, under every interleaving of
// the encoder with the writers and every failure of the calls they make.

module EncoderSafety {

  import opened Wrappers
  import opened EncoderModel
  import opened EncoderClient
  import opened EncoderInvariant

  lemma {:induction false} StartInRange()
    ensures InRange(INIT)
  {
  }

  // The state after the events evs.
  function Run(evs: seq<Event>): (s: State)
    ensures InRange(s)
  {
    StartInRange();
    Exec(INIT, evs)
  }

  lemma {:induction false} RunKeeps(evs: seq<Event>)
    ensures Inv(Run(evs))
  {
    hide Inv;
    InvInit();
    ExecKeeps(INIT, evs);
  }

  lemma {:induction false} ClientOf(s: State, id: nat)
    requires Inv(s) && id < |s.clients|
    ensures ClientInv(ViewOf(s.enc, id), s.read, s.clients[id])
  {
    hide InRange, Lists, InputsInv, ReadersInv, ClientInv;
  }

  // ---------- what a client is sent ----------

  // The packets written for a client are a prefix of those enqueued for it; those are
  // the packets read from the one that opened its output on, none left out; and between
  // rounds a client in the list has been offered every one of them.
  lemma {:induction false} SentInOrder(evs: seq<Event>, id: nat)
    requires id < |Run(evs).clients|
    ensures var s := Run(evs); var log := s.clients[id].log;
      && Prefix(log.written, log.enqueued)
      && (log.first.None? ==> log.enqueued == [])
      && (log.first.Some? ==>
            && Consecutive(log.enqueued, log.first.value)
            && log.first.value + |log.enqueued| <= s.read
            && (s.enc.pc.Head? && id in s.enc.clients ==> log.first.value + |log.enqueued| == s.read))
  {
    hide Inv, Exec, InRange, Locks, Conserved, Pending;
    RunKeeps(evs);
    ClientOf(Run(evs), id);
  }

  // Until its output is gone or its writer gives up, a client's enqueued packets are
  // those written, then the one in the writer's hand, then the channel, which is bounded.
  lemma {:induction false} NothingLost(evs: seq<Event>, id: nat)
    requires id < |Run(evs).clients|
    ensures var c := Run(evs).clients[id];
      && |c.chan.queue| <= CHANNEL_SIZE
      && (c.out.field && !c.writer.Quit? && !c.writer.Done?
          ==> c.log.enqueued == c.log.written + Pending(c.writer) + c.chan.queue)
  {
    hide Inv, Exec, InRange, Locks, Segment, Conserved, Pending, ViewOf;
    RunKeeps(evs);
    ClientOf(Run(evs), id);
  }

  // ---------- clones ----------

  lemma {:induction false} ConsecutiveOnce(xs: seq<Packet>, first: Packet, p: Packet)
    requires Consecutive(xs, first)
    ensures multiset(xs)[p] <= 1
    decreases |xs|
  {
    if xs != [] {
      var n := |xs| - 1;
      assert xs == xs[..n] + [xs[n]];
      ConsecutiveOnce(xs[..n], first, p);
      if p == xs[n] { assert p !in xs[..n]; }
    }
  }

  // Each clone made for a client is in one place: the channel, the writer's hand, the
  // encoder's hand, or freed; and none is freed twice.
  lemma {:induction false} ClonesConserved(evs: seq<Event>, id: nat, p: Packet)
    requires id < |Run(evs).clients|
    ensures var s := Run(evs); var c := s.clients[id];
      && multiset(c.log.cloned)
         == multiset(c.chan.queue) + WriterHand(c.writer) + EncoderHand(ViewOf(s.enc, id)) + c.log.freed
      && multiset(c.log.cloned)[p] <= 1 && c.log.freed[p] <= 1
  {
    hide Inv, Exec, InRange, Locks, Flow, Consecutive, ViewOf;
    RunKeeps(evs);
    ClientOf(Run(evs), id);
    var log := Run(evs).clients[id].log;
    if log.first.Some? { ConsecutiveOnce(log.cloned, log.first.value, p); }
  }

  // Once cleanupClient has run to its end and the writer too, all clones are freed.
  lemma {:induction false} AllFreed(evs: seq<Event>, id: nat)
    requires id < |Run(evs).clients|
    ensures var c := Run(evs).clients[id];
      c.chan.closed && !c.chan.field && (c.writer.Done? || c.writer.BlockedOnNil?)
      ==> c.log.freed == multiset(c.log.cloned)
  {
    hide Inv, Exec, InRange, Locks, Flow, Segment, ViewOf;
    RunKeeps(evs);
    ClientOf(Run(evs), id);
  }

  // ---------- handles ----------

  // At most one input is open; none between rounds without clients, none after the end.
  lemma {:induction false} OneInput(evs: seq<Event>, j: nat, k: nat)
    requires j < |Run(evs).inputs| && k < |Run(evs).inputs|
    ensures var s := Run(evs);
      && (s.inputs[j].live && s.inputs[k].live ==> j == k)
      && (s.inputs[j].live ==> !s.enc.pc.Exited? && !(s.enc.pc.Head? && s.enc.clients == []))
  {
    hide Exec, InRange, Lists, ClientsInv, ReadersInv;
    RunKeeps(evs);
    assert InputInv(Run(evs).enc, j, Run(evs).inputs[j]);
    assert InputInv(Run(evs).enc, k, Run(evs).inputs[k]);
  }

  // What the encoder's next access needs of the handle or the channel it uses.
  predicate EncoderUseOk(s: State)
    requires InRange(s)
  {
    var e := s.enc;
    match e.pc
    case ReadPacket => s.inputs[e.input.value].field && s.inputs[e.input.value].live
    case OutOpen =>
      s.inputs[e.input.value].field && s.inputs[e.input.value].live && s.clients[e.cur].out.pipe
    case OutDone(ok) => !s.clients[e.cur].out.field && !s.clients[e.cur].chan.made
    case Send(p) =>
      s.clients[e.cur].chan.field && s.clients[e.cur].chan.made && !s.clients[e.cur].chan.closed
    case CleanOut => s.clients[e.cur].out.field ==> s.clients[e.cur].out.live && !s.clients[e.cur].writer.Writing?
    case CleanClose => s.clients[e.cur].chan.field ==> s.clients[e.cur].chan.made && !s.clients[e.cur].chan.closed
    case DestroyCall =>
      s.inputs[e.input.value].field ==>
        && s.inputs[e.input.value].live
        && forall id :: 0 <= id < |s.clients| && s.clients[id].writer.Writing? ==> s.clients[id].input != e.input.value
    case _ => true
  }

  // vs_write_packet is given NULL or something alive, and no one destroys it meanwhile.
  predicate WriterUseOk(s: State, id: nat)
    requires InRange(s) && id < |s.clients|
  {
    var c := s.clients[id];
    c.writer.Writing? ==>
      && (s.inputs[c.input].field ==> s.inputs[c.input].live)
      && (c.out.field ==> c.out.live)
      && !c.wlock && !s.inputs[c.input].wlock
  }

  lemma {:induction false} EncoderClientUse(s: State)
    requires Inv(s) && WorksOnCur(s.enc.pc)
    ensures var c := s.clients[s.enc.cur];
      && (s.enc.pc.OutOpen? ==> c.out.pipe)
      && (s.enc.pc.OutDone? ==> !c.out.field && !c.chan.made)
      && (s.enc.pc.Send? ==> c.chan.field && c.chan.made && !c.chan.closed)
      && (s.enc.pc.CleanOut? && c.out.field ==> c.out.live && !c.writer.Writing?)
      && (s.enc.pc.CleanClose? && c.chan.field ==> c.chan.made && !c.chan.closed)
  {
    hide Inv, InRange, Flow, Segment, Conserved;
    InvInRange(s);
    assert s.enc.cur < |s.clients| by { CurInRange(s); }
    ClientOf(s, s.enc.cur);
  }

  lemma {:induction false} CurInRange(s: State)
    requires InRange(s) && WorksOnCur(s.enc.pc)
    ensures s.enc.cur < |s.clients|
  {
  }

  lemma {:induction false} EncoderInputUse(s: State)
    requires Inv(s) && s.enc.input.Some? && !Closing(s.enc) && !s.enc.pc.DestroyNil?
    ensures var x := s.inputs[s.enc.input.value];
      && x.field && x.live
      && (s.enc.pc.DestroyCall? ==>
            forall id :: 0 <= id < |s.clients| && s.clients[id].writer.Writing? ==>
              s.clients[id].input != s.enc.input.value)
  {
    hide Lists, ClientsInv;
    var k := s.enc.input.value;
    assert InputInv(s.enc, k, s.inputs[k]);
    assert ReadersOf(s.clients, k, s.inputs[k].readers);
  }

  // Every use of a handle or a channel, by anyone, at any moment of any run, is sound.
  lemma {:induction false} UsesAreSafe(evs: seq<Event>)
    ensures EncoderUseOk(Run(evs))
    ensures forall id :: 0 <= id < |Run(evs).clients| ==> WriterUseOk(Run(evs), id)
  {
    hide Inv, Exec;
    var s := Run(evs);
    RunKeeps(evs);
    if WorksOnCur(s.enc.pc) { EncoderClientUse(s); }
    if s.enc.input.Some? && !Closing(s.enc) && !s.enc.pc.DestroyNil? { EncoderInputUse(s); }
    forall id | 0 <= id < |s.clients| ensures WriterUseOk(s, id) { WriterUse(s, id); }
  }

  lemma {:induction false} WriterUse(s: State, id: nat)
    requires Inv(s) && InRange(s) && id < |s.clients|
    ensures WriterUseOk(s, id)
  {
    hide Lists, ClientsInv, Flow, Segment, Conserved;
    ClientOf(s, id);
    var k := s.clients[id].input;
    if s.clients[id].writer.Writing? {
      assert WritersInRange(s.clients, |s.inputs|);
      assert InputInv(s.enc, k, s.inputs[k]);
      assert ReadersOf(s.clients, k, s.inputs[k].readers);
    }
  }

  // Nothing of the client is left: no pipe, no output, no clone in a channel.
  predicate LetGo(c: Client) {
    && !c.out.pipe && !c.out.field && !c.out.live
    && !c.chan.field && (c.chan.made ==> c.chan.closed) && c.chan.queue == []
  }

  // Between rounds, exactly the clients in the list are held on to; after the end, none.
  lemma {:induction false} HeldIffListed(evs: seq<Event>, id: nat)
    requires id < |Run(evs).clients|
    ensures var s := Run(evs);
      && (s.enc.pc.Head? ==> if id in s.enc.clients then s.clients[id].out.pipe else LetGo(s.clients[id]))
      && (s.enc.pc.Exited? ==> LetGo(s.clients[id]))
  {
    hide Exec, InRange, ClientsInv, InputsInv, ReadersInv, Flow, Segment, Conserved, Locks;
    RunKeeps(evs);
    ClientOf(Run(evs), id);
  }

  // ---------- what later steps do to a client ----------

  // The records only grow; after the output is gone they stand still.
  predicate Later(c: Client, c': Client) {
    && Prefix(c.log.written, c'.log.written) && Prefix(c.log.enqueued, c'.log.enqueued)
    && (c.log.first.Some? ==> c'.log.first == c.log.first)
    && (c.writer.BlockedOnNil? ==> c'.writer.BlockedOnNil?)
    && (c.log.first.Some? && !c.out.field ==>
          !c'.out.field && c'.log.written == c.log.written && c'.log.enqueued == c.log.enqueued)
  }

  predicate AllLater(cs: seq<Client>, cs': seq<Client>) {
    |cs| <= |cs'| && forall id :: 0 <= id < |cs| ==> Later(cs[id], cs'[id])
  }

  lemma {:induction false} LaterTransitive(cs: seq<Client>, cs': seq<Client>, cs'': seq<Client>)
    requires AllLater(cs, cs') && AllLater(cs', cs'')
    ensures AllLater(cs, cs'')
  {
    forall id | 0 <= id < |cs| ensures Later(cs[id], cs''[id]) {
      assert Later(cs[id], cs'[id]) && Later(cs'[id], cs''[id]);
    }
  }

  lemma {:induction false} LaterSelf(c: Client)
    ensures Later(c, c)
  {
  }

  lemma {:induction false} LaterLock(c: Client)
    ensures Later(c, c.(wlock := true))
  {
  }

  lemma {:induction false} ServeLater(pc: Pc, c: Client, p: Packet, input: nat, ch: Choice)
    requires Serves(pc) && (pc.Send? ==> c.out.field)
    requires pc.OutDone? ==> c.log.first.None? && c.writer.NoWriter?
    ensures var r := Serve(pc, c, p, input, ch); r.Some? ==> Later(c, r.value.client)
  {
  }

  lemma {:induction false} ServeReady(pc: Pc, c: Client, read: nat)
    requires Serves(pc) && ClientInv(At(pc), read, c)
    ensures (pc.OutDone? ==> c.log.first.None? && c.writer.NoWriter?) && (pc.Send? ==> c.out.field)
  {
    hide Flow, Segment, Conserved, Locks;
  }

  lemma {:induction false} CleanLater(pc: Pc, c: Client, next: Pc)
    requires Cleans(pc)
    ensures var r := Clean(pc, c, next); r.Some? ==> Later(c, r.value.client)
  {
  }

  lemma {:induction false} WriteLater(c: Client, field: bool, ch: Choice)
    ensures Write(c, field, ch).Some? ==> Later(c, Write(c, field, ch).value)
  {
  }

  lemma {:induction false} EncoderLater(s: State, ch: Choice)
    requires Inv(s)
    ensures InRange(s) && (EncoderStep(s, ch).Some? ==> AllLater(s.clients, EncoderStep(s, ch).value.clients))
  {
    hide InputsInv, ReadersInv, Lists, Serve, Clean, Later, ClientInv;
    forall id | 0 <= id < |s.clients| ensures Later(s.clients[id], s.clients[id]) { LaterSelf(s.clients[id]); }
    if WorksOnCur(s.enc.pc) {
      var c := s.clients[s.enc.cur];
      ClientOf(s, s.enc.cur);
      if Serves(s.enc.pc) {
        ServeReady(s.enc.pc, c, s.read);
        ServeLater(s.enc.pc, c, s.read - 1, s.enc.input.value, ch);
      } else { CleanLater(s.enc.pc, c, if s.enc.shut then ShutNext else Fan); }
    } else if s.enc.pc.Fan? && s.enc.todo != [] { LaterLock(s.clients[s.enc.todo[0]]); }
  }

  lemma {:induction false} WriterLater(s: State, id: nat, ch: Choice)
    requires InRange(s)
    ensures WriterStep(s, id, ch).Some? ==> AllLater(s.clients, WriterStep(s, id, ch).value.clients)
  {
    hide Write, Later;
    forall k | 0 <= k < |s.clients| ensures Later(s.clients[k], s.clients[k]) { LaterSelf(s.clients[k]); }
    if id < |s.clients| && !s.clients[id].writer.NoWriter? {
      WriteLater(s.clients[id], s.inputs[s.clients[id].input].field, ch);
    }
  }

  lemma {:induction false} NextLater(s: State, ev: Event)
    requires Inv(s)
    ensures InRange(s) && AllLater(s.clients, Next(s, ev).clients)
  {
    hide Inv, InRange, EncoderStep, WriterStep, Later;
    InvInRange(s);
    forall k | 0 <= k < |s.clients| ensures Later(s.clients[k], s.clients[k]) { LaterSelf(s.clients[k]); }
    match ev
    case OfEncoder(ch) => EncoderLater(s, ch);
    case OfWriter(id, ch) => WriterLater(s, id, ch);
  }

  lemma {:induction false} ExecLater(s: State, evs: seq<Event>)
    requires Inv(s)
    ensures InRange(s) && AllLater(s.clients, Exec(s, evs).clients)
    decreases |evs|
  {
    hide Inv, InRange, Next, Later;
    InvInRange(s);
    forall k | 0 <= k < |s.clients| ensures Later(s.clients[k], s.clients[k]) { LaterSelf(s.clients[k]); }
    if evs != [] {
      NextKeeps(s, evs[0]);
      NextInRange(s, evs[0]);
      NextLater(s, evs[0]);
      ExecLater(Next(s, evs[0]), evs[1..]);
      LaterTransitive(s.clients, Next(s, evs[0]).clients, Exec(s, evs).clients);
    }
  }

  // Nothing is written for a client, and nothing enqueued, once cleanup has cleared its
  // output; before that its stream is only ever added to.
  lemma {:induction false} NothingAfterCleanup(evs: seq<Event>, more: seq<Event>, id: nat)
    requires id < |Run(evs).clients|
    ensures id < |Exec(Run(evs), more).clients|
    ensures var c := Run(evs).clients[id]; var c' := Exec(Run(evs), more).clients[id];
      && Prefix(c.log.written, c'.log.written) && Prefix(c.log.enqueued, c'.log.enqueued)
      && (c.log.first.Some? && !c.out.field ==>
            !c'.out.field && c'.log.written == c.log.written && c'.log.enqueued == c.log.enqueued)
  {
    hide Inv, Exec, InRange;
    RunKeeps(evs);
    ExecLater(Run(evs), more);
    assert Later(Run(evs).clients[id], Exec(Run(evs), more).clients[id]);
  }
}
