// The order in which clients are served, the input they are served from, and which of
// their packets the writers get out.

module EncoderProgress {

  import opened Wrappers
  import opened EncoderModel
  import opened EncoderClient
  import opened EncoderInvariant
  import opened EncoderSafety
  import opened EncoderBlocking
  import opened EncoderRuns

  // ---------- one input for all, and clients in order ----------

  // In order of arrival.
  predicate Ascending(ids: seq<nat>) {
    forall i, j :: 0 <= i < j < |ids| ==> ids[i] < ids[j]
  }

  // The clients kept so far, the one being served, those to come.
  function Line(e: Encoder): seq<nat> {
    if InRound(e) then e.kept + (if WorksOnCur(e.pc) then [e.cur] else []) + e.todo else e.clients
  }

  // A client being streamed to reads from the encoder's input, and the input goes only
  // when no client is left or the encoder gives up.
  predicate Shared(s: State) {
    && (Destroys(s.enc.pc) && !s.enc.shut ==> s.enc.clients == [])
    && (!s.enc.shut ==> forall id :: 0 <= id < |s.clients| ==> SharesInput(s, id))
  }

  predicate SharesInput(s: State, id: nat)
    requires id < |s.clients|
  {
    s.clients[id].log.first.Some? && Streams(ViewOf(s.enc, id)) ==> s.enc.input == Some(s.clients[id].input)
  }

  predicate InOrder(s: State) {
    (!Closing(s.enc) ==> Ascending(Line(s.enc))) && Shared(s)
  }

  lemma {:induction false} OrderInit()
    ensures InOrder(INIT)
  {
  }

  // ---------- the order ----------

  lemma {:induction false} AcceptOrder(s: State, ch: Choice)
    requires InRange(s) && Accepts(s.enc.pc) && Ascending(s.enc.clients)
    ensures AcceptStep(s, ch).Some? ==> Ascending(Line(AcceptStep(s, ch).value.enc))
  {
    hide WritersInRange;
  }

  lemma {:induction false} LoopOrder(s: State, ch: Choice)
    requires InRange(s) && !InRound(s.enc) && !Destroys(s.enc.pc) && !Accepts(s.enc.pc)
    requires !Closing(s.enc) ==> Ascending(Line(s.enc))
    ensures var r := LoopStep(s, ch); r.Some? && !Closing(r.value.enc) ==> Ascending(Line(r.value.enc))
  {
    hide WritersInRange, Below, Ascending;
    assert [] + s.enc.clients == s.enc.clients;
    assert [] + [] + s.enc.clients == s.enc.clients;
  }

  lemma {:induction false} FanOrder(s: State)
    requires InRange(s) && s.enc.pc.Fan? && Ascending(Line(s.enc))
    ensures FanStep(s).Some? ==> Ascending(Line(FanStep(s).value.enc))
  {
    hide WritersInRange, Below, Ascending;
    var e := s.enc;
    if e.todo == [] {
      assert e.kept + [] + e.todo == e.kept;
    } else {
      assert e.kept + [] + e.todo == e.kept + [e.todo[0]] + e.todo[1..];
    }
  }

  lemma {:induction false} ServeOrder(s: State, ch: Choice)
    requires InRange(s) && Serves(s.enc.pc) && Lists(s.enc) && Ascending(Line(s.enc))
    ensures ServeStep(s, ch).Some? ==> Ascending(Line(ServeStep(s, ch).value.enc))
  {
    hide WritersInRange, Below, Ascending, Serve, Distinct, Disjoint;
    var e := s.enc;
    ServeGoesOn(e.pc, s.clients[e.cur], s.read - 1, e.input.value, ch);
    assert e.kept + [e.cur] + [] + e.todo == e.kept + [e.cur] + e.todo;
  }

  lemma {:induction false} CleanOrder(s: State)
    requires InRange(s) && Cleans(s.enc.pc) && (!Closing(s.enc) ==> Ascending(Line(s.enc)))
    ensures var r := CleanStep(s); r.Some? && !Closing(r.value.enc) ==> Ascending(Line(r.value.enc))
  {
    hide WritersInRange, Below, Ascending, Clean;
    var e := s.enc;
    CleanGoesOn(e.pc, s.clients[e.cur], if e.shut then ShutNext else Fan);
    if !e.shut { OneLess(e.kept, e.cur, e.todo); }
  }

  lemma {:induction false} OneLess(a: seq<nat>, x: nat, b: seq<nat>)
    requires Ascending(a + [x] + b)
    ensures Ascending(a + [] + b)
  {
    var long, short := a + [x] + b, a + [] + b;
    forall i, j | 0 <= i < j < |short| ensures short[i] < short[j] {
      assert short[i] == long[if i < |a| then i else i + 1];
      assert short[j] == long[if j < |a| then j else j + 1];
    }
  }

  // ---------- the input ----------

  lemma {:induction false} AcceptShares(s: State, ch: Choice)
    requires InRange(s) && Accepts(s.enc.pc) && Lists(s.enc) && Shared(s)
    ensures AcceptStep(s, ch).Some? ==> Shared(AcceptStep(s, ch).value)
  {
    hide WritersInRange, Below, Distinct;
    if AcceptStep(s, ch).Some? && !s.enc.shut {
      var s' := AcceptStep(s, ch).value;
      forall id | 0 <= id < |s'.clients| ensures SharesInput(s', id) {
        if id < |s.clients| { assert SharesInput(s, id); }
      }
    }
  }

  lemma {:induction false} LoopShares(s: State, ch: Choice)
    requires InRange(s) && !InRound(s.enc) && !Destroys(s.enc.pc) && !Accepts(s.enc.pc)
    requires Lists(s.enc) && Shared(s) && InputsInv(s)
    ensures LoopStep(s, ch).Some? ==> Shared(LoopStep(s, ch).value)
  {
    hide WritersInRange, Below, Distinct, InputInv;
    if LoopStep(s, ch).Some? && !LoopStep(s, ch).value.enc.shut {
      var s' := LoopStep(s, ch).value;
      forall id | 0 <= id < |s'.clients| ensures SharesInput(s', id) { assert SharesInput(s, id); }
    }
  }

  lemma {:induction false} DestroyShares(s: State)
    requires InRange(s) && Destroys(s.enc.pc) && Lists(s.enc) && Shared(s)
    ensures DestroyStep(s).Some? ==> Shared(DestroyStep(s).value)
  {
    hide WritersInRange, Below, Distinct;
    if DestroyStep(s).Some? && !s.enc.shut {
      var s' := DestroyStep(s).value;
      forall id | 0 <= id < |s'.clients| ensures SharesInput(s', id) { assert SharesInput(s, id); }
    }
  }

  lemma {:induction false} FanShares(s: State)
    requires InRange(s) && s.enc.pc.Fan? && Lists(s.enc) && Shared(s)
    ensures FanStep(s).Some? ==> Shared(FanStep(s).value)
  {
    hide WritersInRange, Distinct, Disjoint;
    if FanStep(s).Some? {
      var s' := FanStep(s).value;
      forall id | 0 <= id < |s'.clients| && !s'.enc.shut ensures SharesInput(s', id) { assert SharesInput(s, id); }
    }
  }

  lemma {:induction false} ServeKeepsInput(pc: Pc, c: Client, p: Packet, input: nat, ch: Choice)
    requires Serves(pc) && (pc.OutDone? ==> c.log.first.None?)
    ensures var r := Serve(pc, c, p, input, ch);
      r.Some? && r.value.client.log.first.Some? && Streams(Served(r.value.pc)) ==>
        if pc == OutDone(true) then r.value.client.input == input
        else r.value.client.input == c.input && c.log.first.Some? && Streams(At(pc))
  {
  }

  lemma {:induction false} ServeShares(s: State, ch: Choice)
    requires InRange(s) && Serves(s.enc.pc) && Lists(s.enc) && ClientsInv(s) && Shared(s)
    ensures ServeStep(s, ch).Some? ==> Shared(ServeStep(s, ch).value)
  {
    hide WritersInRange, Below, Distinct, Disjoint, Serve, ClientInv;
    var e, c := s.enc, s.clients[s.enc.cur];
    assert ViewOf(e, e.cur) == At(e.pc);
    ServeReady(e.pc, c, s.read);
    ServeKeepsInput(e.pc, c, s.read - 1, e.input.value, ch);
    ServeGoesOn(e.pc, c, s.read - 1, e.input.value, ch);
    if ServeStep(s, ch).Some? {
      var s' := ServeStep(s, ch).value;
      forall id | 0 <= id < |s'.clients| ensures SharesInput(s', id) { assert SharesInput(s, id); }
    }
  }

  lemma {:induction false} CleanKeepsInput(pc: Pc, c: Client, next: Pc)
    requires Cleans(pc) && !Cleans(next)
    ensures var r := Clean(pc, c, next);
      r.Some? ==>
        && r.value.client.input == c.input && r.value.client.log.first == c.log.first
        && (Streams(Cleaned(r.value.pc)) && r.value.client.log.first.Some? ==> Streams(At(pc)))
  {
  }

  lemma {:induction false} CleanShares(s: State)
    requires InRange(s) && Cleans(s.enc.pc) && Lists(s.enc) && Shared(s)
    ensures CleanStep(s).Some? ==> Shared(CleanStep(s).value)
  {
    hide WritersInRange, Below, Distinct, Disjoint, Clean;
    var e, next := s.enc, if s.enc.shut then ShutNext else Fan;
    CleanKeepsInput(e.pc, s.clients[e.cur], next);
    CleanGoesOn(e.pc, s.clients[e.cur], next);
    if CleanStep(s).Some? && !e.shut {
      var s' := CleanStep(s).value;
      forall id | 0 <= id < |s'.clients| ensures SharesInput(s', id) { assert SharesInput(s, id); }
    }
  }

  lemma {:induction false} WriteKeepsFirst(c: Client, field: bool, ch: Choice)
    ensures Write(c, field, ch).Some? ==> Write(c, field, ch).value.log.first == c.log.first
  {
  }

  lemma {:induction false} WriterShares(s: State, w: nat, ch: Choice)
    requires InRange(s) && Shared(s)
    ensures WriterStep(s, w, ch).Some? ==> Shared(WriterStep(s, w, ch).value)
  {
    hide Write, ViewOf, Streams;
    if WriterStep(s, w, ch).Some? {
      WriteKeepsFirst(s.clients[w], s.inputs[s.clients[w].input].field, ch);
      var s' := WriterStep(s, w, ch).value;
      forall id | 0 <= id < |s'.clients| && !s.enc.shut ensures SharesInput(s', id) { assert SharesInput(s, id); }
    }
  }

  // ---------- every step keeps both ----------

  lemma {:induction false} EncoderOrder(s: State, ch: Choice)
    requires Inv(s) && InOrder(s)
    ensures InRange(s) && (EncoderStep(s, ch).Some? ==> InOrder(EncoderStep(s, ch).value))
  {
    hide InRange, Lists, ClientsInv, InputsInv, ReadersInv, Shared, Ascending,
         CleanStep, ServeStep, FanStep, DestroyStep, AcceptStep, LoopStep;
    if Cleans(s.enc.pc) { CleanOrder(s); CleanShares(s); }
    else if Serves(s.enc.pc) { ServeOrder(s, ch); ServeShares(s, ch); }
    else if s.enc.pc.Fan? { FanOrder(s); FanShares(s); }
    else if Destroys(s.enc.pc) { DestroyOrder(s); DestroyShares(s); }
    else if Accepts(s.enc.pc) { AcceptOrder(s, ch); AcceptShares(s, ch); }
    else { LoopOrder(s, ch); LoopShares(s, ch); }
  }

  lemma {:induction false} DestroyOrder(s: State)
    requires InRange(s) && Destroys(s.enc.pc)
    ensures DestroyStep(s).Some? ==> DestroyStep(s).value.enc.clients == s.enc.clients
    ensures DestroyStep(s).Some? && !Closing(DestroyStep(s).value.enc) ==>
      Line(DestroyStep(s).value.enc) == Line(s.enc)
  {
    hide InRange;
  }

  lemma {:induction false} NextOrder(s: State, ev: Event)
    requires Inv(s) && InOrder(s)
    ensures InRange(s) && InOrder(Next(s, ev))
  {
    hide Inv, InRange, EncoderStep, WriterStep, Shared, Ascending;
    InvInRange(s);
    if ev.OfEncoder? {
      EncoderOrder(s, ev.choice);
    } else {
      WriterKeepsPc(s, ev.client, ev.choice);
      WriterShares(s, ev.client, ev.choice);
    }
  }

  lemma {:induction false} RunInOrder(evs: seq<Event>)
    ensures InOrder(Run(evs))
    decreases |evs|
  {
    hide Inv, InRange, Exec, InOrder, Next;
    if evs == [] {
      RunNone();
      OrderInit();
    } else {
      var pre := evs[..|evs| - 1];
      RunInOrder(pre);
      RunKeeps(pre);
      RunLast(evs);
      NextOrder(Run(pre), evs[|evs| - 1]);
    }
  }

  // Between rounds the list is in order of arrival; the input is closed only when the
  // list is empty or the encoder gives up; and until then every client that is being
  // streamed to is written from the one input that is open.
  lemma {:induction false} OneInputForAll(evs: seq<Event>, id: nat)
    requires id < |Run(evs).clients|
    ensures var s := Run(evs); var c := s.clients[id];
      && (s.enc.pc.Head? ==> Ascending(s.enc.clients))
      && (Destroys(s.enc.pc) ==> s.enc.clients == [] || s.enc.shut)
      && (c.out.field && !s.enc.shut ==>
            s.enc.input == Some(c.input) && c.input < |s.inputs| && s.inputs[c.input].field && s.inputs[c.input].live)
  {
    hide Exec, Ascending, Inv, InRange, ClientInv;
    RunInOrder(evs);
    RunKeeps(evs);
    ClientOf(Run(evs), id);
    OpenInput(Run(evs), id);
  }

  lemma {:induction false} OpenInput(s: State, id: nat)
    requires Inv(s) && InOrder(s) && id < |s.clients| && ClientInv(ViewOf(s.enc, id), s.read, s.clients[id])
    ensures var c := s.clients[id];
      c.out.field && !s.enc.shut ==>
        s.enc.input == Some(c.input) && c.input < |s.inputs| && s.inputs[c.input].field && s.inputs[c.input].live
  {
    hide Inv, Ascending;
    if s.clients[id].out.field && !s.enc.shut {
      StreamsOnce(ViewOf(s.enc, id), s.read, s.clients[id]);
      assert SharesInput(s, id);
      InvInRange(s);
      InputIndex(s);
      NotClosing(s, id);
      EncoderInputUse(s);
    }
  }

  lemma {:induction false} StreamsOnce(v: View, read: nat, c: Client)
    requires ClientInv(v, read, c) && c.out.field
    ensures c.log.first.Some? && Streams(v)
  {
    hide Locks, Flow, Segment, Conserved;
  }

  lemma {:induction false} InputIndex(s: State)
    requires InRange(s) && s.enc.input.Some?
    ensures s.enc.input.value < |s.inputs|
  {
  }

  lemma {:induction false} NotClosing(s: State, id: nat)
    requires InRange(s) && Shared(s) && !s.enc.shut && Streams(ViewOf(s.enc, id))
    ensures !Closing(s.enc) && !s.enc.pc.DestroyNil?
  {
    hide Below, WritersInRange;
  }

  // ---------- which writes are lost ----------

  // A write has failed and the writer is on its way out or gone.
  predicate GaveUp(w: Writer) {
    w.Quit? || w.Done? || (w.Wrote? && !w.ok) || (w.Released? && !w.ok)
  }

  // vs_write_packet fails, on a live input and output.
  predicate FailsWrite(s: State, ev: Event, id: nat) {
    && ev.OfWriter? && ev.client == id < |s.clients|
    && s.clients[id].writer.Writing? && !ev.choice.Yes?
  }

  lemma {:induction false} WriteGivesUp(c: Client, field: bool, ch: Choice)
    requires c.out.field && !c.chan.closed && field
    ensures var r := Write(c, field, ch);
      if r.None? then !c.writer.Writing?
      else GaveUp(r.value.writer) <==> GaveUp(c.writer) || (c.writer.Writing? && !ch.Yes?)
  {
  }

  lemma {:induction false} WriteKeepsOutput(c: Client, field: bool, ch: Choice)
    ensures var r := Write(c, field, ch); r.Some? ==> r.value.out == c.out
  {
  }

  lemma {:induction false} WriterGivesUp(s: State, w: nat, ch: Choice, id: nat)
    requires Inv(s) && InRange(s) && InOrder(s) && id < |s.clients| && s.clients[id].out.field && !s.enc.shut
    ensures var r := WriterStep(s, w, ch);
      var c' := if r.Some? && id < |r.value.clients| then r.value.clients[id] else s.clients[id];
      && c'.out == s.clients[id].out
      && (GaveUp(c'.writer) <==> GaveUp(s.clients[id].writer) || FailsWrite(s, OfWriter(w, ch), id))
  {
    hide Inv, InOrder, InRange, Write, GaveUp, ClientInv;
    WritersIndex(s);
    if w == id && !s.clients[id].writer.NoWriter? {
      var c := s.clients[id];
      ClientOf(s, id);
      OpenInput(s, id);
      OpenChannel(ViewOf(s.enc, id), s.read, c);
      WriteGivesUp(c, s.inputs[c.input].field, ch);
      WriteKeepsOutput(c, s.inputs[c.input].field, ch);
    }
  }

  lemma {:induction false} WritersIndex(s: State)
    requires InRange(s)
    ensures forall id :: 0 <= id < |s.clients| && !s.clients[id].writer.NoWriter? ==> s.clients[id].input < |s.inputs|
  {
  }

  lemma {:induction false} OpenChannel(v: View, read: nat, c: Client)
    requires ClientInv(v, read, c) && c.out.field
    ensures !c.chan.closed
  {
    hide Locks, Flow, Segment, Conserved;
  }

  // The encoder starts a writer and touches none.
  lemma {:induction false} EncoderWriters(s: State, ch: Choice, id: nat)
    requires InRange(s) && id < |s.clients|
    ensures var r := EncoderStep(s, ch);
      r.Some? ==>
        && id < |r.value.clients|
        && if s.enc.pc == OutDone(true) && id == s.enc.cur then r.value.clients[id].writer.Start?
           else r.value.clients[id].writer == s.clients[id].writer
  {
    hide WritersInRange, Serve, Clean;
    if Serves(s.enc.pc) {
      ServeStarts(s.enc.pc, s.clients[s.enc.cur], s.read - 1, s.enc.input.value, ch);
    } else if Cleans(s.enc.pc) {
      CleanGoesOn(s.enc.pc, s.clients[s.enc.cur], if s.enc.shut then ShutNext else Fan);
    }
  }

  // Only a client not yet opened has no writer, and the encoder starts only that one.
  lemma {:induction false} WriterIffOpened(s: State, id: nat)
    requires Inv(s) && id < |s.clients|
    ensures s.clients[id].writer.NoWriter? <==> s.clients[id].log.first.None?
    ensures s.enc.pc == OutDone(true) && s.enc.cur == id ==> s.clients[id].log.first.None?
  {
    hide Inv, Flow, Segment, Conserved, Locks;
    ClientOf(s, id);
  }

  lemma {:induction false} GivesUpStep(s: State, ev: Event, id: nat)
    requires Inv(s) && InOrder(s) && id < |s.clients| && s.clients[id].log.first.Some?
    ensures InRange(s) && id < |Next(s, ev).clients|
    ensures var s' := Next(s, ev);
      s'.clients[id].out.field && !s'.enc.shut ==>
        && s.clients[id].out.field && !s.enc.shut
        && (GaveUp(s'.clients[id].writer) <==> GaveUp(s.clients[id].writer) || FailsWrite(s, ev, id))
  {
    hide Inv, InOrder, InRange, EncoderStep, WriterStep, GaveUp;
    InvInRange(s);
    NextLater(s, ev);
    assert Later(s.clients[id], Next(s, ev).clients[id]);
    ShutStep(s, ev);
    WriterIffOpened(s, id);
    if ev.OfEncoder? {
      EncoderWriters(s, ev.choice, id);
    } else if s.clients[id].out.field && !s.enc.shut {
      WriterGivesUp(s, ev.client, ev.choice, id);
    }
  }

  // A client opened by this very step has a writer that has done nothing.
  lemma {:induction false} OpeningStep(s: State, ev: Event, id: nat)
    requires Inv(s) && InRange(s) && id < |Next(s, ev).clients|
    requires id < |s.clients| ==> s.clients[id].log.first.None?
    ensures !GaveUp(Next(s, ev).clients[id].writer)
  {
    hide Inv, InRange, EncoderStep, Write;
    ArrivesIff(s, ev);
    if id < |s.clients| {
      WriterIffOpened(s, id);
      if ev.OfEncoder? { EncoderWriters(s, ev.choice, id); }
    }
  }

  predicate FailsWriteAt(evs: seq<Event>, i: nat, id: nat)
    requires i < |evs|
  {
    FailsWrite(Run(evs[..i]), evs[i], id)
  }

  lemma {:induction false} WritingIsOpened(evs: seq<Event>, i: nat, id: nat)
    requires i < |evs| && FailsWriteAt(evs, i, id)
    ensures id < |Run(evs).clients| && Run(evs).clients[id].log.first.Some?
  {
    hide Inv, InRange, Exec;
    StartInRange();
    ExecSplits(INIT, evs, i);
    RunKeeps(evs[..i]);
    WriterIffOpened(Run(evs[..i]), id);
    ExecLater(Run(evs[..i]), evs[i..]);
    assert Later(Run(evs[..i]).clients[id], Run(evs).clients[id]);
  }

  // While the client is being streamed to, its writer has given up exactly when some
  // vs_write_packet of its has failed.
  lemma {:induction false} GivesUpIff(evs: seq<Event>, id: nat)
    requires id < |Run(evs).clients| && Run(evs).clients[id].out.field && !Run(evs).enc.shut
    ensures GaveUp(Run(evs).clients[id].writer) <==> exists i :: 0 <= i < |evs| && FailsWriteAt(evs, i, id)
    decreases |evs|
  {
    hide Inv, InRange, Exec, InOrder, FailsWrite, GaveUp, Next;
    if evs == [] {
      RunNone();
    } else {
      var n := |evs| - 1;
      var pre := evs[..n];
      RunLast(evs);
      RunKeeps(pre);
      RunInOrder(pre);
      forall i | 0 <= i < n ensures FailsWriteAt(pre, i, id) == FailsWriteAt(evs, i, id) {
        assert pre[..i] == evs[..i];
      }
      assert FailsWriteAt(evs, n, id) == FailsWrite(Run(pre), evs[n], id);
      if id < |Run(pre).clients| && Run(pre).clients[id].log.first.Some? {
        GivesUpStep(Run(pre), evs[n], id);
        GivesUpIff(pre, id);
      } else {
        OpeningStep(Run(pre), evs[n], id);
        NothingFailed(pre, evs[n], id);
      }
      hide Run, FailsWriteAt;
      if i :| 0 <= i < n && FailsWriteAt(pre, i, id) { assert FailsWriteAt(evs, i, id); }
    }
  }

  lemma {:induction false} NothingFailed(pre: seq<Event>, ev: Event, id: nat)
    requires id < |Run(pre).clients| ==> Run(pre).clients[id].log.first.None?
    ensures !FailsWrite(Run(pre), ev, id) && forall i :: 0 <= i < |pre| ==> !FailsWriteAt(pre, i, id)
  {
    hide Inv, InRange, Exec, FailsWriteAt, Run;
    RunKeeps(pre);
    if id < |Run(pre).clients| { WriterIffOpened(Run(pre), id); }
    forall i | 0 <= i < |pre| ensures !FailsWriteAt(pre, i, id) {
      if FailsWriteAt(pre, i, id) { WritingIsOpened(pre, i, id); }
    }
  }

  // So a client none of whose writes has failed loses nothing: what was enqueued for it
  // is written, in the writer's hand or in the channel, and all written once both are empty.
  lemma {:induction false} AllWritten(evs: seq<Event>, id: nat)
    requires id < |Run(evs).clients| && Run(evs).clients[id].out.field && !Run(evs).enc.shut
    requires forall i :: 0 <= i < |evs| ==> !FailsWriteAt(evs, i, id)
    ensures var c := Run(evs).clients[id];
      && c.log.enqueued == c.log.written + Pending(c.writer) + c.chan.queue
      && (c.writer.Recv? && c.chan.queue == [] ==> c.log.written == c.log.enqueued)
  {
    hide Run, FailsWriteAt;
    GivesUpIff(evs, id);
    NothingLost(evs, id);
  }
}
