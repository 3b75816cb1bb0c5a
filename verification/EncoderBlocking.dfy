// Where goroutines of the protocol wait for ever: the encoder, for a mutex it holds
// itself, and a packetWriter, on a nil channel.  Exactly when, and a run for each.

module EncoderBlocking {

  import opened Wrappers
  import opened EncoderModel
  import opened EncoderClient
  import opened EncoderInvariant
  import opened EncoderSafety

  // ---------- the writer that starts too late ----------

  // A packetWriter comes to range over a nil channel exactly when its first step comes
  // after cleanupClient has finished with its client ...
  lemma {:induction false} BlockedIff(s: State, id: nat, ev: Event)
    requires Inv(s) && id < |s.clients| && !s.clients[id].writer.BlockedOnNil?
    ensures InRange(s) && id < |Next(s, ev).clients|
    ensures Next(s, ev).clients[id].writer.BlockedOnNil?
            <==> ev == OfWriter(id, ev.choice) && s.clients[id].writer.Start? && ViewOf(s.enc, id).Gone?
  {
    hide Inv, InRange, EncoderStep, WriterStep, Later;
    InvInRange(s);
    NextLater(s, ev);
    if ev.OfWriter? { WriterBlocks(s, id, ev.client, ev.choice); } else { EncoderBlocksNone(s, id, ev.choice); }
  }

  lemma {:induction false} StartSees(s: State, id: nat)
    requires Inv(s) && id < |s.clients| && s.clients[id].writer.Start?
    ensures s.clients[id].chan.field <==> !ViewOf(s.enc, id).Gone?
  {
    hide Inv, InRange, Flow, Segment, Conserved, Locks, ViewOf;
    ClientOf(s, id);
  }

  lemma {:induction false} WriterBlocks(s: State, id: nat, w: nat, ch: Choice)
    requires Inv(s) && InRange(s) && id < |s.clients| && !s.clients[id].writer.BlockedOnNil?
    ensures var r := WriterStep(s, w, ch);
      (r.Some? && id < |r.value.clients| && r.value.clients[id].writer.BlockedOnNil?)
      <==> w == id && s.clients[id].writer.Start? && ViewOf(s.enc, id).Gone?
  {
    hide Inv, Write;
    if s.clients[id].writer.Start? { StartSees(s, id); }
    if w == id && !s.clients[id].writer.NoWriter? {
      WriteBlocks(s.clients[id], s.inputs[s.clients[id].input].field, ch);
    }
  }

  lemma {:induction false} WriteBlocks(c: Client, field: bool, ch: Choice)
    requires !c.writer.BlockedOnNil?
    ensures var r := Write(c, field, ch);
      (r.Some? && r.value.writer.BlockedOnNil?) <==> c.writer.Start? && !c.chan.field
  {
  }

  lemma {:induction false} EncoderBlocksNone(s: State, id: nat, ch: Choice)
    requires Inv(s) && InRange(s) && id < |s.clients| && !s.clients[id].writer.BlockedOnNil?
    ensures var r := EncoderStep(s, ch);
      r.Some? && id < |r.value.clients| ==> !r.value.clients[id].writer.BlockedOnNil?
  {
    hide Inv, Serve, Clean;
    if Serves(s.enc.pc) {
      ServeStarts(s.enc.pc, s.clients[s.enc.cur], s.read - 1, s.enc.input.value, ch);
    } else if Cleans(s.enc.pc) {
      CleanGoesOn(s.enc.pc, s.clients[s.enc.cur], if s.enc.shut then ShutNext else Fan);
    }
  }

  // ... and there it stays.
  lemma {:induction false} BlockedForever(s: State, id: nat, evs: seq<Event>)
    requires Inv(s) && id < |s.clients| && s.clients[id].writer.BlockedOnNil?
    ensures InRange(s) && id < |Exec(s, evs).clients| && Exec(s, evs).clients[id].writer.BlockedOnNil?
  {
    hide Inv, Exec, InRange;
    ExecLater(s, evs);
    assert Later(s.clients[id], Exec(s, evs).clients[id]);
  }

  // ---------- runs cut short ----------

  lemma {:induction false} ExecSplits(s: State, evs: seq<Event>, k: nat)
    requires InRange(s) && k <= |evs|
    ensures Exec(s, evs) == Exec(Exec(s, evs[..k]), evs[k..])
    decreases k
  {
    hide InRange, Next;
    if k == 0 {
      assert evs[..0] == [] && evs[0..] == evs;
    } else {
      NextInRange(s, evs[0]);
      ExecSplits(Next(s, evs[0]), evs[1..], k - 1);
      assert evs[..k][1..] == evs[1..][..k - 1] && evs[1..][k - 1..] == evs[k..];
    }
  }

  lemma {:induction false} RunLast(evs: seq<Event>)
    requires evs != []
    ensures var n := |evs| - 1; Run(evs) == Next(Run(evs[..n]), evs[n])
  {
    hide InRange, Next;
    var n := |evs| - 1;
    StartInRange();
    ExecSplits(INIT, evs, n);
    var s := Exec(INIT, evs[..n]);
    NextInRange(s, evs[n]);
    assert evs[n..] == [evs[n]] && evs[n..][1..] == [];
  }

  // ---------- the output that cannot be opened ----------

  // In cleanupClient, waiting for a mutex the encoder itself holds.
  predicate Stuck(s: State)
    requires InRange(s)
  {
    s.enc.pc.CleanLock? && s.clients[s.enc.cur].wlock
  }

  lemma {:induction false} WriteKeepsLock(c: Client, field: bool, ch: Choice)
    ensures Write(c, field, ch).Some? ==> Write(c, field, ch).value.wlock == c.wlock
  {
  }

  lemma {:induction false} WriterKeepsLock(s: State, w: nat, ch: Choice, id: nat)
    requires InRange(s) && id < |s.clients|
    ensures WriterStep(s, w, ch).Some? ==>
      var s' := WriterStep(s, w, ch).value;
      && s'.enc == s.enc && s'.read == s.read
      && id < |s'.clients| && s'.clients[id].wlock == s.clients[id].wlock
  {
    hide Write;
    if w < |s.clients| && !s.clients[w].writer.NoWriter? {
      WriteKeepsLock(s.clients[w], s.inputs[s.clients[w].input].field, ch);
    }
  }

  lemma {:induction false} StuckStays(s: State, ev: Event)
    requires InRange(s) && Stuck(s)
    ensures InRange(Next(s, ev)) && Stuck(Next(s, ev))
    ensures Next(s, ev).enc == s.enc && Next(s, ev).read == s.read
  {
    hide InRange, WriterStep;
    NextInRange(s, ev);
    CurInRange(s);
    if ev.OfWriter? { WriterKeepsLock(s, ev.client, ev.choice, s.enc.cur); }
  }

  // No one else releases that mutex, so the encoder never moves again.
  lemma {:induction false} StuckForever(s: State, evs: seq<Event>)
    requires InRange(s) && Stuck(s)
    ensures Stuck(Exec(s, evs)) && Exec(s, evs).enc == s.enc && Exec(s, evs).read == s.read
    decreases |evs|
  {
    hide InRange, Stuck, Next;
    if evs != [] {
      StuckStays(s, evs[0]);
      StuckForever(Next(s, evs[0]), evs[1..]);
    }
  }

  // openOutput is called and fails.
  predicate OpenFails(s: State, ev: Event) {
    s.enc.pc.OutOpen? && ev.OfEncoder? && !ev.choice.Yes?
  }

  lemma {:induction false} ServePending(pc: Pc, c: Client, p: Packet, input: nat, ch: Choice)
    requires Serves(pc)
    ensures var r := Serve(pc, c, p, input, ch);
      && ((r.Some? && r.value.pc == OutDone(false)) <==> pc.OutOpen? && !ch.Yes?)
      && (pc == OutDone(false) ==> r == Some(Local(CleanLock, c)))
      && (r.Some? && r.value.pc.CleanLock? ==>
            (pc.Clone? || pc.SlowFree? || pc == OutDone(false)) && r.value.client.wlock == c.wlock)
  {
  }

  lemma {:induction false} ServeInputs(s: State)
    requires InRange(s) && Serves(s.enc.pc)
    ensures s.enc.cur < |s.clients| && s.enc.input.Some? && s.enc.input.value < |s.inputs| && s.read > 0
  {
  }

  // The lock is the encoder's own only on the way from a failed open.
  lemma {:induction false} LockHeld(s: State)
    requires Inv(s) && InRange(s) && WorksOnCur(s.enc.pc) && s.enc.cur < |s.clients|
    ensures s.enc.pc.Clone? || s.enc.pc.SlowFree? ==> !s.clients[s.enc.cur].wlock
    ensures s.enc.pc.OutDone? ==> s.clients[s.enc.cur].wlock
  {
    hide Inv, InRange, Shape, Flow, Segment, Conserved;
    ClientOf(s, s.enc.cur);
  }

  lemma {:induction false} ServeStuck(s: State, ch: Choice)
    requires Inv(s) && InRange(s) && Serves(s.enc.pc)
    ensures var r := ServeStep(s, ch);
      && ((r.Some? && r.value.enc.pc == OutDone(false)) <==> OpenFails(s, OfEncoder(ch)))
      && ((r.Some? && InRange(r.value) && Stuck(r.value)) <==> s.enc.pc == OutDone(false))
  {
    hide Inv, InRange, Serve;
    ServeInputs(s);
    ServeInRange(s, ch);
    LockHeld(s);
    ServePending(s.enc.pc, s.clients[s.enc.cur], s.read - 1, s.enc.input.value, ch);
  }

  lemma {:induction false} LeavingUnlocked(s: State, id: nat)
    requires Inv(s) && InRange(s) && s.enc.pc.ShutNext? && id in s.enc.todo
    ensures id < |s.clients| && !s.clients[id].wlock
  {
    hide InputsInv, ReadersInv, ClientsInv, Shape, Flow, Segment, Conserved;
    ClientOf(s, id);
  }

  lemma {:induction false} CleanNotStuck(s: State)
    requires InRange(s) && Cleans(s.enc.pc)
    ensures CleanStep(s).Some? ==>
      !CleanStep(s).value.enc.pc.CleanLock? && CleanStep(s).value.enc.pc != OutDone(false)
  {
    hide Clean;
    var next := if s.enc.shut then ShutNext else Fan;
    CleanGoesOn(s.enc.pc, s.clients[s.enc.cur], next);
    CleanNeverBack(s.enc.pc, s.clients[s.enc.cur], next);
  }

  lemma {:induction false} LoopNotStuck(s: State, ch: Choice)
    requires Inv(s) && InRange(s) && !InRound(s.enc) && !Destroys(s.enc.pc) && !Accepts(s.enc.pc)
    ensures var r := LoopStep(s, ch);
      r.Some? ==> r.value.enc.pc != OutDone(false) && InRange(r.value) && !Stuck(r.value)
  {
    hide Inv;
    LoopInRange(s, ch);
    if s.enc.pc.ShutNext? && s.enc.todo != [] { LeavingUnlocked(s, s.enc.todo[0]); }
  }

  lemma {:induction false} OtherStuck(s: State, ch: Choice)
    requires Inv(s) && InRange(s) && !Serves(s.enc.pc)
    ensures var r := EncoderStep(s, ch);
      r.Some? ==> r.value.enc.pc != OutDone(false) && InRange(r.value) && !Stuck(r.value)
  {
    hide Inv, InRange, CleanStep, LoopStep;
    EncoderStepInRange(s, ch);
    if Cleans(s.enc.pc) { CleanNotStuck(s); }
    else if !s.enc.pc.Fan? && !Destroys(s.enc.pc) && !Accepts(s.enc.pc) { LoopNotStuck(s, ch); }
  }

  lemma {:induction false} CleanNeverBack(pc: Pc, c: Client, next: Pc)
    requires Cleans(pc) && !next.CleanLock?
    ensures Clean(pc, c, next).Some? ==> !Clean(pc, c, next).value.pc.CleanLock?
  {
  }

  // One event brings the encoder to the brink, or over it.
  lemma {:induction false} StuckStep(s: State, ev: Event)
    requires Inv(s) && InRange(s)
    ensures InRange(Next(s, ev))
    ensures Next(s, ev).enc.pc == OutDone(false)
            <==> OpenFails(s, ev) || (ev.OfWriter? && s.enc.pc == OutDone(false))
    ensures Stuck(Next(s, ev)) <==> Stuck(s) || (ev.OfEncoder? && s.enc.pc == OutDone(false))
  {
    hide Inv, InRange, ServeStep, WriterStep, CleanStep, FanStep, DestroyStep, AcceptStep, LoopStep;
    NextInRange(s, ev);
    if Stuck(s) {
      StuckStays(s, ev);
    } else if ev.OfWriter? {
      if s.enc.pc.CleanLock? { CurInRange(s); WriterKeepsLock(s, ev.client, ev.choice, s.enc.cur); }
      WriterKeepsPc(s, ev.client, ev.choice);
    } else if Serves(s.enc.pc) {
      ServeStuck(s, ev.choice);
      assert EncoderStep(s, ev.choice) == ServeStep(s, ev.choice);
    } else {
      OtherStuck(s, ev.choice);
    }
  }

  lemma {:induction false} WriterKeepsPc(s: State, w: nat, ch: Choice)
    requires InRange(s)
    ensures WriterStep(s, w, ch).Some? ==> WriterStep(s, w, ch).value.enc == s.enc
  {
    hide Write;
  }

  // Event i of the run is an openOutput that fails.
  predicate FailsAt(evs: seq<Event>, i: nat)
    requires i < |evs|
  {
    OpenFails(Run(evs[..i]), evs[i])
  }

  lemma {:induction false} RunNone()
    ensures Run([]) == INIT
  {
    StartInRange();
  }

  lemma {:induction false} PendingIff(evs: seq<Event>)
    ensures Run(evs).enc.pc == OutDone(false)
            <==> exists i :: 0 <= i < |evs| && FailsAt(evs, i) && forall j :: i < j < |evs| ==> evs[j].OfWriter?
    decreases |evs|
  {
    hide Inv, InRange, Exec, OpenFails;
    if evs != [] {
      var n := |evs| - 1;
      var pre := evs[..n];
      PendingIff(pre);
      RunLast(evs);
      RunKeeps(pre);
      StuckStep(Run(pre), evs[n]);
      forall i | 0 <= i < n ensures FailsAt(pre, i) == FailsAt(evs, i) { assert pre[..i] == evs[..i]; }
      assert FailsAt(evs, n) == OpenFails(Run(pre), evs[n]);
      hide Run, FailsAt, Next;
      if exists i :: 0 <= i < n && FailsAt(pre, i) && forall j :: i < j < n ==> pre[j].OfWriter? {
        var i :| 0 <= i < n && FailsAt(pre, i) && forall j :: i < j < n ==> pre[j].OfWriter?;
        assert FailsAt(evs, i);
      }
    } else {
      RunNone();
    }
  }

  // The encoder ends up stuck exactly in the runs in which some openOutput fails and
  // the encoder takes one more step.
  lemma {:induction false} StuckIff(evs: seq<Event>)
    ensures Stuck(Run(evs))
            <==> exists i, j :: 0 <= i < j < |evs| && FailsAt(evs, i) && evs[j].OfEncoder?
    decreases |evs|
  {
    hide Inv, InRange, Exec, OpenFails;
    if evs != [] {
      var n := |evs| - 1;
      var pre := evs[..n];
      StuckIff(pre);
      PendingIff(pre);
      RunLast(evs);
      RunKeeps(pre);
      StuckStep(Run(pre), evs[n]);
      forall i | 0 <= i < n ensures FailsAt(pre, i) == FailsAt(evs, i) { assert pre[..i] == evs[..i]; }
      hide Run, FailsAt, Next, Stuck;
      if i, j :| 0 <= i < j < |evs| && FailsAt(evs, i) && evs[j].OfEncoder? {
        if k :| i < k < n && evs[k].OfEncoder? {
          assert FailsAt(pre, i) && pre[k].OfEncoder?;
        } else {
          assert j == n && FailsAt(pre, i);
        }
      }
      if i :| 0 <= i < n && FailsAt(pre, i) && forall j :: i < j < n ==> pre[j].OfWriter? {
        assert FailsAt(evs, i);
      }
    } else {
      RunNone();
    }
  }

  // ---------- a run for each ----------

  const WAITING_FOR_OPEN: seq<Event> :=
    [OfEncoder(Yes), OfEncoder(No), OfEncoder(No), OfEncoder(Yes), OfEncoder(Yes), OfEncoder(No), OfEncoder(No)]

  // The first client, whose output cannot be opened: the encoder is stuck from its first packet on.
  const FAILING_OPEN: seq<Event> := WAITING_FOR_OPEN + [OfEncoder(No), OfEncoder(No), OfEncoder(No)]

  // The first packet cannot be cloned, and the writer starts only when the client is cleaned up.
  const LATE_WRITER: seq<Event> :=
    WAITING_FOR_OPEN
    + [OfEncoder(No), OfEncoder(Yes), OfEncoder(No), OfEncoder(No), OfEncoder(No)]
    + [OfEncoder(No), OfEncoder(No), OfEncoder(No), OfEncoder(No)]
    + [OfEncoder(No), OfEncoder(No), OfEncoder(No), OfEncoder(No), OfWriter(0, Yes)]

  const OPEN_INPUT := Input(true, true, false, {}, false)
  const LISTED := State(Encoder(Head, [0], [], [], 0, None, false), [NEW_CLIENT], [], 0)
  const READING := State(Encoder(ReadPacket, [0], [], [], 0, Some(0), false), [NEW_CLIENT], [OPEN_INPUT], 0)
  const OPENING :=
    State(Encoder(OutRLock, [0], [], [], 0, Some(0), false), [NEW_CLIENT.(wlock := true)], [OPEN_INPUT], 1)

  const STARTED :=
    Client(Output(true, true, true), false, false, Channel(true, true, false, []), Start, 0,
           History(Some(0), [], [], [], [], multiset{}))
  const SERVED :=
    State(Encoder(Unlock, [0], [], [], 0, Some(0), false), [STARTED.(wlock := true)], [OPEN_INPUT], 1)
  const CLEANING := State(Encoder(CleanLock, [0], [], [], 0, Some(0), false), [STARTED], [OPEN_INPUT], 1)
  const DRAINING :=
    State(Encoder(Drain, [0], [], [], 0, Some(0), false),
          [STARTED.(out := Output(false, false, false), chan := Channel(true, true, true, []))], [OPEN_INPUT], 1)
  const OUTPUT_GONE :=
    State(Encoder(CleanUnlock, [0], [], [], 0, Some(0), false),
          [STARTED.(out := Output(false, false, false), wlock := true)], [OPEN_INPUT], 1)

  lemma {:induction false} FailingOpen()
    ensures Stuck(Run(FAILING_OPEN))
  {
    hide InRange, Exec, Next;
    var e := FAILING_OPEN;
    var s6 := RunToOpening(e);
    var s7 := Step(s6, e, 7);
    var s8 := Step(s7, e, 8);
    var s9 := Step(s8, e, 9);
    Fails(s7, s8, s9);
    assert e[10..] == [];
    NoEvents(s9);
  }

  lemma {:induction false} LateWriter()
    ensures |Run(LATE_WRITER).clients| == 1 && Run(LATE_WRITER).clients[0].writer.BlockedOnNil?
  {
    hide InRange, Exec, Next;
    var e := LATE_WRITER;
    var s6 := RunToOpening(e);
    var s7 := Step(s6, e, 7);
    var s8 := Step(s7, e, 8);
    var s9 := Step(s8, e, 9);
    assert s9 == SERVED by { OpensOutput(s7, s8, s9); }
    var s10 := Step(s9, e, 10);
    var s11 := Step(s10, e, 11);
    assert s11 == CLEANING by { ClonesNot(s10, s11); }
    var s12 := Step(s11, e, 12);
    var s13 := Step(s12, e, 13);
    var s14 := Step(s13, e, 14);
    var s15 := Step(s14, e, 15);
    assert s15 == OUTPUT_GONE by { ClosesOutput(s12, s13, s14, s15); }
    var s16 := Step(s15, e, 16);
    var s17 := Step(s16, e, 17);
    assert s17 == DRAINING by { ClosesChannel(s16, s17); }
    var s18 := Step(s17, e, 18);
    var s19 := Step(s18, e, 19);
    var s20 := Step(s19, e, 20);
    StartsLate(s18, s19, s20);
    assert e[21..] == [];
    NoEvents(s20);
  }

  lemma {:induction false} RunToOpening(e: seq<Event>) returns (s6: State)
    requires |e| > 7 && e[..7] == WAITING_FOR_OPEN
    ensures s6 == OPENING && InRange(s6) && Run(e) == Exec(s6, e[7..])
  {
    hide InRange, Exec, Next;
    StartInRange();
    assert forall k :: 0 <= k < 7 ==> e[k] == WAITING_FOR_OPEN[k];
    var s := Step(INIT, e, 0);
    assert s == LISTED by { Arrives(); }
    var s1 := Step(s, e, 1);
    var s2 := Step(s1, e, 2);
    var s3 := Step(s2, e, 3);
    assert s3 == READING by { Reads(s1, s2, s3); }
    var s4 := Step(s3, e, 4);
    var s5 := Step(s4, e, 5);
    s6 := Step(s5, e, 6);
    assert s6 == OPENING by { Serving(s4, s5, s6); }
    assert e[0..] == e;
  }

  lemma {:induction false} NoEvents(s: State)
    requires InRange(s)
    ensures Exec(s, []) == s
  {
  }

  lemma {:induction false} Arrives()
    ensures InRange(INIT) && Next(INIT, OfEncoder(Yes)) == LISTED
  {
  }

  lemma {:induction false} Reads(s1: State, s2: State, s3: State)
    requires InRange(LISTED) && s1 == Next(LISTED, OfEncoder(No))
    requires InRange(s1) && s2 == Next(s1, OfEncoder(No))
    requires InRange(s2) && s3 == Next(s2, OfEncoder(Yes))
    ensures s3 == READING
  {
    hide InRange;
  }

  lemma {:induction false} Serving(s4: State, s5: State, s6: State)
    requires InRange(READING) && s4 == Next(READING, OfEncoder(Yes))
    requires InRange(s4) && s5 == Next(s4, OfEncoder(No))
    requires InRange(s5) && s6 == Next(s5, OfEncoder(No))
    ensures s6 == OPENING
  {
    hide InRange;
  }

  lemma {:induction false} Fails(s7: State, s8: State, s9: State)
    requires InRange(OPENING) && s7 == Next(OPENING, OfEncoder(No))
    requires InRange(s7) && s8 == Next(s7, OfEncoder(No))
    requires InRange(s8) && s9 == Next(s8, OfEncoder(No)) && InRange(s9)
    ensures Stuck(s9)
  {
    hide InRange;
  }

  lemma {:induction false} OpensOutput(s7: State, s8: State, s9: State)
    requires InRange(OPENING) && s7 == Next(OPENING, OfEncoder(No))
    requires InRange(s7) && s8 == Next(s7, OfEncoder(Yes))
    requires InRange(s8) && s9 == Next(s8, OfEncoder(No))
    ensures s9 == SERVED
  {
    hide InRange;
  }

  lemma {:induction false} ClonesNot(s10: State, s11: State)
    requires InRange(SERVED) && s10 == Next(SERVED, OfEncoder(No))
    requires InRange(s10) && s11 == Next(s10, OfEncoder(No))
    ensures s11 == CLEANING
  {
    hide InRange;
  }

  lemma {:induction false} ClosesOutput(s12: State, s13: State, s14: State, s15: State)
    requires InRange(CLEANING) && s12 == Next(CLEANING, OfEncoder(No))
    requires InRange(s12) && s13 == Next(s12, OfEncoder(No))
    requires InRange(s13) && s14 == Next(s13, OfEncoder(No))
    requires InRange(s14) && s15 == Next(s14, OfEncoder(No))
    ensures s15 == OUTPUT_GONE
  {
    hide InRange;
  }

  lemma {:induction false} ClosesChannel(s16: State, s17: State)
    requires InRange(OUTPUT_GONE) && s16 == Next(OUTPUT_GONE, OfEncoder(No))
    requires InRange(s16) && s17 == Next(s16, OfEncoder(No))
    ensures s17 == DRAINING
  {
    hide InRange;
  }

  lemma {:induction false} StartsLate(s18: State, s19: State, s20: State)
    requires InRange(DRAINING) && s18 == Next(DRAINING, OfEncoder(No))
    requires InRange(s18) && s19 == Next(s18, OfEncoder(No))
    requires InRange(s19) && s20 == Next(s19, OfWriter(0, Yes))
    ensures |s20.clients| == 1 && s20.clients[0].writer.BlockedOnNil?
  {
    hide InRange;
  }

  // The k-th event of evs.
  lemma {:induction false} Step(s: State, evs: seq<Event>, k: nat) returns (s': State)
    requires InRange(s) && k < |evs|
    ensures InRange(s') && s' == Next(s, evs[k]) && Exec(s, evs[k..]) == Exec(s', evs[k + 1..])
  {
    NextInRange(s, evs[k]);
    s' := Next(s, evs[k]);
    assert evs[k..][1..] == evs[k + 1..];
  }
}
