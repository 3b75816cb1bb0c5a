// What decides how a run of the protocol goes: when the encoder gives up, why a client is
// dropped, when a write is lost, and that no one waits for some one who cannot move.

module EncoderRuns {

  import opened Wrappers
  import opened EncoderModel
  import opened EncoderClient
  import opened EncoderInvariant
  import opened EncoderSafety
  import opened EncoderBlocking

  // ---------- when the encoder gives up ----------

  // The input cannot be opened, or reading from it fails.
  predicate GivesUp(s: State, ev: Event) {
    && ev.OfEncoder?
    && ((s.enc.pc.Opening? && !ev.choice.Yes?) || (s.enc.pc.ReadPacket? && ev.choice.No?))
  }

  lemma {:induction false} ShutStep(s: State, ev: Event)
    requires InRange(s)
    ensures Next(s, ev).enc.shut <==> s.enc.shut || GivesUp(s, ev)
  {
    hide InRange, Serve, Clean, Write;
    if ev.OfEncoder? { EncoderShut(s, ev.choice); } else { WriterKeepsPc(s, ev.client, ev.choice); }
  }

  lemma {:induction false} EncoderShut(s: State, ch: Choice)
    requires InRange(s)
    ensures var r := EncoderStep(s, ch);
      (if r.Some? then r.value.enc.shut else s.enc.shut) <==> s.enc.shut || GivesUp(s, OfEncoder(ch))
  {
    hide InRange, Serve, Clean;
  }

  predicate GivesUpAt(evs: seq<Event>, i: nat)
    requires i < |evs|
  {
    GivesUp(Run(evs[..i]), evs[i])
  }

  // The encoder is on its way out exactly when an open or a read has failed; a frame
  // that is not video, a lost client, a failed write do not end it.
  lemma {:induction false} ShutIff(evs: seq<Event>)
    ensures Run(evs).enc.shut <==> exists i :: 0 <= i < |evs| && GivesUpAt(evs, i)
    decreases |evs|
  {
    hide Inv, InRange, Exec, GivesUp;
    if evs != [] {
      var n := |evs| - 1;
      var pre := evs[..n];
      ShutIff(pre);
      RunLast(evs);
      ShutStep(Run(pre), evs[n]);
      forall i | 0 <= i < n ensures GivesUpAt(pre, i) == GivesUpAt(evs, i) { assert pre[..i] == evs[..i]; }
      assert GivesUpAt(evs, n) == GivesUp(Run(pre), evs[n]);
      hide Run, GivesUpAt, Next;
      if i :| 0 <= i < n && GivesUpAt(pre, i) { assert GivesUpAt(evs, i); }
    } else {
      RunNone();
    }
  }

  // ---------- why a client is dropped ----------

  // The encoder will not offer it another packet.
  predicate DroppedView(v: View) {
    v.Gone? || v.Leaving? || (v.At? && (Cleans(v.pc) || v.pc.SlowFree? || v.pc == OutDone(false)))
  }

  predicate Dropped(s: State, id: nat) {
    s.enc.shut || DroppedView(ViewOf(s.enc, id))
  }

  // The client's output cannot be opened, its packet not be cloned, or its channel holds
  // 32 packets already.
  predicate FailsFor(s: State, ev: Event, id: nat) {
    && ev.OfEncoder? && s.enc.cur == id < |s.clients|
    && ((s.enc.pc.OutOpen? && !ev.choice.Yes?) || (s.enc.pc.Clone? && !ev.choice.Yes?)
        || (s.enc.pc.Send? && |s.clients[id].chan.queue| >= 32))
  }

  lemma {:induction false} ServeDrops(pc: Pc, c: Client, p: Packet, input: nat, ch: Choice)
    requires Serves(pc)
    ensures var r := Serve(pc, c, p, input, ch);
      r.Some? ==>
        (DroppedView(Served(r.value.pc))
         <==> DroppedView(At(pc)) || ((pc.OutOpen? || pc.Clone?) && !ch.Yes?) || (pc.Send? && |c.chan.queue| >= 32))
  {
  }

  lemma {:induction false} AcceptDrops(s: State, ch: Choice, id: nat)
    requires InRange(s) && Accepts(s.enc.pc) && Lists(s.enc) && id < |s.clients|
    ensures var r := AcceptStep(s, ch); r.Some? ==> Dropped(r.value, id) == Dropped(s, id)
  {
    hide Below, Distinct;
  }

  lemma {:induction false} LoopDrops(s: State, ch: Choice, id: nat)
    requires InRange(s) && !InRound(s.enc) && !Destroys(s.enc.pc) && !Accepts(s.enc.pc) && Lists(s.enc)
    ensures var r := LoopStep(s, ch);
      r.Some? ==> (Dropped(r.value, id) <==> Dropped(s, id) || GivesUp(s, OfEncoder(ch)))
  {
    hide Below, Distinct, WritersInRange;
  }

  lemma {:induction false} DestroyDrops(s: State, id: nat)
    requires InRange(s) && Destroys(s.enc.pc) && Lists(s.enc)
    ensures var r := DestroyStep(s); r.Some? ==> Dropped(r.value, id) == Dropped(s, id)
  {
    hide Below, Distinct;
  }

  lemma {:induction false} FanDrops(s: State, id: nat)
    requires InRange(s) && s.enc.pc.Fan? && Lists(s.enc)
    ensures var r := FanStep(s); r.Some? ==> Dropped(r.value, id) == Dropped(s, id)
  {
    hide Below, Distinct, WritersInRange;
  }

  lemma {:induction false} ServeStepDrops(s: State, ch: Choice, id: nat)
    requires InRange(s) && Serves(s.enc.pc) && Lists(s.enc)
    ensures var r := ServeStep(s, ch);
      r.Some? ==> (Dropped(r.value, id) <==> Dropped(s, id) || FailsFor(s, OfEncoder(ch), id))
  {
    hide Below, Distinct, WritersInRange, Serve;
    var c := s.clients[s.enc.cur];
    ServeGoesOn(s.enc.pc, c, s.read - 1, s.enc.input.value, ch);
    ServeDrops(s.enc.pc, c, s.read - 1, s.enc.input.value, ch);
  }

  lemma {:induction false} CleanStepDrops(s: State, id: nat)
    requires InRange(s) && Cleans(s.enc.pc) && Lists(s.enc)
    ensures var r := CleanStep(s); r.Some? ==> Dropped(r.value, id) == Dropped(s, id)
  {
    hide Below, Distinct, WritersInRange, Clean;
    CleanGoesOn(s.enc.pc, s.clients[s.enc.cur], if s.enc.shut then ShutNext else Fan);
  }

  lemma {:induction false} EncoderDrops(s: State, ch: Choice, id: nat)
    requires InRange(s) && Lists(s.enc) && id < |s.clients|
    ensures var r := EncoderStep(s, ch);
      r.Some? ==>
        (Dropped(r.value, id) <==> Dropped(s, id) || GivesUp(s, OfEncoder(ch)) || FailsFor(s, OfEncoder(ch), id))
  {
    hide InRange, Lists, Dropped, CleanStep, ServeStep, FanStep, DestroyStep, AcceptStep, LoopStep;
    if Cleans(s.enc.pc) { CleanStepDrops(s, id); }
    else if Serves(s.enc.pc) { ServeStepDrops(s, ch, id); }
    else if s.enc.pc.Fan? { FanDrops(s, id); }
    else if Destroys(s.enc.pc) { DestroyDrops(s, id); }
    else if Accepts(s.enc.pc) { AcceptDrops(s, ch, id); }
    else { LoopDrops(s, ch, id); }
  }

  // A step that blocks fails no one.
  lemma {:induction false} BlockedFailsNone(s: State, ch: Choice, id: nat)
    requires InRange(s) && EncoderStep(s, ch).None?
    ensures !FailsFor(s, OfEncoder(ch), id) && !GivesUp(s, OfEncoder(ch))
  {
    hide InRange;
  }

  lemma {:induction false} DropStep(s: State, ev: Event, id: nat)
    requires Inv(s) && InRange(s) && id < |s.clients|
    ensures Dropped(Next(s, ev), id) <==> Dropped(s, id) || GivesUp(s, ev) || FailsFor(s, ev, id)
  {
    hide Inv, InRange, Lists, EncoderStep, WriterStep;
    InvLists(s);
    if ev.OfEncoder? {
      EncoderDrops(s, ev.choice, id);
      if EncoderStep(s, ev.choice).None? { BlockedFailsNone(s, ev.choice, id); }
    } else {
      WriterKeepsPc(s, ev.client, ev.choice);
    }
  }

  lemma {:induction false} InvLists(s: State)
    requires Inv(s)
    ensures Lists(s.enc)
  {
    hide InRange, Lists, ClientsInv, InputsInv, ReadersInv;
  }

  // ---------- who arrives ----------

  // The encoder looks for a client and one is waiting.
  predicate Accepted(s: State, ev: Event) {
    ev == OfEncoder(Yes) && (s.enc.pc.Accept? || (s.enc.pc.Head? && s.enc.clients == []))
  }

  lemma {:induction false} EncoderArrivals(s: State, ch: Choice)
    requires InRange(s)
    ensures var r := EncoderStep(s, ch);
      && (Accepted(s, OfEncoder(ch)) ==>
            && r.Some? && r.value.clients == s.clients + [NEW_CLIENT]
            && r.value.enc.clients == s.enc.clients + [|s.clients|] && Accepts(r.value.enc.pc))
      && (!Accepted(s, OfEncoder(ch)) && r.Some? ==> |r.value.clients| == |s.clients|)
  {
    hide WritersInRange, Serve, Clean;
  }

  // A client arrives exactly when the encoder looks for one and one is waiting, and it
  // goes to the end of the list.
  lemma {:induction false} ArrivesIff(s: State, ev: Event)
    requires InRange(s)
    ensures var s' := Next(s, ev);
      if Accepted(s, ev) then
        && s'.clients == s.clients + [NEW_CLIENT] && s'.enc.clients == s.enc.clients + [|s.clients|]
        && Accepts(s'.enc.pc)
      else |s'.clients| == |s.clients|
  {
    hide InRange, EncoderStep, Write;
    if ev.OfEncoder? { EncoderArrivals(s, ev.choice); }
  }

  lemma {:induction false} NewIsNotDropped(s: State, ev: Event)
    requires Inv(s) && InRange(s) && Accepted(s, ev)
    ensures InRange(Next(s, ev)) && !Dropped(Next(s, ev), |s.clients|) && !s.enc.shut
  {
    hide Inv, InRange, Next;
    NextInRange(s, ev);
    ShutStep(s, ev);
    ArrivesIff(s, ev);
    InvLists(s);
  }

  // ---------- why a client is dropped, over whole runs ----------

  predicate FailsForAt(evs: seq<Event>, i: nat, id: nat)
    requires i < |evs|
  {
    FailsFor(Run(evs[..i]), evs[i], id)
  }

  lemma {:induction false} ClientsGrow(evs: seq<Event>, i: nat)
    requires i <= |evs|
    ensures |Run(evs[..i]).clients| <= |Run(evs).clients|
  {
    hide Inv, InRange, Exec, Later;
    StartInRange();
    ExecSplits(INIT, evs, i);
    RunKeeps(evs[..i]);
    ExecLater(Run(evs[..i]), evs[i..]);
  }

  predicate Lost(evs: seq<Event>, i: nat, id: nat)
    requires i < |evs|
  {
    GivesUpAt(evs, i) || FailsForAt(evs, i, id)
  }

  // A client has been dropped exactly when its output could not be opened, a packet not
  // be cloned for it or its channel was full, or the encoder has given up.
  lemma {:induction false} DroppedIff(evs: seq<Event>, id: nat)
    requires id < |Run(evs).clients|
    ensures Dropped(Run(evs), id) <==> exists i :: 0 <= i < |evs| && Lost(evs, i, id)
    decreases |evs|
  {
    hide Inv, InRange, Exec, GivesUp, FailsFor, Dropped, Accepted;
    if evs == [] {
      RunNone();
    } else {
      var n := |evs| - 1;
      var pre := evs[..n];
      RunLast(evs);
      RunKeeps(pre);
      ArrivesIff(Run(pre), evs[n]);
      forall i | 0 <= i < n ensures Lost(pre, i, id) == Lost(evs, i, id) { assert pre[..i] == evs[..i]; }
      assert Lost(evs, n, id) == (GivesUp(Run(pre), evs[n]) || FailsFor(Run(pre), evs[n], id));
      if id < |Run(pre).clients| {
        DroppedIff(pre, id);
        DropStep(Run(pre), evs[n], id);
      } else {
        NewIsNotDropped(Run(pre), evs[n]);
        NotLostYet(evs, id);
      }
      hide Run, Lost, Next;
      if i :| 0 <= i < n && Lost(pre, i, id) { assert Lost(evs, i, id); }
    }
  }

  lemma {:induction false} NotLostYet(evs: seq<Event>, id: nat)
    requires evs != [] && var pre := evs[..|evs| - 1];
             id == |Run(pre).clients| && !Run(pre).enc.shut && Accepted(Run(pre), evs[|evs| - 1])
    ensures forall i :: 0 <= i < |evs| ==> !Lost(evs, i, id)
  {
    var n := |evs| - 1;
    var pre := evs[..n];
    ShutIff(pre);
    hide Inv, InRange, Exec, Run;
    forall i | 0 <= i < |evs| ensures !Lost(evs, i, id) {
      if i < n {
        assert pre[..i] == evs[..i];
        assert GivesUpAt(pre, i) == GivesUpAt(evs, i);
        ClientsGrow(pre, i);
      }
    }
  }

  // So between rounds the list holds exactly the clients nothing of the kind happened to.
  lemma {:induction false} ListedIff(evs: seq<Event>, id: nat)
    requires id < |Run(evs).clients| && Run(evs).enc.pc.Head?
    ensures id in Run(evs).enc.clients <==> forall i :: 0 <= i < |evs| ==> !Lost(evs, i, id)
  {
    hide *;
    DroppedIff(evs, id);
    RunKeeps(evs);
    InvLists(Run(evs));
    ListedAtHead(Run(evs), id);
  }

  lemma {:induction false} ListedAtHead(s: State, id: nat)
    requires Lists(s.enc) && s.enc.pc.Head?
    ensures id in s.enc.clients <==> !Dropped(s, id)
  {
  }
}
