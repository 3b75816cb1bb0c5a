// The protocol's invariant, kept by every step of the encoder and of every writer.

module EncoderInvariant {

  import opened Wrappers
  import opened EncoderModel
  import opened EncoderClient

  // ---------- the lists of clients ----------

  predicate Distinct(ids: seq<nat>) {
    forall i, j :: 0 <= i < j < |ids| ==> ids[i] != ids[j]
  }

  predicate Disjoint(xs: seq<nat>, ys: seq<nat>) {
    forall x :: x in xs ==> x !in ys
  }

  // On the way out, the input dealt with.
  predicate Closing(e: Encoder) {
    e.pc.ShutNext? || e.pc.Exited? || (Cleans(e.pc) && e.shut)
  }

  predicate Lists(e: Encoder) {
    && (e.shut ==> Destroys(e.pc) || Closing(e))
    && (WorksOnCur(e.pc) ==> e.cur !in e.todo)
    && (e.pc.Exited? ==> e.todo == [])
    && if InRound(e) then
         Distinct(e.todo) && Distinct(e.kept) && Disjoint(e.kept, e.todo) && (WorksOnCur(e.pc) ==> e.cur !in e.kept)
       else if Closing(e) then Distinct(e.todo)
       else Distinct(e.clients)
  }

  function ViewOf(e: Encoder, id: nat): View {
    if WorksOnCur(e.pc) && id == e.cur then At(e.pc)
    else if InRound(e) then (if id in e.kept then Idle else if id in e.todo then Waiting else Gone)
    else if Closing(e) then (if id in e.todo then Leaving else Gone)
    else if id in e.clients then Idle else Gone
  }

  predicate ClientsInv(s: State) {
    forall id :: 0 <= id < |s.clients| ==> ClientInv(ViewOf(s.enc, id), s.read, s.clients[id])
  }

  // ---------- the inputs ----------

  predicate Current(e: Encoder, k: nat) {
    e.input == Some(k)
  }

  predicate InputInv(e: Encoder, k: nat, x: Input) {
    && (x.live ==> x.field && Current(e, k) && !Closing(e) && !e.pc.DestroyNil?)
    && (x.field && !x.live ==> Current(e, k) && e.pc.DestroyNil?)
    && (Current(e, k) && !Closing(e) && !e.pc.DestroyNil? ==> x.live)
    && x.wlock == (Current(e, k) && (e.pc.DestroyCall? || e.pc.DestroyNil?))
    && x.encoderReads == (Current(e, k) && ReadsInput(e.pc))
    && (x.wlock ==> x.readers == {})
  }

  predicate InputsInv(s: State) {
    && (s.enc.pc.Head? && s.enc.clients == [] ==> s.enc.input.None?)
    && (s.enc.pc.Accept? || s.enc.pc.Opening? || s.enc.pc.ReadPacket? ==> s.enc.clients != [])
    && (s.enc.pc.Opening? ==> s.enc.input.None?)
    && forall k :: 0 <= k < |s.inputs| ==> InputInv(s.enc, k, s.inputs[k])
  }

  ghost predicate ReadersOf(cs: seq<Client>, k: nat, readers: set<nat>) {
    forall id: nat :: id in readers <==> id < |cs| && UsesInput(cs[id].writer) && cs[id].input == k
  }

  ghost predicate ReadersInv(s: State) {
    forall k :: 0 <= k < |s.inputs| ==> ReadersOf(s.clients, k, s.inputs[k].readers)
  }

  ghost predicate Inv(s: State) {
    InRange(s) && Lists(s.enc) && ClientsInv(s) && InputsInv(s) && ReadersInv(s)
  }

  lemma {:induction false} InvInit()
    ensures Inv(INIT)
  {
  }

  // ---------- the lists ----------

  lemma {:induction false} AcceptLists(s: State, ch: Choice)
    requires InRange(s) && Accepts(s.enc.pc) && Lists(s.enc)
    ensures AcceptStep(s, ch).Some? ==> Lists(AcceptStep(s, ch).value.enc)
  {
  }

  lemma {:induction false} DistinctTail(ids: seq<nat>)
    requires Distinct(ids) && ids != []
    ensures Distinct(ids[1..]) && ids[0] !in ids[1..]
  {
  }

  lemma {:induction false} EmptyDistinct()
    ensures Distinct([])
  {
  }

  lemma {:induction false} LoopLists(s: State, ch: Choice)
    requires InRange(s) && !InRound(s.enc) && !Destroys(s.enc.pc) && !Accepts(s.enc.pc) && Lists(s.enc)
    ensures LoopStep(s, ch).Some? ==> Lists(LoopStep(s, ch).value.enc)
  {
    hide Distinct, Below, WritersInRange;
    if s.enc.todo != [] && s.enc.pc.ShutNext? { DistinctTail(s.enc.todo); }
    assert Distinct([]) by { EmptyDistinct(); }
  }

  lemma {:induction false} DestroyLists(s: State)
    requires InRange(s) && Destroys(s.enc.pc) && Lists(s.enc)
    ensures DestroyStep(s).Some? ==> Lists(DestroyStep(s).value.enc)
  {
    hide Distinct, Disjoint, Below, WritersInRange;
  }

  lemma {:induction false} FanLists(s: State)
    requires InRange(s) && s.enc.pc.Fan? && Lists(s.enc)
    ensures FanStep(s).Some? ==> Lists(FanStep(s).value.enc)
  {
  }

  lemma {:induction false} ServeLists(s: State, ch: Choice)
    requires InRange(s) && Serves(s.enc.pc) && Lists(s.enc)
    ensures ServeStep(s, ch).Some? ==> Lists(ServeStep(s, ch).value.enc)
  {
    hide Serve;
    ServeGoesOn(s.enc.pc, s.clients[s.enc.cur], s.read - 1, s.enc.input.value, ch);
  }

  lemma {:induction false} CleanLists(s: State)
    requires InRange(s) && Cleans(s.enc.pc) && Lists(s.enc)
    ensures CleanStep(s).Some? ==> Lists(CleanStep(s).value.enc)
  {
    hide Clean;
    CleanGoesOn(s.enc.pc, s.clients[s.enc.cur], if s.enc.shut then ShutNext else Fan);
  }

  // ---------- the clients ----------

  lemma {:induction false} AcceptClients(s: State, ch: Choice)
    requires InRange(s) && Accepts(s.enc.pc) && Lists(s.enc) && ClientsInv(s)
    ensures AcceptStep(s, ch).Some? ==> ClientsInv(AcceptStep(s, ch).value)
  {
    hide ClientInv;
    NewClient(s.read);
  }

  lemma {:induction false} LoopClients(s: State, ch: Choice)
    requires InRange(s) && !InRound(s.enc) && !Destroys(s.enc.pc) && !Accepts(s.enc.pc) && Lists(s.enc) && ClientsInv(s)
    ensures LoopStep(s, ch).Some? ==> ClientsInv(LoopStep(s, ch).value)
  {
    hide ClientInv;
    if LoopStep(s, ch).Some? {
      var s' := LoopStep(s, ch).value;
      forall id | 0 <= id < |s'.clients| ensures ClientInv(ViewOf(s'.enc, id), s'.read, s'.clients[id]) {
        var c := s.clients[id];
        match ViewOf(s.enc, id)
        case Idle => RoundBegins(s.read, c); ShutBegins(s.read, c);
        case Leaving => CleanupBegins(s.read, c);
        case Gone => GoneStays(s.read, c);
        case _ =>
      }
    }
  }

  lemma {:induction false} DestroyClients(s: State)
    requires InRange(s) && Destroys(s.enc.pc) && Lists(s.enc) && ClientsInv(s)
    ensures DestroyStep(s).Some? ==> ClientsInv(DestroyStep(s).value)
  {
    hide ClientInv, Distinct, Disjoint, Below;
    forall id | 0 <= id < |s.clients| && ViewOf(s.enc, id).Idle? ensures ClientInv(Leaving, s.read, s.clients[id]) {
      ShutBegins(s.read, s.clients[id]);
    }
  }

  lemma {:induction false} FanClients(s: State)
    requires InRange(s) && s.enc.pc.Fan? && Lists(s.enc) && ClientsInv(s)
    ensures FanStep(s).Some? ==> ClientsInv(FanStep(s).value)
  {
    hide ClientInv;
    if s.enc.todo != [] {
      var id := s.enc.todo[0];
      assert ViewOf(s.enc, id) == Waiting;
      if !s.clients[id].rlock { TurnBegins(s.read, s.clients[id]); }
    }
  }

  lemma {:induction false} ServeClients(s: State, ch: Choice)
    requires InRange(s) && Serves(s.enc.pc) && Lists(s.enc) && ClientsInv(s)
    ensures ServeStep(s, ch).Some? ==> ClientsInv(ServeStep(s, ch).value)
  {
    hide ClientInv, Serve;
    var c := s.clients[s.enc.cur];
    ServeGoesOn(s.enc.pc, c, s.read - 1, s.enc.input.value, ch);
    assert ViewOf(s.enc, s.enc.cur) == At(s.enc.pc);
    ServeKeeps(s.enc.pc, c, s.read - 1, s.enc.input.value, ch);
  }

  lemma {:induction false} CleanClients(s: State)
    requires InRange(s) && Cleans(s.enc.pc) && Lists(s.enc) && ClientsInv(s)
    ensures CleanStep(s).Some? ==> ClientsInv(CleanStep(s).value)
  {
    hide ClientInv, Clean;
    var c := s.clients[s.enc.cur];
    var next := if s.enc.shut then ShutNext else Fan;
    CleanGoesOn(s.enc.pc, c, next);
    assert ViewOf(s.enc, s.enc.cur) == At(s.enc.pc);
    CleanKeeps(s.enc.pc, c, next, s.read);
  }

  lemma {:induction false} WriterClients(s: State, id: nat, ch: Choice)
    requires InRange(s) && ClientsInv(s)
    ensures WriterStep(s, id, ch).Some? ==> ClientsInv(WriterStep(s, id, ch).value)
  {
    hide ClientInv, Write;
    if id < |s.clients| && !s.clients[id].writer.NoWriter? {
      WriteKeeps(ViewOf(s.enc, id), s.clients[id], s.read, s.inputs[s.clients[id].input].field, ch);
    }
  }

  // ---------- the inputs ----------

  lemma {:induction false} AcceptInputs(s: State, ch: Choice)
    requires InRange(s) && Accepts(s.enc.pc) && Lists(s.enc) && InputsInv(s)
    ensures AcceptStep(s, ch).Some? ==> InputsInv(AcceptStep(s, ch).value)
  {
  }

  lemma {:induction false} LoopInputs(s: State, ch: Choice)
    requires InRange(s) && !InRound(s.enc) && !Destroys(s.enc.pc) && !Accepts(s.enc.pc) && Lists(s.enc) && InputsInv(s)
    ensures LoopStep(s, ch).Some? ==> InputsInv(LoopStep(s, ch).value)
  {
  }

  lemma {:induction false} DestroyInputs(s: State)
    requires InRange(s) && Destroys(s.enc.pc) && Lists(s.enc) && InputsInv(s)
    ensures DestroyStep(s).Some? ==> InputsInv(DestroyStep(s).value)
  {
  }

  lemma {:induction false} FanInputs(s: State)
    requires InRange(s) && s.enc.pc.Fan? && Lists(s.enc) && InputsInv(s)
    ensures FanStep(s).Some? ==> InputsInv(FanStep(s).value)
  {
  }

  lemma {:induction false} ServeInputs(s: State, ch: Choice)
    requires InRange(s) && Serves(s.enc.pc) && Lists(s.enc) && InputsInv(s)
    ensures ServeStep(s, ch).Some? ==> InputsInv(ServeStep(s, ch).value)
  {
    hide Serve;
    ServeGoesOn(s.enc.pc, s.clients[s.enc.cur], s.read - 1, s.enc.input.value, ch);
  }

  lemma {:induction false} CleanInputs(s: State)
    requires InRange(s) && Cleans(s.enc.pc) && Lists(s.enc) && InputsInv(s)
    ensures CleanStep(s).Some? ==> InputsInv(CleanStep(s).value)
  {
    hide Clean;
    CleanGoesOn(s.enc.pc, s.clients[s.enc.cur], if s.enc.shut then ShutNext else Fan);
  }

  lemma {:induction false} WriteUses(c: Client, field: bool, ch: Choice)
    ensures var r := Write(c, field, ch);
      r.Some? && UsesInput(r.value.writer) ==> c.writer.Reading? || UsesInput(c.writer)
  {
  }

  lemma {:induction false} WriterInputs(s: State, id: nat, ch: Choice)
    requires InRange(s) && InputsInv(s) && ReadersInv(s)
    ensures WriterStep(s, id, ch).Some? ==> InputsInv(WriterStep(s, id, ch).value)
  {
    hide Write;
    if id < |s.clients| && !s.clients[id].writer.NoWriter? {
      var k := s.clients[id].input;
      WriteUses(s.clients[id], s.inputs[k].field, ch);
      assert ReadersOf(s.clients, k, s.inputs[k].readers);
    }
  }

  // ---------- the readers of the inputs ----------

  // Same use of the same input.
  predicate SameUse(c: Client, c': Client) {
    UsesInput(c'.writer) == UsesInput(c.writer) && (UsesInput(c.writer) ==> c'.input == c.input)
  }

  predicate SameUses(cs: seq<Client>, cs': seq<Client>) {
    && |cs| <= |cs'|
    && (forall id :: 0 <= id < |cs| ==> SameUse(cs[id], cs'[id]))
    && (forall id :: |cs| <= id < |cs'| ==> !UsesInput(cs'[id].writer))
  }

  predicate SameReaders(xs: seq<Input>, xs': seq<Input>) {
    && |xs| <= |xs'|
    && (forall k :: 0 <= k < |xs| ==> xs'[k].readers == xs[k].readers)
    && (forall k :: |xs| <= k < |xs'| ==> xs'[k].readers == {})
  }

  lemma {:induction false} ReadersKept(s: State, s': State)
    requires ReadersInv(s) && InRange(s) && SameUses(s.clients, s'.clients) && SameReaders(s.inputs, s'.inputs)
    ensures ReadersInv(s')
  {
    forall k | 0 <= k < |s'.inputs| ensures ReadersOf(s'.clients, k, s'.inputs[k].readers) {
      if k < |s.inputs| {
        assert ReadersOf(s.clients, k, s.inputs[k].readers);
      } else {
        assert WritersInRange(s.clients, |s.inputs|);
      }
    }
  }

  lemma {:induction false} ServeStarts(pc: Pc, c: Client, p: Packet, input: nat, ch: Choice)
    requires Serves(pc)
    ensures var r := Serve(pc, c, p, input, ch);
      r.Some? ==> if pc == OutDone(true) then r.value.client.writer.Start?
                  else r.value.client.writer == c.writer && r.value.client.input == c.input
  {
  }

  lemma {:induction false} ServeUse(pc: Pc, c: Client, p: Packet, input: nat, ch: Choice)
    requires Serves(pc) && ClientInv(At(pc), p + 1, c)
    ensures var r := Serve(pc, c, p, input, ch); r.Some? ==> SameUse(c, r.value.client)
  {
    hide Serve, Flow, Segment, Conserved, Locks;
    ServeStarts(pc, c, p, input, ch);
  }

  lemma {:induction false} AcceptUses(s: State, ch: Choice)
    requires InRange(s) && Accepts(s.enc.pc)
    ensures AcceptStep(s, ch).Some? ==>
      SameUses(s.clients, AcceptStep(s, ch).value.clients) && SameReaders(s.inputs, AcceptStep(s, ch).value.inputs)
  {
  }

  lemma {:induction false} LoopUses(s: State, ch: Choice)
    requires InRange(s) && !InRound(s.enc) && !Destroys(s.enc.pc) && !Accepts(s.enc.pc)
    ensures LoopStep(s, ch).Some? ==>
      SameUses(s.clients, LoopStep(s, ch).value.clients) && SameReaders(s.inputs, LoopStep(s, ch).value.inputs)
  {
  }

  lemma {:induction false} DestroyUses(s: State)
    requires InRange(s) && Destroys(s.enc.pc)
    ensures DestroyStep(s).Some? ==>
      SameUses(s.clients, DestroyStep(s).value.clients) && SameReaders(s.inputs, DestroyStep(s).value.inputs)
  {
  }

  lemma {:induction false} FanUses(s: State)
    requires InRange(s) && s.enc.pc.Fan?
    ensures FanStep(s).Some? ==>
      SameUses(s.clients, FanStep(s).value.clients) && SameReaders(s.inputs, FanStep(s).value.inputs)
  {
  }

  lemma {:induction false} ServeUses(s: State, ch: Choice)
    requires InRange(s) && Serves(s.enc.pc) && ClientsInv(s)
    ensures ServeStep(s, ch).Some? ==>
      SameUses(s.clients, ServeStep(s, ch).value.clients) && SameReaders(s.inputs, ServeStep(s, ch).value.inputs)
  {
    hide Serve, ClientInv;
    assert ViewOf(s.enc, s.enc.cur) == At(s.enc.pc);
    ServeUse(s.enc.pc, s.clients[s.enc.cur], s.read - 1, s.enc.input.value, ch);
  }

  lemma {:induction false} CleanUses(s: State)
    requires InRange(s) && Cleans(s.enc.pc)
    ensures CleanStep(s).Some? ==>
      SameUses(s.clients, CleanStep(s).value.clients) && SameReaders(s.inputs, CleanStep(s).value.inputs)
  {
    hide Clean;
    CleanGoesOn(s.enc.pc, s.clients[s.enc.cur], if s.enc.shut then ShutNext else Fan);
  }

  lemma {:induction false} WriterReaders(s: State, id: nat, ch: Choice)
    requires InRange(s) && ReadersInv(s)
    ensures WriterStep(s, id, ch).Some? ==> ReadersInv(WriterStep(s, id, ch).value)
  {
    hide Write;
    if WriterStep(s, id, ch).Some? {
      var s' := WriterStep(s, id, ch).value;
      forall k | 0 <= k < |s'.inputs| ensures ReadersOf(s'.clients, k, s'.inputs[k].readers) {
        assert ReadersOf(s.clients, k, s.inputs[k].readers);
      }
    }
  }

  // ---------- every step keeps all of it ----------

  lemma {:induction false} AcceptKeeps(s: State, ch: Choice)
    requires Inv(s) && Accepts(s.enc.pc)
    ensures AcceptStep(s, ch).Some? ==> Inv(AcceptStep(s, ch).value)
  {
    hide InRange, AcceptStep, Lists, ClientsInv, InputsInv, ReadersInv, SameUses, SameReaders;
    AcceptInRange(s, ch); AcceptLists(s, ch); AcceptClients(s, ch); AcceptInputs(s, ch); AcceptUses(s, ch);
    if AcceptStep(s, ch).Some? { ReadersKept(s, AcceptStep(s, ch).value); }
  }

  lemma {:induction false} LoopKeeps(s: State, ch: Choice)
    requires Inv(s) && !InRound(s.enc) && !Destroys(s.enc.pc) && !Accepts(s.enc.pc)
    ensures LoopStep(s, ch).Some? ==> Inv(LoopStep(s, ch).value)
  {
    hide InRange, LoopStep, Lists, ClientsInv, InputsInv, ReadersInv, SameUses, SameReaders;
    LoopInRange(s, ch); LoopLists(s, ch); LoopClients(s, ch); LoopInputs(s, ch); LoopUses(s, ch);
    if LoopStep(s, ch).Some? { ReadersKept(s, LoopStep(s, ch).value); }
  }

  lemma {:induction false} DestroyKeeps(s: State)
    requires Inv(s) && Destroys(s.enc.pc)
    ensures DestroyStep(s).Some? ==> Inv(DestroyStep(s).value)
  {
    hide InRange, DestroyStep, Lists, ClientsInv, InputsInv, ReadersInv, SameUses, SameReaders;
    DestroyInRange(s); DestroyLists(s); DestroyClients(s); DestroyInputs(s); DestroyUses(s);
    if DestroyStep(s).Some? { ReadersKept(s, DestroyStep(s).value); }
  }

  lemma {:induction false} FanKeeps(s: State)
    requires Inv(s) && s.enc.pc.Fan?
    ensures FanStep(s).Some? ==> Inv(FanStep(s).value)
  {
    hide InRange, FanStep, Lists, ClientsInv, InputsInv, ReadersInv, SameUses, SameReaders;
    FanInRange(s); FanLists(s); FanClients(s); FanInputs(s); FanUses(s);
    if FanStep(s).Some? { ReadersKept(s, FanStep(s).value); }
  }

  lemma {:induction false} ServeStepKeeps(s: State, ch: Choice)
    requires Inv(s) && Serves(s.enc.pc)
    ensures ServeStep(s, ch).Some? ==> Inv(ServeStep(s, ch).value)
  {
    hide InRange, ServeStep, Lists, ClientsInv, InputsInv, ReadersInv, SameUses, SameReaders;
    ServeInRange(s, ch); ServeLists(s, ch); ServeClients(s, ch); ServeInputs(s, ch); ServeUses(s, ch);
    if ServeStep(s, ch).Some? { ReadersKept(s, ServeStep(s, ch).value); }
  }

  lemma {:induction false} CleanStepKeeps(s: State)
    requires Inv(s) && Cleans(s.enc.pc)
    ensures CleanStep(s).Some? ==> Inv(CleanStep(s).value)
  {
    hide InRange, CleanStep, Lists, ClientsInv, InputsInv, ReadersInv, SameUses, SameReaders;
    CleanInRange(s); CleanLists(s); CleanClients(s); CleanInputs(s); CleanUses(s);
    if CleanStep(s).Some? { ReadersKept(s, CleanStep(s).value); }
  }

  lemma {:induction false} EncoderStepKeeps(s: State, ch: Choice)
    requires Inv(s)
    ensures EncoderStep(s, ch).Some? ==> Inv(EncoderStep(s, ch).value)
  {
    hide Inv, CleanStep, ServeStep, FanStep, DestroyStep, AcceptStep, LoopStep;
    InvInRange(s);
    if Cleans(s.enc.pc) { CleanStepKeeps(s); }
    else if Serves(s.enc.pc) { ServeStepKeeps(s, ch); }
    else if s.enc.pc.Fan? { FanKeeps(s); }
    else if Destroys(s.enc.pc) { DestroyKeeps(s); }
    else if Accepts(s.enc.pc) { AcceptKeeps(s, ch); }
    else { LoopKeeps(s, ch); }
  }

  lemma {:induction false} WriterStepKeeps(s: State, id: nat, ch: Choice)
    requires Inv(s)
    ensures WriterStep(s, id, ch).Some? ==> Inv(WriterStep(s, id, ch).value)
  {
    hide InRange, Write, Lists, ClientsInv, InputsInv, ReadersInv;
    InvInRange(s);
    WriterStepInRange(s, id, ch); WriterClients(s, id, ch); WriterInputs(s, id, ch); WriterReaders(s, id, ch);
  }

  lemma {:induction false} InvInRange(s: State)
    requires Inv(s)
    ensures InRange(s)
  {
  }

  lemma {:induction false} NextKeeps(s: State, ev: Event)
    requires Inv(s)
    ensures InRange(s) && Inv(Next(s, ev))
  {
    hide Inv, InRange, EncoderStep, WriterStep;
    InvInRange(s);
    match ev
    case OfEncoder(ch) => EncoderStepKeeps(s, ch);
    case OfWriter(id, ch) => WriterStepKeeps(s, id, ch);
  }

  // Whatever the interleaving and whatever fails.
  lemma {:induction false} ExecKeeps(s: State, evs: seq<Event>)
    requires Inv(s)
    ensures InRange(s) && Inv(Exec(s, evs))
    decreases |evs|
  {
    hide Inv, InRange, Next;
    InvInRange(s);
    if evs != [] {
      NextKeeps(s, evs[0]);
      NextInRange(s, evs[0]);
      ExecKeeps(Next(s, evs[0]), evs[1..]);
    }
  }
}
