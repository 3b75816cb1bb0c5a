// The encoder, its clients and their packetWriters (videostreamer.go) as one state
// machine.  A step is one shared access of one goroutine; locks and channels block.

module EncoderModel {

  import opened Wrappers

  // What the world answers when a step depends on it: a call succeeds or fails, a frame
  // is video or not, a client is waiting or not.
  datatype Choice = Yes | No | Skip

  const CHANNEL_SIZE: nat := 32

  // The n-th video packet read is packet n; its clone for a client is that number again.
  type Packet = nat

  // Where a client's packetWriter is.
  datatype Writer =
    | NoWriter
    | Start                       // spawned, the range expression not yet evaluated
    | Recv                        // receiving from the channel
    | Got(p: Packet)
    | Reading(p: Packet)          // holds client.mutex for reading
    | Writing(p: Packet)          // and input.mutex
    | Wrote(p: Packet, ok: bool)
    | Released(p: Packet, ok: bool)
    | Quit                        // freed after a failed write, lock still held
    | Freeing(p: Packet)
    | BlockedOnNil                // ranged over a nil channel
    | Done

  datatype Output = Output(
    pipe: bool,            // OutPipe != nil
    field: bool,           // Output != nil
    live: bool)            // the C output exists

  datatype Channel = Channel(
    field: bool,           // PacketChan != nil
    made: bool,
    closed: bool,
    queue: seq<Packet>)

  // What has happened to a client so far.
  datatype History = History(
    first: Option<Packet>, // the packet that opened the output
    cloned: seq<Packet>,
    enqueued: seq<Packet>,
    received: seq<Packet>,
    written: seq<Packet>,
    freed: multiset<Packet>)

  datatype Client = Client(
    out: Output,
    wlock: bool,           // client.mutex held by the encoder
    rlock: bool,           // ... by the writer
    chan: Channel,
    writer: Writer,
    input: nat,            // the Input its writer was given
    log: History)

  const NEW_CLIENT := Client(Output(true, false, false), false, false, Channel(false, false, false, []), NoWriter, 0,
                             History(None, [], [], [], [], multiset{}))

  datatype Input = Input(
    field: bool,           // vsInput != nil
    live: bool,            // the C input exists
    wlock: bool,
    readers: set<nat>,     // clients whose writer holds input.mutex
    encoderReads: bool)

  // Where the encoder is.  From Locked to DrainNil it works on client `cur`; a packet
  // argument is the clone in its hand.
  datatype Pc =
    | Head | Accept | Opening | ReadPacket
    | Fan | Locked | OutRLock | OutOpen | OutDone(ok: bool) | Unlock | Clone | Send(p: Packet) | SlowFree(p: Packet)
    | CleanLock | CleanPipe | CleanOut | CleanOutNil | CleanUnlock | CleanClose
    | Drain | DrainFree(p: Packet) | DrainNil
    | DestroyLock | DestroyCall | DestroyNil
    | ShutNext | Exited

  datatype Encoder = Encoder(
    pc: Pc,
    clients: seq<nat>,     // the slice between rounds
    todo: seq<nat>,        // rest of the current loop over clients
    kept: seq<nat>,        // clients2
    cur: nat,
    input: Option<nat>,
    shut: bool)            // on the way out: cleanupClients and return

  datatype State = State(enc: Encoder, clients: seq<Client>, inputs: seq<Input>, read: nat)

  const INIT := State(Encoder(Head, [], [], [], 0, None, false), [], [], 0)

  // ---------- what happens to a packet ----------

  function Pushed(c: Client, p: Packet): Client {
    c.(chan := c.chan.(queue := c.chan.queue + [p]), log := c.log.(enqueued := c.log.enqueued + [p]))
  }

  function Popped(c: Client): Client
    requires c.chan.queue != []
  {
    c.(chan := c.chan.(queue := c.chan.queue[1..]))
  }

  function Received(c: Client): Client
    requires c.chan.queue != []
  {
    var p := c.chan.queue[0];
    Popped(c).(writer := Got(p), log := c.log.(received := c.log.received + [p]))
  }

  function Written(c: Client, p: Packet): Client {
    c.(writer := Wrote(p, true), log := c.log.(written := c.log.written + [p]))
  }

  function Freed(c: Client, p: Packet): Client {
    c.(log := c.log.(freed := c.log.freed + multiset{p}))
  }

  // ---------- where the encoder is ----------

  predicate Serves(pc: Pc) {
    pc.Locked? || pc.OutRLock? || pc.OutOpen? || pc.OutDone? || pc.Unlock? || pc.Clone? || pc.Send? || pc.SlowFree?
  }

  predicate Cleans(pc: Pc) {
    pc.CleanLock? || pc.CleanPipe? || pc.CleanOut? || pc.CleanOutNil? || pc.CleanUnlock? || pc.CleanClose?
    || pc.Drain? || pc.DrainFree? || pc.DrainNil?
  }

  predicate WorksOnCur(pc: Pc) {
    Serves(pc) || Cleans(pc)
  }

  // Inside writePacketToClients.
  predicate InRound(e: Encoder) {
    e.pc.Fan? || Serves(e.pc) || (Cleans(e.pc) && !e.shut)
  }

  predicate Destroys(pc: Pc) {
    pc.DestroyLock? || pc.DestroyCall? || pc.DestroyNil?
  }

  predicate ReadsInput(pc: Pc) {
    pc.OutOpen? || pc.OutDone?
  }

  predicate UsesInput(w: Writer) {
    w.Writing? || w.Wrote?
  }

  // ---------- well-formedness of indices ----------

  predicate Below(ids: seq<nat>, n: nat) {
    forall i :: 0 <= i < |ids| ==> ids[i] < n
  }

  predicate EncoderInRange(e: Encoder, n: nat, m: nat, read: nat) {
    && Below(e.clients, n) && Below(e.todo, n) && Below(e.kept, n)
    && (WorksOnCur(e.pc) ==> e.cur < n)
    && (e.pc.ReadPacket? || InRound(e) || Destroys(e.pc) ==> e.input.Some?)
    && (e.input.Some? ==> e.input.value < m)
    && (InRound(e) ==> read > 0)
    && (e.pc.ShutNext? || e.pc.Exited? ==> e.shut)
  }

  predicate WritersInRange(cs: seq<Client>, m: nat) {
    forall id :: 0 <= id < |cs| && !cs[id].writer.NoWriter? ==> cs[id].input < m
  }

  predicate InRange(s: State) {
    EncoderInRange(s.enc, |s.clients|, |s.inputs|, s.read) && WritersInRange(s.clients, |s.inputs|)
  }

  // ---------- encoder, acceptClients, openInput, destroyInput ----------

  function GoTo(s: State, pc: Pc): State {
    s.(enc := s.enc.(pc := pc))
  }

  function Arrive(s: State, pc: Pc): State {
    s.(clients := s.clients + [NEW_CLIENT],
       enc := s.enc.(pc := pc, clients := s.enc.clients + [|s.clients|]))
  }

  predicate Accepts(pc: Pc) {
    pc.Head? || pc.Accept?
  }

  function AcceptStep(s: State, ch: Choice): (r: Option<State>)
    requires InRange(s) && Accepts(s.enc.pc)
  {
    var e := s.enc;
    if e.pc.Head? then
      if e.clients != [] then Some(GoTo(s, Accept)) else if ch.Yes? then Some(Arrive(s, Head)) else None
    else if ch.Yes? then Some(Arrive(s, Accept))
    else Some(GoTo(s, if e.input.None? then Opening else ReadPacket))
  }

  function LoopStep(s: State, ch: Choice): (r: Option<State>)
    requires InRange(s) && !InRound(s.enc) && !Destroys(s.enc.pc)
  {
    var e := s.enc;
    match e.pc
    case Opening =>
      if ch.Yes? then
        Some(s.(enc := e.(pc := ReadPacket, input := Some(|s.inputs|)),
                inputs := s.inputs + [Input(true, true, false, {}, false)]))
      else Some(s.(enc := e.(pc := ShutNext, todo := e.clients, shut := true)))
    case ReadPacket =>
      (match ch
       case No => Some(s.(enc := e.(pc := DestroyLock, shut := true)))
       case Skip => Some(GoTo(s, Head))
       case Yes => Some(s.(enc := e.(pc := Fan, todo := e.clients, kept := []), read := s.read + 1)))
    case ShutNext =>
      if e.todo == [] then Some(GoTo(s, Exited))
      else Some(s.(enc := e.(pc := CleanLock, cur := e.todo[0], todo := e.todo[1..])))
    case _ => None
  }

  function DestroyStep(s: State): (r: Option<State>)
    requires InRange(s) && Destroys(s.enc.pc)
  {
    var e := s.enc;
    var k := e.input.value;
    var i := s.inputs[k];
    match e.pc
    case DestroyLock =>
      if i.wlock || i.readers != {} || i.encoderReads then None
      else Some(GoTo(s.(inputs := s.inputs[k := i.(wlock := true)]), DestroyCall))
    case DestroyCall =>
      Some(GoTo(if i.field then s.(inputs := s.inputs[k := i.(live := false)]) else s, DestroyNil))
    case DestroyNil =>
      Some(s.(inputs := s.inputs[k := i.(field := false, wlock := false)],
              enc := if e.shut then e.(pc := ShutNext, todo := e.clients) else e.(pc := Head, input := None)))
  }

  // ---------- writePacketToClients ----------

  // The encoder's next place and what becomes of the client it works on.
  datatype Local = Local(pc: Pc, client: Client)

  // The client's lock is taken, or the round is over.
  function FanStep(s: State): (r: Option<State>)
    requires InRange(s) && s.enc.pc.Fan?
  {
    var e := s.enc;
    if e.todo == [] then
      Some(s.(enc := e.(pc := if e.kept == [] then DestroyLock else Head, clients := e.kept, kept := [])))
    else
      var c := s.clients[e.todo[0]];
      if c.wlock || c.rlock then None
      else
        Some(s.(clients := s.clients[e.todo[0] := c.(wlock := true)],
                enc := e.(pc := Locked, cur := e.todo[0], todo := e.todo[1..])))
  }

  // One client's share of a round with packet p; input is the encoder's.  A failed
  // openOutput calls cleanupClient with client.mutex still held.
  function Serve(pc: Pc, c: Client, p: Packet, input: nat, ch: Choice): (r: Option<Local>)
    requires Serves(pc)
  {
    match pc
    case Locked => Some(Local(if c.out.field then Unlock else OutRLock, c))
    case OutRLock => Some(Local(OutOpen, c))
    case OutOpen => Some(if ch.Yes? then Local(OutDone(true), c.(out := c.out.(live := true)))
                         else Local(OutDone(false), c))
    case OutDone(ok) =>
      Some(if ok then Local(Unlock, c.(out := c.out.(field := true),
                                       chan := Channel(true, true, c.chan.closed, c.chan.queue),
                                       writer := Start, input := input, log := c.log.(first := Some(p))))
           else Local(CleanLock, c))
    case Unlock => Some(Local(Clone, c.(wlock := false)))
    case Clone =>
      Some(if ch.Yes? then Local(Send(p), c.(log := c.log.(cloned := c.log.cloned + [p]))) else Local(CleanLock, c))
    case Send(q) =>
      Some(if |c.chan.queue| < CHANNEL_SIZE then Local(Fan, Pushed(c, q))
           else Local(SlowFree(q), c))
    case SlowFree(q) => Some(Local(CleanLock, Freed(c, q)))
  }

  function ServeStep(s: State, ch: Choice): (r: Option<State>)
    requires InRange(s) && Serves(s.enc.pc)
  {
    var e := s.enc;
    var i := s.inputs[e.input.value];
    if e.pc.OutRLock? && i.wlock then None
    else
      match Serve(e.pc, s.clients[e.cur], s.read - 1, e.input.value, ch)
      case None => None
      case Some(l) =>
        Some(s.(clients := s.clients[e.cur := l.client],
                inputs := s.inputs[e.input.value := i.(encoderReads := ReadsInput(l.pc))],
                enc := e.(pc := l.pc, kept := if l.pc.Fan? then e.kept + [e.cur] else e.kept)))
  }

  // ---------- cleanupClient ----------

  function Clean(pc: Pc, c: Client, next: Pc): (r: Option<Local>)
    requires Cleans(pc)
  {
    match pc
    case CleanLock => if c.wlock || c.rlock then None else Some(Local(CleanPipe, c.(wlock := true)))
    case CleanPipe => Some(Local(CleanOut, c.(out := c.out.(pipe := false))))
    case CleanOut => Some(if c.out.field then Local(CleanOutNil, c.(out := c.out.(live := false)))
                         else Local(CleanUnlock, c))
    case CleanOutNil => Some(Local(CleanUnlock, c.(out := c.out.(field := false))))
    case CleanUnlock => Some(Local(CleanClose, c.(wlock := false)))
    case CleanClose => Some(if c.chan.field then Local(Drain, c.(chan := c.chan.(closed := true))) else Local(next, c))
    case Drain =>
      Some(if c.chan.queue == [] then Local(DrainNil, c) else Local(DrainFree(c.chan.queue[0]), Popped(c)))
    case DrainFree(q) => Some(Local(Drain, Freed(c, q)))
    case DrainNil => Some(Local(next, c.(chan := c.chan.(field := false))))
  }

  function CleanStep(s: State): (r: Option<State>)
    requires InRange(s) && Cleans(s.enc.pc)
  {
    var e := s.enc;
    match Clean(e.pc, s.clients[e.cur], if e.shut then ShutNext else Fan)
    case None => None
    case Some(l) => Some(s.(clients := s.clients[e.cur := l.client], enc := e.(pc := l.pc)))
  }

  function EncoderStep(s: State, ch: Choice): (r: Option<State>)
    requires InRange(s)
  {
    if Cleans(s.enc.pc) then CleanStep(s)
    else if Serves(s.enc.pc) then ServeStep(s, ch)
    else if s.enc.pc.Fan? then FanStep(s)
    else if Destroys(s.enc.pc) then DestroyStep(s)
    else if Accepts(s.enc.pc) then AcceptStep(s, ch)
    else LoopStep(s, ch)
  }

  // ---------- packetWriter ----------

  // One step of client c's writer; inputField is input.vsInput != nil.  vs_write_packet
  // fails on a NULL input or output.
  function Write(c: Client, inputField: bool, ch: Choice): (r: Option<Client>)
    ensures r.Some? ==> r.value.input == c.input
  {
    match c.writer
    case Start => Some(c.(writer := if c.chan.field then Recv else BlockedOnNil))
    case Recv =>
      if c.chan.queue != [] then Some(Received(c))
      else if c.chan.closed then Some(c.(writer := Done))
      else None
    case Got(p) => if c.wlock then None else Some(c.(rlock := true, writer := Reading(p)))
    case Reading(p) => Some(c.(writer := Writing(p)))
    case Writing(p) => Some(if inputField && c.out.field && ch.Yes? then Written(c, p)
            else c.(writer := Wrote(p, false)))
    case Wrote(p, ok) => Some(c.(writer := Released(p, ok)))
    case Released(p, ok) => Some(if ok then c.(rlock := false, writer := Freeing(p)) else Freed(c, p).(writer := Quit))
    case Quit => Some(c.(rlock := false, writer := Done))
    case Freeing(p) => Some(Freed(c, p).(writer := Recv))
    case _ => None
  }

  function WriterStep(s: State, id: nat, ch: Choice): (r: Option<State>)
    requires InRange(s)
  {
    if id >= |s.clients| || s.clients[id].writer.NoWriter? then None
    else
      var c := s.clients[id];
      var i := s.inputs[c.input];
      if c.writer.Reading? && i.wlock then None
      else
        match Write(c, i.field, ch)
        case None => None
        case Some(c') =>
          var readers := if UsesInput(c'.writer) then i.readers + {id} else i.readers - {id};
          Some(s.(clients := s.clients[id := c'], inputs := s.inputs[c.input := i.(readers := readers)]))
  }

  // ---------- runs ----------

  datatype Event = OfEncoder(choice: Choice) | OfWriter(client: nat, choice: Choice)

  // A blocked step leaves the state as it is.
  function Next(s: State, ev: Event): State
    requires InRange(s)
  {
    var r := match ev case OfEncoder(ch) => EncoderStep(s, ch) case OfWriter(id, ch) => WriterStep(s, id, ch);
    if r.Some? then r.value else s
  }

  // The state after the events evs, in that order.
  function Exec(s: State, evs: seq<Event>): (r: State)
    requires InRange(s)
    ensures InRange(r)
    decreases |evs|
  {
    if evs == [] then s
    else
      NextInRange(s, evs[0]);
      Exec(Next(s, evs[0]), evs[1..])
  }

  // ---------- indices stay in range ----------

  lemma {:induction false} ServeGoesOn(pc: Pc, c: Client, p: Packet, input: nat, ch: Choice)
    requires Serves(pc)
    ensures var r := Serve(pc, c, p, input, ch);
      r.Some? ==> (r.value.pc.Fan? || Serves(r.value.pc) || r.value.pc.CleanLock?)
                  && ((r.value.client.writer == c.writer && r.value.client.input == c.input)
                      || r.value.client.input == input)
  {
  }

  lemma {:induction false} CleanGoesOn(pc: Pc, c: Client, next: Pc)
    requires Cleans(pc)
    ensures var r := Clean(pc, c, next);
      r.Some? ==> (r.value.pc == next || Cleans(r.value.pc))
                  && r.value.client.writer == c.writer && r.value.client.input == c.input
  {
  }

  lemma {:induction false} LoopInRange(s: State, ch: Choice)
    requires InRange(s) && !InRound(s.enc) && !Destroys(s.enc.pc)
    ensures LoopStep(s, ch).Some? ==> InRange(LoopStep(s, ch).value)
  {
    match s.enc.pc
    case Opening =>
    case ReadPacket =>
    case ShutNext =>
    case _ =>
  }

  lemma {:induction false} AcceptInRange(s: State, ch: Choice)
    requires InRange(s) && Accepts(s.enc.pc)
    ensures AcceptStep(s, ch).Some? ==> InRange(AcceptStep(s, ch).value)
  {
  }

  lemma {:induction false} ServeInRange(s: State, ch: Choice)
    requires InRange(s) && Serves(s.enc.pc)
    ensures ServeStep(s, ch).Some? ==> InRange(ServeStep(s, ch).value)
  {
    hide Serve;
    ServeGoesOn(s.enc.pc, s.clients[s.enc.cur], s.read - 1, s.enc.input.value, ch);
  }

  lemma {:induction false} CleanInRange(s: State)
    requires InRange(s) && Cleans(s.enc.pc)
    ensures CleanStep(s).Some? ==> InRange(CleanStep(s).value)
  {
    hide Clean;
    CleanGoesOn(s.enc.pc, s.clients[s.enc.cur], if s.enc.shut then ShutNext else Fan);
  }

  lemma {:induction false} FanInRange(s: State)
    requires InRange(s) && s.enc.pc.Fan?
    ensures FanStep(s).Some? ==> InRange(FanStep(s).value)
  {
  }

  lemma {:induction false} DestroyInRange(s: State)
    requires InRange(s) && Destroys(s.enc.pc)
    ensures DestroyStep(s).Some? ==> InRange(DestroyStep(s).value)
  {
  }

  lemma {:induction false} EncoderStepInRange(s: State, ch: Choice)
    requires InRange(s)
    ensures EncoderStep(s, ch).Some? ==> InRange(EncoderStep(s, ch).value)
  {
    hide InRange, CleanStep, ServeStep, FanStep, DestroyStep, AcceptStep, LoopStep;
    if Cleans(s.enc.pc) { CleanInRange(s); }
    else if Serves(s.enc.pc) { ServeInRange(s, ch); }
    else if s.enc.pc.Fan? { FanInRange(s); }
    else if Destroys(s.enc.pc) { DestroyInRange(s); }
    else if Accepts(s.enc.pc) { AcceptInRange(s, ch); }
    else { LoopInRange(s, ch); }
  }

  lemma {:induction false} WriterStepInRange(s: State, id: nat, ch: Choice)
    requires InRange(s)
    ensures WriterStep(s, id, ch).Some? ==> InRange(WriterStep(s, id, ch).value)
  {
    hide Write;
  }

  lemma {:induction false} NextInRange(s: State, ev: Event)
    requires InRange(s)
    ensures InRange(Next(s, ev))
  {
    hide EncoderStep, WriterStep, InRange;
    match ev
    case OfEncoder(ch) => EncoderStepInRange(s, ch);
    case OfWriter(id, ch) => WriterStepInRange(s, id, ch);
  }
}
