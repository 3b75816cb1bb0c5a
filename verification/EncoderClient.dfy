// What the protocol keeps about one client (videostreamer.go), given how far the encoder
// is with it, and that every step on that client keeps it.

module EncoderClient {

  import opened Wrappers
  import opened EncoderModel

  // How far the encoder is with a client.
  datatype View =
    | Idle          // in the list, has been offered every packet since it opened
    | Waiting       // in the list, not yet offered the packet of this round
    | At(pc: Pc)    // being worked on
    | Leaving       // to be cleaned up on the way out
    | Gone          // no longer referred to

  // ---------- sequences of packets ----------

  predicate Prefix(xs: seq<Packet>, ys: seq<Packet>) {
    |xs| <= |ys| && xs == ys[..|xs|]
  }

  // first, first + 1, first + 2, ...
  predicate Consecutive(xs: seq<Packet>, first: Packet) {
    forall k :: 0 <= k < |xs| ==> xs[k] == first + k
  }

  // ---------- the pieces ----------

  predicate EncoderLocks(v: View) {
    v.At? && (v.pc.Locked? || v.pc.OutRLock? || v.pc.OutOpen? || v.pc.OutDone? || v.pc.Unlock?
              || v.pc.CleanPipe? || v.pc.CleanOut? || v.pc.CleanOutNil? || v.pc.CleanUnlock?)
  }

  predicate WriterLocks(w: Writer) {
    w.Reading? || w.Writing? || w.Wrote? || w.Released? || w.Quit?
  }

  // At the start of cleanupClient the encoder may hold the lock already: it could not
  // open the output.
  predicate Locks(v: View, c: Client) {
    && (if v == At(CleanLock) then c.wlock ==> c.log.first.None? else c.wlock == EncoderLocks(v))
    && c.rlock == WriterLocks(c.writer) && !(c.wlock && c.rlock)
  }

  predicate Opens(v: View) {
    v.At? && (v.pc.OutRLock? || v.pc.OutOpen? || v.pc.OutDone?)
  }

  predicate NeedsOutput(v: View) {
    v.At? && (v.pc.Unlock? || v.pc.Clone? || v.pc.Send? || v.pc.SlowFree? || v.pc.CleanOutNil?)
  }

  predicate Streams(v: View) {
    v.Idle? || v.Waiting? || v.Leaving? || NeedsOutput(v)
    || (v.At? && (v.pc.Locked? || v.pc.CleanLock? || v.pc.CleanPipe? || v.pc.CleanOut?))
  }

  predicate Drains(v: View) {
    v.At? && (v.pc.Drain? || v.pc.DrainFree? || v.pc.DrainNil?)
  }

  // OutPipe has not been closed.
  predicate PipeOpen(v: View) {
    Opens(v) || (Streams(v) && !(v.At? && (v.pc.CleanOut? || v.pc.CleanOutNil?)))
  }

  // Never opened: as it arrived, but for an output just made.
  predicate Unopened(v: View, c: Client) {
    && !NeedsOutput(v) && !Drains(v)
    && !c.out.field && (c.out.live <==> v == At(OutDone(true)))
    && c.chan == NEW_CLIENT.chan && c.writer.NoWriter? && c.log == NEW_CLIENT.log
  }

  predicate Opened(v: View, c: Client) {
    && !Opens(v)
    && c.out.field == Streams(v) && c.out.live == (Streams(v) && v != At(CleanOutNil))
    && c.chan.made && !c.writer.NoWriter?
    && c.chan.closed == (Drains(v) || v.Gone?) && c.chan.field == !v.Gone?
    && (v.Gone? || v == At(DrainNil) ==> c.chan.queue == [])
  }

  predicate Shape(v: View, c: Client) {
    && c.out.pipe == PipeOpen(v) && |c.chan.queue| <= CHANNEL_SIZE
    && if c.log.first.None? then Unopened(v, c) else Opened(v, c)
  }

  // A received packet not written yet.
  function Pending(w: Writer): seq<Packet> {
    match w
    case Got(p) => [p]
    case Reading(p) => [p]
    case Writing(p) => [p]
    case Wrote(p, ok) => if ok then [] else [p]
    case Released(p, ok) => if ok then [] else [p]
    case _ => []
  }

  // What was written, what was received, what was enqueued.
  predicate Flow(open: bool, chan: Channel, w: Writer, enqueued: seq<Packet>, received: seq<Packet>,
      written: seq<Packet>) {
    && Prefix(written, enqueued)
    && (!chan.closed ==> enqueued == received + chan.queue)
    && (open ==>
          if w.Quit? || w.Done? then Prefix(written, received) else received == written + Pending(w))
  }

  // The clones are the packets from the first on, the enqueued ones all or all but the last few.
  predicate Segment(v: View, read: nat, first: Option<Packet>, cloned: seq<Packet>, enqueued: seq<Packet>) {
    first.Some? ==>
      && Consecutive(cloned, first.value) && Prefix(enqueued, cloned)
      && InStep(v, read, first.value + |cloned|, cloned, enqueued)
  }

  // How the clones stand to the packets read; next is the packet to clone next.
  predicate InStep(v: View, read: nat, next: nat, cloned: seq<Packet>, enqueued: seq<Packet>) {
    && next <= read
    && (v.Idle? ==> enqueued == cloned && next == read)
    && (v.Waiting? || (v.At? && (v.pc.Locked? || v.pc.Unlock? || v.pc.Clone?))
        ==> enqueued == cloned && next + 1 == read)
    && (v.At? && v.pc.Send? ==> next == read && v.pc.p + 1 == read && cloned == enqueued + [v.pc.p])
  }

  function EncoderHand(v: View): multiset<Packet> {
    if v.At? && v.pc.Send? then multiset{v.pc.p}
    else if v.At? && v.pc.SlowFree? then multiset{v.pc.p}
    else if v.At? && v.pc.DrainFree? then multiset{v.pc.p}
    else multiset{}
  }

  function WriterHand(w: Writer): multiset<Packet> {
    match w
    case Got(p) => multiset{p}
    case Reading(p) => multiset{p}
    case Writing(p) => multiset{p}
    case Wrote(p, ok) => multiset{p}
    case Released(p, ok) => multiset{p}
    case Freeing(p) => multiset{p}
    case _ => multiset{}
  }

  // Each clone is in the channel, in a hand, or freed.
  predicate Conserved(cloned: seq<Packet>, queue: seq<Packet>, freed: multiset<Packet>, hands: multiset<Packet>) {
    multiset(cloned) == multiset(queue) + freed + hands
  }

  predicate ClientInv(v: View, read: nat, c: Client) {
    && Locks(v, c) && Shape(v, c)
    && Flow(c.out.field, c.chan, c.writer, c.log.enqueued, c.log.received, c.log.written)
    && Segment(v, read, c.log.first, c.log.cloned, c.log.enqueued)
    && Conserved(c.log.cloned, c.chan.queue, c.log.freed, WriterHand(c.writer) + EncoderHand(v))
  }

  // ---------- the encoder takes a client up ----------

  lemma {:induction false} NewClient(read: nat)
    ensures ClientInv(Idle, read, NEW_CLIENT)
  {
  }

  lemma {:induction false} RoundBegins(read: nat, c: Client)
    requires ClientInv(Idle, read, c)
    ensures ClientInv(Waiting, read + 1, c)
  {
    hide Flow, Conserved;
  }

  lemma {:induction false} GoneStays(read: nat, c: Client)
    requires ClientInv(Gone, read, c)
    ensures ClientInv(Gone, read + 1, c)
  {
    hide Flow, Conserved;
  }

  lemma {:induction false} TurnBegins(read: nat, c: Client)
    requires ClientInv(Waiting, read, c) && !c.rlock
    ensures ClientInv(At(Locked), read, c.(wlock := true))
  {
    hide Flow, Conserved;
  }

  lemma {:induction false} ShutBegins(read: nat, c: Client)
    requires ClientInv(Idle, read, c)
    ensures ClientInv(Leaving, read, c)
  {
    hide Flow, Conserved;
  }

  lemma {:induction false} CleanupBegins(read: nat, c: Client)
    requires ClientInv(Leaving, read, c)
    ensures ClientInv(At(CleanLock), read, c)
  {
    hide Flow, Conserved;
  }

  // ---------- the encoder works on a client ----------

  function Served(pc: Pc): View {
    if pc.Fan? then Idle else At(pc)
  }

  lemma {:induction false} ServeKeeps(pc: Pc, c: Client, p: Packet, input: nat, ch: Choice)
    requires Serves(pc) && ClientInv(At(pc), p + 1, c)
    ensures var r := Serve(pc, c, p, input, ch);
      r.Some? ==> ClientInv(Served(r.value.pc), p + 1, r.value.client)
  {
    hide ClientInv;
    match pc
    case Locked => LockedKeeps(c, p);
    case OutRLock => OutRLockKeeps(c, p);
    case OutOpen => OutOpenKeeps(c, p);
    case OutDone(ok) => if ok { OutDoneKeeps(c, p, input); } else { OpenFailedKeeps(c, p); }
    case Unlock => UnlockKeeps(c, p);
    case Clone => CloneKeeps(c, p); CloneFailedKeeps(c, p);
    case Send(q) => if |c.chan.queue| < CHANNEL_SIZE { SendKeeps(c, p, q); } else { TooSlowKeeps(c, p, q); }
    case SlowFree(q) => SlowFreeKeeps(c, p, q);
  }

  lemma {:induction false} LockedKeeps(c: Client, p: Packet)
    requires ClientInv(At(Locked), p + 1, c)
    ensures ClientInv(At(if c.out.field then Unlock else OutRLock), p + 1, c)
  {
    hide Flow, Conserved;
  }

  lemma {:induction false} OutRLockKeeps(c: Client, p: Packet)
    requires ClientInv(At(OutRLock), p + 1, c)
    ensures ClientInv(At(OutOpen), p + 1, c)
  {
    hide Flow, Conserved;
  }

  lemma {:induction false} OutOpenKeeps(c: Client, p: Packet)
    requires ClientInv(At(OutOpen), p + 1, c)
    ensures ClientInv(At(OutDone(true)), p + 1, c.(out := c.out.(live := true)))
    ensures ClientInv(At(OutDone(false)), p + 1, c)
  {
    hide Flow, Conserved;
  }

  lemma {:induction false} OutDoneKeeps(c: Client, p: Packet, input: nat)
    requires ClientInv(At(OutDone(true)), p + 1, c)
    ensures ClientInv(At(Unlock), p + 1,
                      c.(out := c.out.(field := true), chan := Channel(true, true, c.chan.closed, c.chan.queue),
                         writer := Start, input := input, log := c.log.(first := Some(p))))
  {
  }

  lemma {:induction false} OpenFailedKeeps(c: Client, p: Packet)
    requires ClientInv(At(OutDone(false)), p + 1, c)
    ensures ClientInv(At(CleanLock), p + 1, c)
  {
    hide Flow, Conserved;
  }

  lemma {:induction false} UnlockKeeps(c: Client, p: Packet)
    requires ClientInv(At(Unlock), p + 1, c)
    ensures ClientInv(At(Clone), p + 1, c.(wlock := false))
  {
    hide Flow, Conserved;
  }

  lemma {:induction false} CloneSegment(p: Packet, first: Option<Packet>, cloned: seq<Packet>, enqueued: seq<Packet>)
    requires Segment(At(Clone), p + 1, first, cloned, enqueued)
    ensures Segment(At(Send(p)), p + 1, first, cloned + [p], enqueued)
  {
  }

  lemma {:induction false} CloneConserved(cloned: seq<Packet>, queue: seq<Packet>, freed: multiset<Packet>,
                                          hand: multiset<Packet>, p: Packet)
    requires Conserved(cloned, queue, freed, hand + multiset{})
    ensures Conserved(cloned + [p], queue, freed, hand + multiset{p})
  {
  }

  lemma {:induction false} CloneKeeps(c: Client, p: Packet)
    requires ClientInv(At(Clone), p + 1, c)
    ensures ClientInv(At(Send(p)), p + 1, c.(log := c.log.(cloned := c.log.cloned + [p])))
  {
    hide Flow, Segment, Conserved, Consecutive, InStep;
    CloneSegment(p, c.log.first, c.log.cloned, c.log.enqueued);
    CloneConserved(c.log.cloned, c.chan.queue, c.log.freed, WriterHand(c.writer), p);
  }

  lemma {:induction false} CloneFailedKeeps(c: Client, p: Packet)
    requires ClientInv(At(Clone), p + 1, c)
    ensures ClientInv(At(CleanLock), p + 1, c)
  {
    hide Flow, Conserved;
  }

  lemma {:induction false} SendFlow(open: bool, chan: Channel, w: Writer, enqueued: seq<Packet>, received: seq<Packet>,
                                    written: seq<Packet>, p: Packet)
    requires Flow(open, chan, w, enqueued, received, written)
    ensures Flow(open, chan.(queue := chan.queue + [p]), w, enqueued + [p], received, written)
  {
  }

  lemma {:induction false} SendSegment(p: Packet, q: Packet, first: Option<Packet>, cloned: seq<Packet>,
                                       enqueued: seq<Packet>)
    requires Segment(At(Send(q)), p + 1, first, cloned, enqueued)
    ensures Segment(Idle, p + 1, first, cloned, enqueued + [q])
  {
  }

  lemma {:induction false} SendConserved(cloned: seq<Packet>, queue: seq<Packet>, freed: multiset<Packet>,
                                         hand: multiset<Packet>, p: Packet)
    requires Conserved(cloned, queue, freed, hand + multiset{p})
    ensures Conserved(cloned, queue + [p], freed, hand + multiset{})
  {
  }

  lemma {:induction false} SendKeeps(c: Client, p: Packet, q: Packet)
    requires ClientInv(At(Send(q)), p + 1, c) && |c.chan.queue| < CHANNEL_SIZE
    ensures ClientInv(Idle, p + 1, Pushed(c, q))
  {
    hide Flow, Segment, Conserved, Consecutive, InStep;
    SendFlow(c.out.field, c.chan, c.writer, c.log.enqueued, c.log.received, c.log.written, q);
    SendSegment(p, q, c.log.first, c.log.cloned, c.log.enqueued);
    SendConserved(c.log.cloned, c.chan.queue, c.log.freed, WriterHand(c.writer), q);
  }

  lemma {:induction false} TooSlowKeeps(c: Client, p: Packet, q: Packet)
    requires ClientInv(At(Send(q)), p + 1, c)
    ensures ClientInv(At(SlowFree(q)), p + 1, c)
  {
    hide Flow, Conserved;
  }

  lemma {:induction false} SlowFreeKeeps(c: Client, p: Packet, q: Packet)
    requires ClientInv(At(SlowFree(q)), p + 1, c)
    ensures ClientInv(At(CleanLock), p + 1, Freed(c, q))
  {
    hide Flow;
  }

  // ---------- the encoder cleans a client up ----------

  function Cleaned(pc: Pc): View {
    if Cleans(pc) then At(pc) else Gone
  }

  lemma {:induction false} CleanKeeps(pc: Pc, c: Client, next: Pc, read: nat)
    requires Cleans(pc) && !Cleans(next) && ClientInv(At(pc), read, c)
    ensures var r := Clean(pc, c, next);
      r.Some? ==> ClientInv(Cleaned(r.value.pc), read, r.value.client)
  {
    hide ClientInv;
    match pc
    case CleanLock => if !c.wlock && !c.rlock { CleanLockKeeps(c, read); }
    case CleanPipe => CleanPipeKeeps(c, read);
    case CleanOut => if c.out.field { CleanOutKeeps(c, read); } else { CleanNoOutKeeps(c, read); }
    case CleanOutNil => CleanOutNilKeeps(c, read);
    case CleanUnlock => CleanUnlockKeeps(c, read);
    case CleanClose => if c.chan.field { CleanCloseKeeps(c, read); } else { CleanNoChanKeeps(c, read); }
    case Drain => if c.chan.queue == [] { DrainEndKeeps(c, read); } else { DrainKeeps(c, read); }
    case DrainFree(q) => DrainFreeKeeps(c, q, read);
    case DrainNil => DrainNilKeeps(c, read);
  }

  lemma {:induction false} CleanLockKeeps(c: Client, read: nat)
    requires ClientInv(At(CleanLock), read, c) && !c.wlock && !c.rlock
    ensures ClientInv(At(CleanPipe), read, c.(wlock := true))
  {
    hide Flow, Conserved;
  }

  lemma {:induction false} CleanPipeKeeps(c: Client, read: nat)
    requires ClientInv(At(CleanPipe), read, c)
    ensures ClientInv(At(CleanOut), read, c.(out := c.out.(pipe := false)))
  {
    hide Flow, Conserved;
  }

  lemma {:induction false} CleanOutKeeps(c: Client, read: nat)
    requires ClientInv(At(CleanOut), read, c) && c.out.field
    ensures ClientInv(At(CleanOutNil), read, c.(out := c.out.(live := false)))
  {
    hide Flow, Conserved;
  }

  lemma {:induction false} CleanNoOutKeeps(c: Client, read: nat)
    requires ClientInv(At(CleanOut), read, c) && !c.out.field
    ensures ClientInv(At(CleanUnlock), read, c)
  {
    hide Flow, Conserved;
  }

  lemma {:induction false} CleanOutNilKeeps(c: Client, read: nat)
    requires ClientInv(At(CleanOutNil), read, c)
    ensures ClientInv(At(CleanUnlock), read, c.(out := c.out.(field := false)))
  {
    hide Conserved;
  }

  lemma {:induction false} CleanUnlockKeeps(c: Client, read: nat)
    requires ClientInv(At(CleanUnlock), read, c)
    ensures ClientInv(At(CleanClose), read, c.(wlock := false))
  {
    hide Flow, Conserved;
  }

  lemma {:induction false} CleanCloseKeeps(c: Client, read: nat)
    requires ClientInv(At(CleanClose), read, c) && c.chan.field
    ensures ClientInv(At(Drain), read, c.(chan := c.chan.(closed := true)))
  {
    hide Conserved;
  }

  lemma {:induction false} CleanNoChanKeeps(c: Client, read: nat)
    requires ClientInv(At(CleanClose), read, c) && !c.chan.field
    ensures ClientInv(Gone, read, c)
  {
    hide Flow, Conserved;
  }

  lemma {:induction false} DrainEndKeeps(c: Client, read: nat)
    requires ClientInv(At(Drain), read, c) && c.chan.queue == []
    ensures ClientInv(At(DrainNil), read, c)
  {
    hide Flow, Conserved;
  }

  lemma {:induction false} DrainKeeps(c: Client, read: nat)
    requires ClientInv(At(Drain), read, c) && c.chan.queue != []
    ensures ClientInv(At(DrainFree(c.chan.queue[0])), read, Popped(c))
  {
    assert c.chan.queue == [c.chan.queue[0]] + c.chan.queue[1..];
  }

  lemma {:induction false} DrainFreeKeeps(c: Client, q: Packet, read: nat)
    requires ClientInv(At(DrainFree(q)), read, c)
    ensures ClientInv(At(Drain), read, Freed(c, q))
  {
  }

  lemma {:induction false} DrainNilKeeps(c: Client, read: nat)
    requires ClientInv(At(DrainNil), read, c)
    ensures ClientInv(Gone, read, c.(chan := c.chan.(field := false)))
  {
    hide Conserved;
  }

  // ---------- the writer works ----------

  lemma {:induction false} WriteKeeps(v: View, c: Client, read: nat, field: bool, ch: Choice)
    requires ClientInv(v, read, c)
    ensures Write(c, field, ch).Some? ==> ClientInv(v, read, Write(c, field, ch).value)
  {
    hide ClientInv;
    match c.writer
    case Start => StartKeeps(v, c, read);
    case Recv => if c.chan.queue != [] { RecvKeeps(v, c, read); } else if c.chan.closed { EndKeeps(v, c, read); }
    case Got(p) => if !c.wlock { GotKeeps(v, c, read); }
    case Reading(p) => ReadingKeeps(v, c, read);
    case Writing(p) => if c.out.field { WritingKeeps(v, c, read); } WriteFailedKeeps(v, c, read);
    case Wrote(p, ok) => WroteKeeps(v, c, read);
    case Released(p, ok) => if ok { ReleasedKeeps(v, c, read); } else { QuittingKeeps(v, c, read); }
    case Quit => QuitKeeps(v, c, read);
    case Freeing(p) => FreeingKeeps(v, c, read);
    case _ =>
  }

  lemma {:induction false} StartKeeps(v: View, c: Client, read: nat)
    requires ClientInv(v, read, c) && c.writer.Start?
    ensures ClientInv(v, read, c.(writer := if c.chan.field then Recv else BlockedOnNil))
  {
    hide Segment, Conserved;
  }

  lemma {:induction false} RecvFlow(open: bool, chan: Channel, enqueued: seq<Packet>, received: seq<Packet>,
                                    written: seq<Packet>)
    requires Flow(open, chan, Recv, enqueued, received, written) && chan.queue != []
    ensures Flow(open, chan.(queue := chan.queue[1..]), Got(chan.queue[0]), enqueued, received + [chan.queue[0]],
            written)
  {
  }

  lemma {:induction false} RecvConserved(cloned: seq<Packet>, queue: seq<Packet>, freed: multiset<Packet>,
                                         hand: multiset<Packet>)
    requires queue != [] && Conserved(cloned, queue, freed, multiset{} + hand)
    ensures Conserved(cloned, queue[1..], freed, multiset{queue[0]} + hand)
  {
    assert queue == [queue[0]] + queue[1..];
  }

  lemma {:induction false} RecvKeeps(v: View, c: Client, read: nat)
    requires ClientInv(v, read, c) && c.writer.Recv? && c.chan.queue != []
    ensures ClientInv(v, read, Received(c))
  {
    hide Flow, Segment, Conserved;
    var q := c.chan.queue;
    RecvFlow(c.out.field, c.chan, c.log.enqueued, c.log.received, c.log.written);
    RecvConserved(c.log.cloned, q, c.log.freed, EncoderHand(v));
  }

  lemma {:induction false} EndKeeps(v: View, c: Client, read: nat)
    requires ClientInv(v, read, c) && c.writer.Recv? && c.chan.closed
    ensures ClientInv(v, read, c.(writer := Done))
  {
    hide Segment, Conserved;
  }

  lemma {:induction false} GotKeeps(v: View, c: Client, read: nat)
    requires ClientInv(v, read, c) && c.writer.Got? && !c.wlock
    ensures ClientInv(v, read, c.(rlock := true, writer := Reading(c.writer.p)))
  {
    hide Segment, Conserved;
  }

  lemma {:induction false} ReadingKeeps(v: View, c: Client, read: nat)
    requires ClientInv(v, read, c) && c.writer.Reading?
    ensures ClientInv(v, read, c.(writer := Writing(c.writer.p)))
  {
    hide Segment, Conserved;
  }

  lemma {:induction false} WritingKeeps(v: View, c: Client, read: nat)
    requires ClientInv(v, read, c) && c.writer.Writing? && c.out.field
    ensures ClientInv(v, read, Written(c, c.writer.p))
  {
    hide Conserved, Segment;
  }

  lemma {:induction false} WriteFailedKeeps(v: View, c: Client, read: nat)
    requires ClientInv(v, read, c) && c.writer.Writing?
    ensures ClientInv(v, read, c.(writer := Wrote(c.writer.p, false)))
  {
    hide Segment, Conserved;
  }

  lemma {:induction false} WroteKeeps(v: View, c: Client, read: nat)
    requires ClientInv(v, read, c) && c.writer.Wrote?
    ensures ClientInv(v, read, c.(writer := Released(c.writer.p, c.writer.ok)))
  {
    hide Segment, Conserved;
  }

  lemma {:induction false} ReleasedKeeps(v: View, c: Client, read: nat)
    requires ClientInv(v, read, c) && c.writer.Released? && c.writer.ok
    ensures ClientInv(v, read, c.(rlock := false, writer := Freeing(c.writer.p)))
  {
    hide Segment, Conserved;
  }

  lemma {:induction false} QuittingKeeps(v: View, c: Client, read: nat)
    requires ClientInv(v, read, c) && c.writer.Released? && !c.writer.ok
    ensures ClientInv(v, read, Freed(c, c.writer.p).(writer := Quit))
  {
    hide Segment;
  }

  lemma {:induction false} QuitKeeps(v: View, c: Client, read: nat)
    requires ClientInv(v, read, c) && c.writer.Quit?
    ensures ClientInv(v, read, c.(rlock := false, writer := Done))
  {
    hide Segment, Conserved;
  }

  lemma {:induction false} FreeingKeeps(v: View, c: Client, read: nat)
    requires ClientInv(v, read, c) && c.writer.Freeing?
    ensures ClientInv(v, read, Freed(c, c.writer.p).(writer := Recv))
  {
    hide Segment;
  }
}
