// The intrusive doubly linked registries of the alert server (streams.c, clients.c) and
// the rule they serve: at most one recorder per camera address.

module Registry {

  // ---------- the rule, on values ----------

  // A stream: its camera, its last alert, its recorder thread.
  datatype Entry = Entry(ip: int, updated: int, thread: nat)

  // The first stream with property p, or the length.
  function First(l: seq<Entry>, p: Entry -> bool): (k: nat)
    ensures k <= |l| && (k < |l| ==> p(l[k]))
    ensures forall i :: 0 <= i < k ==> !p(l[i])
  {
    if l == [] || p(l[0]) then 0 else 1 + First(l[1..], p)
  }

  // The first stream of a camera, or the length.
  function Find(l: seq<Entry>, ip: int): (k: nat)
    ensures k <= |l| && (k < |l| ==> l[k].ip == ip)
    ensures forall i :: 0 <= i < k ==> l[i].ip != ip
  {
    First(l, (e: Entry) => e.ip == ip)
  }

  lemma {:induction false} FindIs(l: seq<Entry>, ip: int, k: nat)
    requires k <= |l| && (k < |l| ==> l[k].ip == ip) && forall i :: 0 <= i < k ==> l[i].ip != ip
    ensures Find(l, ip) == k
  {
  }

  // One process_stream call: `memory` and `started` are what malloc and
  // pthread_create answer.
  function AfterAlert(l: seq<Entry>, ip: int, now: int, thread: nat, memory: bool, started: bool): seq<Entry> {
    var k := Find(l, ip);
    if k < |l| then l[k := l[k].(updated := now)]
    else if memory && started then [Entry(ip, now, thread)] + l
    else l
  }

  function Without(l: seq<Entry>, k: nat): seq<Entry>
    requires k < |l|
  {
    l[..k] + l[k + 1..]
  }

  // ---------- every interleaving ----------

  // The list, the recorder threads alive, and the thread ids handed out so far.  Both
  // process_stream and a recorder's exit run under streams_mutex, so an interleaving is
  // a sequence of these.
  datatype World = World(list: seq<Entry>, live: set<nat>, ids: nat)

  datatype Event =
    | Alert(ip: int, now: int, memory: bool, started: bool)
    | Exit(thread: nat)

  // The stream a recorder thread works for, or the length.
  function ThreadAt(l: seq<Entry>, thread: nat): (k: nat)
    ensures k <= |l| && (k < |l| ==> l[k].thread == thread)
    ensures forall i :: 0 <= i < k ==> l[i].thread != thread
  {
    First(l, (e: Entry) => e.thread == thread)
  }

  function Next(w: World, e: Event): World {
    match e
    case Alert(ip, now, memory, started) =>
      var l := AfterAlert(w.list, ip, now, w.ids, memory, started);
      if |l| > |w.list| then World(l, w.live + {w.ids}, w.ids + 1) else w.(list := l)
    case Exit(thread) =>
      // only a live recorder can exit, and it frees its own stream
      var k := ThreadAt(w.list, thread);
      if thread in w.live && k < |w.list| then w.(list := Without(w.list, k), live := w.live - {thread}) else w
  }

  function Worlds(w: World, events: seq<Event>): World
    decreases |events|
  {
    if events == [] then w else Worlds(Next(w, events[0]), events[1..])
  }

  // One stream per camera and one per thread.
  ghost predicate Distinct(l: seq<Entry>) {
    forall i, j :: 0 <= i < j < |l| ==> l[i].ip != l[j].ip && l[i].thread != l[j].thread
  }

  function Threads(l: seq<Entry>): set<nat> {
    set i | 0 <= i < |l| :: l[i].thread
  }

  // Streams and live recorders are in bijection, and a camera has at most one.
  ghost predicate OneRecorderEach(w: World) {
    Distinct(w.list) && Threads(w.list) == w.live && forall t :: t in w.live ==> t < w.ids
  }

  lemma {:induction false} UpdateKeeps(l: seq<Entry>, k: nat, now: int)
    requires Distinct(l) && k < |l|
    ensures Distinct(l[k := l[k].(updated := now)]) && Threads(l[k := l[k].(updated := now)]) == Threads(l)
  {
    var l' := l[k := l[k].(updated := now)];
    forall i | 0 <= i < |l| ensures l'[i].ip == l[i].ip && l'[i].thread == l[i].thread {
    }
    assert forall i :: 0 <= i < |l| ==> l[i].thread in Threads(l) && l'[i].thread in Threads(l');
  }

  lemma {:induction false} AddKeeps(l: seq<Entry>, e: Entry)
    requires Distinct(l) && e.thread !in Threads(l) && forall i :: 0 <= i < |l| ==> l[i].ip != e.ip
    ensures Distinct([e] + l) && Threads([e] + l) == Threads(l) + {e.thread}
  {
    var l' := [e] + l;
    assert forall i :: 0 <= i < |l| ==> l'[i + 1] == l[i];
    assert l'[0] == e;
    forall t | t in Threads(l) ensures t in Threads(l') {
      var i :| 0 <= i < |l| && l[i].thread == t;
      assert l'[i + 1].thread == t;
    }
  }

  lemma {:induction false} WithoutAt(l: seq<Entry>, k: nat)
    requires k < |l|
    ensures forall i :: 0 <= i < |l| - 1 ==> Without(l, k)[i] == l[if i < k then i else i + 1]
    ensures forall i :: 0 <= i < |l| && i != k ==> Without(l, k)[if i < k then i else i - 1] == l[i]
  {
    var l' := Without(l, k);
    forall i | 0 <= i < |l'| ensures l'[i] == l[if i < k then i else i + 1] {
    }
    forall i | 0 <= i < |l| && i != k ensures l'[if i < k then i else i - 1] == l[i] {
    }
  }

  lemma {:induction false} WithoutDistinct(l: seq<Entry>, k: nat)
    requires Distinct(l) && k < |l|
    ensures Distinct(Without(l, k))
  {
    var l' := Without(l, k);
    WithoutAt(l, k);
    hide Without;
    forall i, j | 0 <= i < j < |l'| ensures l'[i].ip != l'[j].ip && l'[i].thread != l'[j].thread {
      assert l'[i] == l[if i < k then i else i + 1] && l'[j] == l[if j < k then j else j + 1];
    }
  }

  lemma {:induction false} HasThread(l: seq<Entry>, i: nat)
    requires i < |l|
    ensures l[i].thread in Threads(l)
  {
  }

  lemma {:induction false} ThreadIndex(l: seq<Entry>, t: nat) returns (i: nat)
    requires t in Threads(l)
    ensures i < |l| && l[i].thread == t
  {
    i :| i < |l| && l[i].thread == t;
  }

  lemma {:induction false} WithoutThread(l: seq<Entry>, k: nat, t: nat)
    requires Distinct(l) && k < |l|
    ensures t in Threads(Without(l, k)) <==> t in Threads(l) && t != l[k].thread
  {
    hide Threads;
    var l' := Without(l, k);
    WithoutAt(l, k);
    hide Without;
    if t in Threads(l') {
      var i := ThreadIndex(l', t);
      var j := if i < k then i else i + 1;
      assert l'[i] == l[j];
      HasThread(l, j);
      assert l[j].thread != l[k].thread by { if j < k { assert l[j].thread != l[k].thread; } }
    }
    if t in Threads(l) && t != l[k].thread {
      var i := ThreadIndex(l, t);
      assert l'[if i < k then i else i - 1] == l[i];
      HasThread(l', if i < k then i else i - 1);
    }
  }

  lemma {:induction false} WithoutKeeps(l: seq<Entry>, k: nat)
    requires Distinct(l) && k < |l|
    ensures Distinct(Without(l, k)) && Threads(Without(l, k)) == Threads(l) - {l[k].thread}
  {
    hide Threads, Without;
    WithoutDistinct(l, k);
    forall t ensures t in Threads(Without(l, k)) <==> t in Threads(l) && t != l[k].thread { WithoutThread(l, k, t); }
  }

  lemma {:induction false} AlertKeepsOne(w: World, e: Event)
    requires OneRecorderEach(w) && e.Alert?
    ensures OneRecorderEach(Next(w, e))
  {
    var k := Find(w.list, e.ip);
    hide Find, Distinct, Threads;
    if k < |w.list| {
      UpdateKeeps(w.list, k, e.now);
    } else if e.memory && e.started {
      assert w.ids !in Threads(w.list);
      AddKeeps(w.list, Entry(e.ip, e.now, w.ids));
    }
  }

  lemma {:induction false} LiveHasStream(l: seq<Entry>, thread: nat)
    requires thread in Threads(l)
    ensures ThreadAt(l, thread) < |l|
  {
  }

  lemma {:induction false} ExitKeepsOne(w: World, e: Event)
    requires OneRecorderEach(w) && e.Exit?
    ensures OneRecorderEach(Next(w, e))
    ensures e.thread in w.live ==> |Next(w, e).list| == |w.list| - 1
  {
    hide ThreadAt, Distinct, Threads;
    if e.thread in w.live {
      LiveHasStream(w.list, e.thread);
      WithoutKeeps(w.list, ThreadAt(w.list, e.thread));
    }
  }

  // Under every interleaving of alerts and recorder exits, from an empty registry.
  lemma {:induction false} AlwaysOneRecorderEach(w: World, events: seq<Event>)
    requires OneRecorderEach(w)
    ensures OneRecorderEach(Worlds(w, events))
    decreases |events|
  {
    if events != [] {
      if events[0].Alert? { AlertKeepsOne(w, events[0]); } else { ExitKeepsOne(w, events[0]); }
      AlwaysOneRecorderEach(Next(w, events[0]), events[1..]);
    }
  }

  // An alert that finds memory and a thread leaves its camera with exactly one stream,
  // stamped with the time of the alert; the other cameras keep theirs.
  lemma {:induction false} AlertServed(w: World, e: Event)
    requires OneRecorderEach(w) && e.Alert? && e.memory && e.started
    ensures var l := Next(w, e).list;
            && (exists i :: 0 <= i < |l| && l[i].ip == e.ip && l[i].updated == e.now)
            && (forall i :: 0 <= i < |w.list| && w.list[i].ip != e.ip ==> w.list[i] in l)
  {
    var l, k := Next(w, e).list, Find(w.list, e.ip);
    forall i | 0 <= i < |w.list| && w.list[i].ip != e.ip ensures w.list[i] in l {
      assert w.list[i] == if k < |w.list| then l[i] else l[i + 1];
    }
    assert l[if k < |w.list| then k else 0].ip == e.ip;
  }

  // Exactly: the camera's stream gets the time of the alert and nothing else changes; or
  // there is none, and one is put first if there is memory and a thread.
  lemma {:induction false} AlertExactly(l: seq<Entry>, ip: int, now: int, thread: nat, memory: bool, started: bool)
    requires Distinct(l)
    ensures var l' := AfterAlert(l, ip, now, thread, memory, started);
      if exists i :: 0 <= i < |l| && l[i].ip == ip then
        && |l'| == |l|
        && forall i :: 0 <= i < |l| ==> l'[i] == if l[i].ip == ip then Entry(ip, now, l[i].thread) else l[i]
      else l' == if memory && started then [Entry(ip, now, thread)] + l else l
  {
    hide First;
  }

  // Exactly: the list without the stream of that recorder, the rest in its order.
  lemma {:induction false} ExitExactly(w: World, thread: nat)
    requires OneRecorderEach(w)
    ensures var w' := Next(w, Exit(thread));
      if thread in w.live then
        exists k :: 0 <= k < |w.list| && w.list[k].thread == thread && w'.list == w.list[..k] + w.list[k + 1..]
      else w' == w
  {
    hide First, Distinct;
    if thread in w.live {
      LiveHasStream(w.list, thread);
      var k := ThreadAt(w.list, thread);
      assert w.list[k].thread == thread;
    }
  }

  // ---------- the lists in memory ----------

  class Stream {
    var ip: int
    var updated: int
    var thread: nat
    var prev: Stream?
    var next: Stream?

    // malloc and memset
    constructor ()
      ensures prev == null && next == null
    {
      ip, updated, thread, prev, next := 0, 0, 0, null, null;
    }

    ghost function AsEntry(): Entry
      reads this
    {
      Entry(ip, updated, thread)
    }
  }

  class Streams {
    var head: Stream?
    ghost var nodes: seq<Stream>

    ghost predicate Valid()
      reads this, nodes
    {
      && (forall i, j :: 0 <= i < j < |nodes| ==> nodes[i] != nodes[j])
      && head == (if nodes == [] then null else nodes[0])
      && (forall i {:trigger nodes[i].prev} :: 0 <= i < |nodes| ==>
            nodes[i].prev == if i == 0 then null else nodes[i - 1])
      && (forall i {:trigger nodes[i].next} :: 0 <= i < |nodes| ==>
            nodes[i].next == if i == |nodes| - 1 then null else nodes[i + 1])
    }

    ghost function Entries(): (l: seq<Entry>)
      reads this, nodes
      ensures |l| == |nodes| && forall i :: 0 <= i < |nodes| ==> l[i] == nodes[i].AsEntry()
    {
      var ns := nodes;
      seq(|ns|, i requires 0 <= i < |ns| reads ns => ns[i].AsEntry())
    }

    constructor ()
      ensures Valid() && nodes == []
    {
      head, nodes := null, [];
    }

    // stream_insert_first, client_insert_first: the new node comes zeroed.
    method InsertFirst(stream: Stream)
      requires Valid() && stream !in nodes && stream.prev == null
      modifies this, stream`next, nodes`prev
      ensures Valid() && nodes == [stream] + old(nodes)
    {
      if head != null { head.prev := stream; }
      stream.next := head;
      head := stream;
      nodes := [stream] + nodes;
    }

    // stream_remove, client_remove
    method Remove(stream: Stream, ghost k: nat)
      requires Valid() && k < |nodes| && nodes[k] == stream
      modifies this, nodes`prev, nodes`next
      ensures Valid() && nodes == old(nodes)[..k] + old(nodes)[k + 1..]
    {
      assert nodes[k].prev == stream.prev && nodes[k].next == stream.next;
      if stream.prev != null {
        stream.prev.next := stream.next;
      } else {
        head := stream.next;
      }
      if stream.next != null { stream.next.prev := stream.prev; }
      nodes := nodes[..k] + nodes[k + 1..];
    }

    // The search loop of process_stream.
    method Seek(ip: int) returns (stream: Stream?, ghost k: nat)
      requires Valid()
      ensures k == Find(Entries(), ip) && stream == if k < |nodes| then nodes[k] else null
    {
      stream, k := head, 0;
      while stream != null && stream.ip != ip
        invariant 0 <= k <= |nodes|
        invariant stream == if k < |nodes| then nodes[k] else null
        invariant forall i :: 0 <= i < k ==> nodes[i].ip != ip
        decreases |nodes| - k
      {
        assert nodes[k].next == stream.next;
        stream := stream.next;
        k := k + 1;
      }
      FindIs(Entries(), ip, k);
    }

    // The other half of it: a new stream, taken out again if its thread does not start.
    method Add(ip: int, now: int, thread: nat, started: bool)
      requires Valid()
      modifies this, nodes`prev, nodes`next
      ensures Valid()
      ensures started ==> |nodes| == |old(nodes)| + 1 && fresh(nodes[0]) && nodes[1..] == old(nodes)
                          && nodes[0].AsEntry() == Entry(ip, now, thread)
      ensures !started ==> nodes == old(nodes)
    {
      var stream := new Stream();
      stream.ip := ip;
      stream.updated := now;
      InsertFirst(stream);
      stream.thread := thread;
      if !started { Remove(stream, 0); }
    }

    // stream->updated = time(NULL)
    method Touch(stream: Stream, now: int, ghost k: nat)
      requires Valid() && k < |nodes| && nodes[k] == stream
      modifies stream`updated
      ensures Valid() && Entries() == old(Entries())[k := old(Entries())[k].(updated := now)]
    {
      ghost var l := Entries();
      stream.updated := now;
      forall i | 0 <= i < |nodes| ensures Entries()[i] == if i == k then l[k].(updated := now) else l[i] {
        assert nodes[i] == stream ==> i == k;
      }
    }

    // process_stream, a critical section of streams_mutex.
    method ProcessStream(ip: int, now: int, thread: nat, memory: bool, started: bool)
      requires Valid()
      modifies this, nodes
      ensures Valid()
      ensures Entries() == AfterAlert(old(Entries()), ip, now, thread, memory, started)
    {
      hide Find, First;
      ghost var l := Entries();
      var stream, k := Seek(ip);
      if stream != null {
        Touch(stream, now, k);
      } else if memory {
        Add(ip, now, thread, started);
        assert Entries() == if started then [Entry(ip, now, thread)] + l else l;
      }
    }

    // free_stream at the end of stream_thread, a critical section of streams_mutex.
    method FreeStream(stream: Stream, ghost k: nat)
      requires Valid() && k < |nodes| && nodes[k] == stream
      modifies this, nodes`prev, nodes`next
      ensures Valid() && Entries() == Without(old(Entries()), k)
      ensures nodes == old(nodes)[..k] + old(nodes)[k + 1..]
    {
      Remove(stream, k);
    }
  }
}
