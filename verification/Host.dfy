/**
 * The host side of one plugin connection: what each lock region and each channel
 * operation of `Instance` does, as a function on values. `HostState` is the part of
 * `Instance` that the mutex protects, with the channels it hands out.
 */
module Host {
  import opened Events

  type Id = string

  /** Capacity of the channel that carries one stream to its consumer. */
  const CAPACITY: nat := 64

  /** An event in a channel, with where it came from; no branch looks at the origin. */
  datatype Item = FromPlugin(ev: StreamEvent) | Notice(err: ProviderError)
  {
    /** What the consumer gets: a failure notice is an error event. */
    function Event(): StreamEvent {
      match this case FromPlugin(ev) => ev case Notice(err) => ErrorEvent(err)
    }
  }

  /** A buffered channel with one consumer; `received` is what that consumer has taken out. */
  datatype Chan = Chan(buf: seq<Item>, closed: bool, received: seq<Item>)
  {
    /** Everything that ever entered the channel, in order. */
    function All(): seq<Item> { received + buf }
  }

  datatype HostState = HostState(
    streams: set<Id>,
    pending: map<Id, seq<StreamEvent>>,
    chans: map<Id, Chan>)
  {
    function Pending(id: Id): seq<StreamEvent> {
      if id in pending then pending[id] else []
    }
  }

  /** Go's delete on a map. */
  function Without<V>(m: map<Id, V>, id: Id): (r: map<Id, V>)
    ensures r.Keys == m.Keys - {id}
    ensures forall i :: i in r ==> r[i] == m[i]
  {
    map i | i in m && i != id :: m[i]
  }

  function Tag(evs: seq<StreamEvent>): (items: seq<Item>)
    ensures |items| == |evs|
    ensures forall i :: 0 <= i < |evs| ==> items[i] == FromPlugin(evs[i])
  {
    if evs == [] then [] else [FromPlugin(evs[0])] + Tag(evs[1..])
  }

  /** The events of `items` that the plugin sent: crash notices removed. */
  function Genuine(items: seq<Item>): seq<StreamEvent> {
    if items == [] then []
    else (if items[0].FromPlugin? then [items[0].ev] else []) + Genuine(items[1..])
  }

  function Notices(items: seq<Item>): nat {
    if items == [] then 0
    else (if items[0].Notice? then 1 else 0) + Notices(items[1..])
  }

  /** How many items stand after the first crash notice. */
  function AfterNotice(items: seq<Item>): nat {
    if items == [] then 0
    else if items[0].Notice? then |items| - 1
    else AfterNotice(items[1..])
  }

  // ---- onNotify -------------------------------------------------------------------

  /** First lock region: park the event unless the stream has a live channel. */
  function ParkUnlessLive(h: HostState, id: Id, ev: StreamEvent): HostState {
    if id in h.streams then h else h.(pending := h.pending[id := h.Pending(id) + [ev]])
  }

  /** Where a send stands: it blocks on a full open channel; on a closed one it panics, and the panic is recovered. */
  predicate SendBlocks(c: Chan) { !c.closed && |c.buf| >= CAPACITY }

  function Send(c: Chan, item: Item): Chan
    requires !SendBlocks(c)
  {
    if c.closed then c else c.(buf := c.buf + [item])
  }

  /** closeStreamLocked. */
  function CloseStream(h: HostState, id: Id): HostState {
    var pending := Without(h.pending, id);
    if id in h.streams && id in h.chans then
      HostState(h.streams - {id}, pending, h.chans[id := h.chans[id].(closed := true)])
    else h.(pending := pending)
  }

  // ---- Stream ---------------------------------------------------------------------

  /** The drain pushes every parked event into a fresh channel that nobody reads yet. */
  predicate DrainFits(h: HostState, id: Id) { |h.Pending(id)| <= CAPACITY }

  function Register(h: HostState, id: Id): HostState
    requires DrainFits(h, id)
  {
    var parked := h.Pending(id);
    var ended := HasTerminal(parked);
    HostState(
      if ended then h.streams else h.streams + {id},
      Without(h.pending, id),
      h.chans[id := Chan(Tag(parked), ended, [])])
  }

  // ---- failActiveStreams and Start ------------------------------------------------

  /** Their lock regions: every live channel is taken out, every parked event is forgotten. */
  function Snapshot(h: HostState): HostState {
    h.(streams := {}, pending := map[])
  }

  /** The non-blocking send of the failure notice. */
  function TrySend(c: Chan, item: Item): Chan {
    if c.closed || |c.buf| >= CAPACITY then c else c.(buf := c.buf + [item])
  }

  function Close(c: Chan): Chan { c.(closed := true) }

  // ---- the consumer ---------------------------------------------------------------

  function Receive(c: Chan): Chan
    requires c.buf != []
  {
    c.(buf := c.buf[1..], received := c.received + [c.buf[0]])
  }

  // ---- facts about sequences of items ----------------------------------------------

  lemma {:induction false} GenuineConcat(a: seq<Item>, b: seq<Item>)
    ensures Genuine(a + b) == Genuine(a) + Genuine(b)
  {
    if a == [] {
      assert a + b == b;
    } else {
      var first := if a[0].FromPlugin? then [a[0].ev] else [];
      GenuineConcat(a[1..], b);
      assert (a + b)[0] == a[0] && (a + b)[1..] == a[1..] + b;
      calc {
        Genuine(a + b);
        first + Genuine(a[1..] + b);
        first + (Genuine(a[1..]) + Genuine(b));
        (first + Genuine(a[1..])) + Genuine(b);
        Genuine(a) + Genuine(b);
      }
    }
  }

  lemma {:induction false} NoticesConcat(a: seq<Item>, b: seq<Item>)
    ensures Notices(a + b) == Notices(a) + Notices(b)
    ensures AfterNotice(a + b) == if Notices(a) > 0 then AfterNotice(a) + |b| else AfterNotice(b)
  {
    if a == [] {
      assert a + b == b;
    } else {
      assert (a + b)[1..] == a[1..] + b;
      NoticesConcat(a[1..], b);
    }
  }

  lemma {:induction false} GenuineTag(evs: seq<StreamEvent>)
    ensures Genuine(Tag(evs)) == evs && Notices(Tag(evs)) == 0
  {
    if evs != [] {
      assert Tag(evs)[1..] == Tag(evs[1..]);
      GenuineTag(evs[1..]);
    }
  }
}
