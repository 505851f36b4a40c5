/**
 * JSON-RPC calls on one connection as a step protocol: callers, the dispatching goroutines,
 * contexts that end, a peer that may answer anything at any time, and the connection closing.
 */
module Rpc {
  import opened Wrappers
  import opened Json

  /** The raw id of a message: the decimal of an int64, as calls use it, or any other text. */
  datatype RawId = Numeral(n: Int64) | OtherText(text: string)

  datatype Response = Response(id: RawId, failed: bool, payload: Json)

  datatype Outcome = GotReply(reply: Response) | ContextDone | ConnectionClosed | WriteFailed

  /** A call takes its id before it takes the lock that enters it into the table. */
  datatype Phase = Numbered | Registered | Written | Returned(outcome: Outcome)

  /**
   * One call: its one-slot reply channel, the reply that a dispatcher has claimed for it but
   * not sent yet, and how many replies were ever claimed for it.
   */
  datatype Call = Call(phase: Phase, slot: Option<Response>, claimed: Option<Response>, claims: nat)

  /** `pending` maps ids to calls, which are numbered from 1 in the order they took their ids. */
  datatype Conn = Conn(issued: nat, pending: map<Int64, nat>, calls: map<nat, Call>, closed: bool)

  const FRESH: Conn := Conn(0, map[], map[], false)

  const TWO_TO_64: nat := 0x1_0000_0000_0000_0000

  /** The id of the k-th call: an atomic int64 counter. */
  function IdOf(k: nat): Int64 { Wrap64(k) }

  datatype Action =
    | TakeId
    | Enter(k: nat)
    | WriteOk(k: nat)
    | WriteFail(k: nat)
    | Dispatch(r: Response)
    | Deliver(k: nat)
    | Take(k: nat)
    | EndContext(k: nat)
    | SeeClose(k: nat)
    | CloseConn

  function Forget(pending: map<Int64, nat>, id: Int64): map<Int64, nat> {
    map i | i in pending && i != id :: pending[i]
  }

  function SetCall(s: Conn, k: nat, c: Call): Conn { s.(calls := s.calls[k := c]) }

  /** The call that a response belongs to, by the table's lights. */
  function Claimant(s: Conn, r: Response): Option<nat> {
    if r.id.Numeral? && r.id.n in s.pending then Some(s.pending[r.id.n]) else None
  }

  predicate InPhase(s: Conn, k: nat, phase: Phase) { k in s.calls && s.calls[k].phase == phase }

  function Do(s: Conn, a: Action): Option<Conn> {
    match a
    case TakeId =>
      var k := s.issued + 1;
      Some(Conn(k, s.pending, s.calls[k := Call(Numbered, None, None, 0)], s.closed))
    case Enter(k) =>
      if !InPhase(s, k, Numbered) then None
      else Some(SetCall(s, k, s.calls[k].(phase := Registered)).(pending := s.pending[IdOf(k) := k]))
    case WriteOk(k) =>
      if !InPhase(s, k, Registered) || s.closed then None
      else Some(SetCall(s, k, s.calls[k].(phase := Written)))
    case WriteFail(k) =>
      if !InPhase(s, k, Registered) then None
      else Some(SetCall(s, k, s.calls[k].(phase := Returned(WriteFailed))).(pending := Forget(s.pending, IdOf(k))))
    case Dispatch(r) =>
      var k := Claimant(s, r);
      if k.None? then Some(s)
      else
        var claimed := s.(pending := Forget(s.pending, r.id.n));
        if k.value !in s.calls then Some(claimed)
        else
          var c := s.calls[k.value];
          Some(SetCall(claimed, k.value, c.(claimed := Some(r), claims := c.claims + 1)))
    case Deliver(k) =>
      if k !in s.calls || s.calls[k].claimed.None? || s.calls[k].slot.Some? then None
      else Some(SetCall(s, k, s.calls[k].(slot := s.calls[k].claimed, claimed := None)))
    case Take(k) =>
      if !InPhase(s, k, Written) || s.calls[k].slot.None? then None
      else Some(SetCall(s, k, s.calls[k].(phase := Returned(GotReply(s.calls[k].slot.value)), slot := None)))
    case EndContext(k) =>
      if !InPhase(s, k, Written) then None
      else Some(SetCall(s, k, s.calls[k].(phase := Returned(ContextDone))).(pending := Forget(s.pending, IdOf(k))))
    case SeeClose(k) =>
      if !InPhase(s, k, Written) || !s.closed then None
      else Some(SetCall(s, k, s.calls[k].(phase := Returned(ConnectionClosed))))
    case CloseConn => Some(s.(closed := true))
  }

  function Run(s: Conn, acts: seq<Action>): Option<Conn>
    decreases |acts|
  {
    if acts == [] then Some(s)
    else
      match Do(s, acts[0])
      case None => None
      case Some(t) => Run(t, acts[1..])
  }

  // ---- ids ---------------------------------------------------------------------------------------

  /** Two calls share an id exactly when a multiple of 2^64 lies between them. */
  lemma IdsRepeatIff(i: nat, j: nat)
    ensures IdOf(i) == IdOf(j) <==> (i - j) % TWO_TO_64 == 0
  {
    var a, b := i + 0x8000_0000_0000_0000, j + 0x8000_0000_0000_0000;
    assert a == TWO_TO_64 * (a / TWO_TO_64) + a % TWO_TO_64;
    assert b == TWO_TO_64 * (b / TWO_TO_64) + b % TWO_TO_64;
    assert a - b == TWO_TO_64 * (a / TWO_TO_64 - b / TWO_TO_64) + (a % TWO_TO_64 - b % TWO_TO_64);
    ModOfSum(a / TWO_TO_64 - b / TWO_TO_64, a % TWO_TO_64 - b % TWO_TO_64);
  }

  lemma ModOfSum(q: int, r: int)
    requires -(TWO_TO_64 as int) < r < TWO_TO_64
    ensures (TWO_TO_64 * q + r) % TWO_TO_64 == 0 <==> r == 0
  {
    var x := TWO_TO_64 * q + r;
    assert x == TWO_TO_64 * (x / TWO_TO_64) + x % TWO_TO_64;
  }

  lemma IdsAreDistinct(i: nat, j: nat)
    requires 1 <= i <= TWO_TO_64 && 1 <= j <= TWO_TO_64 && i != j
    ensures IdOf(i) != IdOf(j)
  {
    IdsRepeatIff(i, j);
  }

  // ---- the invariant --------------------------------------------------------------------------------

  predicate Awaited(s: Conn, k: nat) { IdOf(k) in s.pending && s.pending[IdOf(k)] == k }

  predicate Mine(r: Option<Response>, k: nat) { r.Some? ==> r.value.id == Numeral(IdOf(k)) }

  /** What holds of one call: its reply is awaited, claimed, delivered or gone, and only ever its own. */
  predicate CallOk(s: Conn, k: nat)
    requires k in s.calls
  {
    var c := s.calls[k];
    && Mine(c.slot, k) && Mine(c.claimed, k)
    && c.claims <= 1
    && (Awaited(s, k) ==> c.claims == 0)
    && (c.claims == 0 ==> c.claimed.None? && c.slot.None?)
    && (c.claimed.Some? ==> c.slot.None?)
    && (c.phase.Returned? && c.phase.outcome.GotReply? ==>
          c.phase.outcome.reply.id == Numeral(IdOf(k)) && c.slot.None? && c.claimed.None? && c.claims == 1)
    && (c.phase.Numbered? ==> c.claims == 0 && !Awaited(s, k))
    && (!c.phase.Numbered? && !c.phase.Returned? && c.claims == 0 ==> Awaited(s, k))
    && (c.claims == 1 && !c.phase.Returned? ==> c.claimed.Some? || c.slot.Some?)
    && (c.phase.Returned? && Awaited(s, k) ==> c.phase.outcome.ConnectionClosed?)
    && (c.phase == Returned(ConnectionClosed) ==> s.closed)
    && (c.phase == Returned(ConnectionClosed) && c.claims == 0 ==> Awaited(s, k))
  }

  predicate Inv(s: Conn) {
    && (forall k :: k in s.calls ==> 1 <= k <= s.issued)
    && (forall n :: n in s.pending ==> s.pending[n] in s.calls && IdOf(s.pending[n]) == n)
    && (forall k :: k in s.calls ==> CallOk(s, k))
  }

  /** The one call a step is about. */
  function Subject(s: Conn, a: Action): Option<nat> {
    match a
    case TakeId => Some(s.issued + 1)
    case Enter(k) => Some(k)
    case Dispatch(r) => Claimant(s, r)
    case CloseConn => None
    case WriteOk(k) => Some(k)
    case WriteFail(k) => Some(k)
    case Deliver(k) => Some(k)
    case Take(k) => Some(k)
    case EndContext(k) => Some(k)
    case SeeClose(k) => Some(k)
  }

  /** A step is about one call; every other one keeps its state and its place in the table. */
  lemma OtherCallsUnchanged(s: Conn, a: Action, t: Conn, k: nat)
    requires Inv(s) && Do(s, a) == Some(t) && t.issued <= TWO_TO_64
    requires k in s.calls && Subject(s, a) != Some(k)
    ensures k in t.calls && t.calls[k] == s.calls[k] && (Awaited(t, k) <==> Awaited(s, k))
  {
    var x := Subject(s, a);
    if x.Some? && 1 <= x.value <= t.issued {
      IdsAreDistinct(k, x.value);
    }
  }

  lemma SubjectStaysOk(s: Conn, a: Action, t: Conn, k: nat)
    requires Inv(s) && Do(s, a) == Some(t) && t.issued <= TWO_TO_64
    requires Subject(s, a) == Some(k)
    ensures k in t.calls && CallOk(t, k)
  {
  }

  lemma TableStaysOk(s: Conn, a: Action, t: Conn)
    requires Inv(s) && Do(s, a) == Some(t)
    ensures forall k :: k in t.calls ==> 1 <= k <= t.issued
    ensures forall n :: n in t.pending ==> t.pending[n] in t.calls && IdOf(t.pending[n]) == n
  {
  }

  lemma StepKeeps(s: Conn, a: Action, t: Conn)
    requires Inv(s) && Do(s, a) == Some(t) && t.issued <= TWO_TO_64
    ensures Inv(t)
  {
    TableStaysOk(s, a, t);
    forall k | k in t.calls ensures CallOk(t, k) {
      if Subject(s, a) == Some(k) {
        SubjectStaysOk(s, a, t, k);
      } else {
        OtherCallsUnchanged(s, a, t, k);
        assert CallOk(s, k) && (s.closed ==> t.closed);
      }
    }
  }

  lemma IssuedGrows(s: Conn, a: Action, t: Conn)
    requires Do(s, a) == Some(t)
    ensures t.issued >= s.issued
  {
  }

  lemma {:induction false} RunGrows(s: Conn, acts: seq<Action>, t: Conn)
    requires Run(s, acts) == Some(t)
    ensures t.issued >= s.issued
    decreases |acts|
  {
    if acts != [] {
      IssuedGrows(s, acts[0], Do(s, acts[0]).value);
      RunGrows(Do(s, acts[0]).value, acts[1..], t);
    }
  }

  lemma {:induction false} RunKeeps(s: Conn, acts: seq<Action>, t: Conn)
    requires Inv(s) && Run(s, acts) == Some(t) && t.issued <= TWO_TO_64
    ensures Inv(t)
    decreases |acts|
  {
    if acts != [] {
      var u := Do(s, acts[0]).value;
      RunGrows(u, acts[1..], t);
      StepKeeps(s, acts[0], u);
      RunKeeps(u, acts[1..], t);
    }
  }

  // ---- what it gives ------------------------------------------------------------------------------------

  /** Every reachable state that no more than 2^64 calls have been made in. */
  ghost predicate Reachable(s: Conn) {
    s.issued <= TWO_TO_64 && exists acts :: Run(FRESH, acts) == Some(s)
  }

  lemma ReachableInv(s: Conn)
    requires Reachable(s)
    ensures Inv(s)
  {
    var acts :| Run(FRESH, acts) == Some(s);
    RunKeeps(FRESH, acts, s);
  }

  /** A call that returns a reply returns the one bearing its own id, and no other call has that id. */
  lemma ReplyIsOwn(s: Conn, k: nat, r: Response)
    requires Reachable(s) && InPhase(s, k, Returned(GotReply(r)))
    ensures r.id == Numeral(IdOf(k))
    ensures forall j :: j in s.calls && r.id == Numeral(IdOf(j)) ==> j == k
  {
    ReachableInv(s);
    assert CallOk(s, k);
    forall j | j in s.calls && j != k ensures IdOf(j) != IdOf(k) {
      IdsAreDistinct(j, k);
    }
  }

  /** At most one reply is ever claimed for a call, so the send into its one-slot channel never blocks. */
  lemma DeliveryNeverBlocks(s: Conn, k: nat)
    requires Reachable(s) && k in s.calls
    ensures s.calls[k].claims <= 1
    ensures s.calls[k].claimed.Some? ==> Do(s, Deliver(k)).Some?
  {
    ReachableInv(s);
    assert CallOk(s, k);
  }

  /** The call has entered the table, no reply has been claimed for it, and nothing has taken it out. */
  predicate Expects(s: Conn, k: nat) {
    && k in s.calls && s.calls[k].claims == 0
    && (s.calls[k].phase in {Registered, Written} || s.calls[k].phase == Returned(ConnectionClosed))
  }

  lemma ExpectsMeansAwaited(s: Conn, k: nat)
    requires Inv(s)
    ensures Expects(s, k) <==> k in s.calls && Awaited(s, k)
  {
    if k in s.calls {
      assert CallOk(s, k);
    }
  }

  /**
   * A response with the id of a call that expects one, failed or not, is claimed for that call, and
   * for no other. A call that has written its request can return it, whatever other calls do.
   */
  lemma RepliesReachTheirCalls(s: Conn, k: nat, r: Response)
    requires Reachable(s) && Expects(s, k) && r.id == Numeral(IdOf(k))
    ensures var t := Do(s, Dispatch(r));
            && t.Some? && t.value.calls == s.calls[k := s.calls[k].(claimed := Some(r), claims := 1)]
            && t.value.pending == s.pending - {IdOf(k)} && t.value.closed == s.closed
    ensures InPhase(s, k, Written) ==>
              var t := Run(s, [Dispatch(r), Deliver(k), Take(k)]);
              t.Some? && InPhase(t.value, k, Returned(GotReply(r)))
  {
    ReachableInv(s);
    ExpectsMeansAwaited(s, k);
    assert CallOk(s, k);
    assert s.pending - {IdOf(k)} == Forget(s.pending, IdOf(k));
    if InPhase(s, k, Written) {
      var t := Do(s, Dispatch(r)).value;
      var u := Do(t, Deliver(k)).value;
      ThreeSteps(s, Dispatch(r), t, Deliver(k), u, Take(k));
    }
  }

  lemma {:induction false} ThreeSteps(s: Conn, a: Action, t: Conn, b: Action, u: Conn, c: Action)
    requires Do(s, a) == Some(t) && Do(t, b) == Some(u)
    ensures Run(s, [a, b, c]) == Do(u, c)
  {
    assert [a, b, c][1..] == [b, c] && [b, c][1..] == [c] && [c][1..] == [];
    assert Run(u, [c]) == match Do(u, c) { case None => None case Some(v) => Run(v, []) };
    assert Run(t, [b, c]) == Run(u, [c]);
  }

  /** A response changes something exactly if some call expects it; a second one with its id never does. */
  lemma LateRepliesAreDropped(s: Conn, r: Response, again: Response)
    requires Reachable(s) && again.id == r.id
    ensures Do(s, Dispatch(r)) == Some(s) <==> !exists k :: Expects(s, k) && r.id == Numeral(IdOf(k))
    ensures var t := Do(s, Dispatch(r)).value; Do(t, Dispatch(again)) == Some(t)
  {
    ReachableInv(s);
    if k :| Expects(s, k) && r.id == Numeral(IdOf(k)) {
      RepliesReachTheirCalls(s, k, r);
    } else if Claimant(s, r).Some? {
      ExpectsMeansAwaited(s, Claimant(s, r).value);
      assert false;
    }
  }

  /** Once the connection is closed no request is written any more, and every call can return. */
  lemma ClosedConnectionEndsCalls(s: Conn, k: nat)
    requires Reachable(s) && s.closed
    ensures Do(s, WriteOk(k)) == None
    ensures InPhase(s, k, Registered) ==>
              var t := Do(s, WriteFail(k));
              t.Some? && InPhase(t.value, k, Returned(WriteFailed)) && IdOf(k) !in t.value.pending
    ensures InPhase(s, k, Written) ==>
              var t := Do(s, SeeClose(k));
              t.Some? && InPhase(t.value, k, Returned(ConnectionClosed)) && t.value.pending == s.pending
  {
  }

  /**
   * A finished call is left in the table exactly when it returned because the connection
   * closed and no reply was claimed for it; so on an open connection none is.
   */
  lemma LeftInTableIff(s: Conn, k: nat)
    requires Reachable(s) && k in s.calls && s.calls[k].phase.Returned?
    ensures Awaited(s, k) <==> s.calls[k].phase.outcome.ConnectionClosed? && s.calls[k].claims == 0
    ensures !s.closed ==> !Awaited(s, k)
  {
    ReachableInv(s);
    assert CallOk(s, k);
  }

  /** A waiting call whose reply has arrived can return it; one that still waits is in the table. */
  lemma WaitingCallsAreServed(s: Conn, k: nat)
    requires Reachable(s) && InPhase(s, k, Written)
    ensures Awaited(s, k) || Do(s, Deliver(k)).Some? || Do(s, Take(k)).Some?
  {
    ReachableInv(s);
    assert CallOk(s, k);
  }

  // ---- Conn as an object -----------------------------------------------------------------------------------

  /** The fields of Conn that calls and dispatchers share; reply channels go by the number of their call. */
  class Connection {
    var nextID: Int64
    var pending: map<Int64, nat>
    var closed: bool
    var closeErr: string
    /** How many calls there have been; numbers the reply channels. */
    var issued: nat

    ghost predicate Valid()
      reads this
    {
      nextID == IdOf(issued)
    }

    /** The value agrees with this object on what the object holds. */
    ghost predicate Shows(s: Conn)
      reads this
    {
      issued == s.issued && pending == s.pending && closed == s.closed
    }

    constructor ()
      ensures Valid() && Shows(FRESH)
    {
      nextID, pending, closed, closeErr, issued := 0, map[], false, "", 0;
    }

    /** The head of Call: the atomic increment. */
    method TakeId(ghost s: Conn) returns (id: Int64, k: nat)
      requires Valid() && Shows(s)
      modifies this
      ensures Valid() && Shows(Do(s, Action.TakeId).value)
      ensures k == s.issued + 1 && id == IdOf(k)
    {
      nextID := Wrap64(nextID + 1);
      issued := issued + 1;
      k, id := issued, nextID;
      NextId(issued - 1);
    }

    /** Then, under the lock, the reply channel enters the table. */
    method Enter(id: Int64, k: nat, ghost s: Conn)
      requires Valid() && Shows(s) && id == IdOf(k) && InPhase(s, k, Numbered)
      modifies this
      ensures Valid() && Shows(Do(s, Action.Enter(k)).value)
    {
      pending := pending[id := k];
    }

    /** What Call does under the lock when the write fails or the context ends. */
    method Leave(id: Int64, k: nat, ghost s: Conn)
      requires Valid() && Shows(s) && id == IdOf(k)
      requires InPhase(s, k, Registered) || InPhase(s, k, Written)
      modifies this
      ensures Valid()
      ensures InPhase(s, k, Registered) ==> Shows(Do(s, WriteFail(k)).value)
      ensures InPhase(s, k, Written) ==> Shows(Do(s, EndContext(k)).value)
    {
      pending := Forget(pending, id);
    }

    /** The lock region of dispatch: whose reply this is, if anybody's, and never again. */
    method Claim(r: Response, ghost s: Conn) returns (k: Option<nat>)
      requires Valid() && Shows(s)
      modifies this
      ensures Valid() && k == Claimant(s, r) && Shows(Do(s, Dispatch(r)).value)
      ensures k.Some? <==> r.id.Numeral? && r.id.n in old(pending)
      ensures k.Some? ==> k.value == old(pending)[r.id.n] && pending == old(pending) - {r.id.n}
    {
      if r.id.Numeral? && r.id.n in pending {
        k := Some(pending[r.id.n]);
        pending := Forget(pending, r.id.n);
      } else {
        k := None;
      }
    }

    /** closeWith: the first reason stays. */
    method CloseWith(err: string, ghost s: Conn)
      requires Valid() && Shows(s)
      modifies this
      ensures Valid() && Shows(Do(s, CloseConn).value)
      ensures closeErr == if old(closed) then old(closeErr) else err
    {
      if !closed {
        closed, closeErr := true, err;
      }
    }
  }

  lemma NextId(k: nat)
    ensures Wrap64(IdOf(k) + 1) == IdOf(k + 1)
  {
    var x := k + 0x8000_0000_0000_0000;
    var q, r := x / TWO_TO_64, x % TWO_TO_64;
    assert x == TWO_TO_64 * q + r;
    if r + 1 < TWO_TO_64 {
      Remainder(q, r + 1);
    } else {
      Remainder(q + 1, 0);
    }
  }

  lemma Remainder(q: int, r: int)
    requires 0 <= r < TWO_TO_64
    ensures (TWO_TO_64 * q + r) % TWO_TO_64 == r
  {
    var x := TWO_TO_64 * q + r;
    assert x == TWO_TO_64 * (x / TWO_TO_64) + x % TWO_TO_64;
  }
}
