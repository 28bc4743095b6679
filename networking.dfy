/**
 * The server side of the networking layer (NetworkServer), run as a
 * sequential state machine.
 *
 * The transport (DoubleServer) is not modelled: its notifications are the
 * methods OnFullAuthentication, OnTcpReceived, OnUdpReceived and
 * OnLostConnection, each of which RETURNS the callback it hands to the main
 * thread's dispatcher; RunCallback is that callback running on the main
 * thread. Sends are not performed but returned, one `Send` per recipient.
 */
module Networking {

  /** The C# `byte`; arithmetic on it wraps modulo 256 and is written out where it occurs. */
  type byte = b: int | 0 <= b < 0x100

  /** The C# `ushort` of the UDP packet timestamps. */
  type ushort = u: int | 0 <= u < 0x1_0000

  datatype Option<T> = None | Some(value: T)

  /** The identity of an application callback registered for a TCP packet type. */
  type Handler = nat

  /** DoubleServer.ClientState, as far as OnLostConnection tells its values apart. */
  datatype ClientState = Authenticated | NotAuthenticated

  // ===========================================================================
  // Session identities

  /** `++_idCounter` on a byte. */
  function Inc(b: byte): byte { (b + 1) % 0x100 }

  /** `_idCounter--` on a byte. */
  function Dec(b: byte): byte { (b - 1) % 0x100 }

  /**
   * One Initialize on the shared counter: the counter afterwards and the id
   * issued, or None when the ids ran out (the AssertionException).
   */
  function NextId(counter: byte): (r: (byte, Option<byte>))
    ensures r.1.Some? <==> counter < 255
    ensures r.1.Some? ==> r.1.value == counter + 1 == r.0
    ensures r.1.None? ==> r.0 == counter == 255
  {
    var newid := Inc(counter);
    if newid == 0 then (Dec(newid), None) else (newid, Some(newid))
  }

  /** The results of `n` successive Initialize calls starting from `counter`. */
  function IssueRun(counter: byte, n: nat): (r: seq<Option<byte>>)
    ensures |r| == n
    decreases n
  {
    if n == 0 then [] else [NextId(counter).1] + IssueRun(NextId(counter).0, n - 1)
  }

  /**
   * The i-th allocation after `counter` issues counter + i + 1 while that is at
   * most 255 and fails from then on: issued ids are never 0, strictly increase
   * and never wrap around.
   */
  lemma {:induction false} IssueRunExact(counter: byte, n: nat)
    ensures forall i :: 0 <= i < n ==>
      IssueRun(counter, n)[i] == if counter + i < 255 then Some(counter + i + 1) else None
    decreases n
  {
    if n > 0 {
      var next := NextId(counter).0;
      IssueRunExact(next, n - 1);
      forall i | 1 <= i < n
        ensures IssueRun(counter, n)[i] == if counter + i < 255 then Some(counter + i + 1) else None
      {
        assert IssueRun(counter, n)[i] == IssueRun(next, n - 1)[i - 1];
      }
    }
  }

  /** Ids are never reused: two successful allocations of one run issue different ids, both non-zero. */
  lemma IssuedIdsDistinct(counter: byte, n: nat, i: nat, j: nat)
    requires i < j < n
    requires IssueRun(counter, n)[i].Some? && IssueRun(counter, n)[j].Some?
    ensures 0 < IssueRun(counter, n)[i].value < IssueRun(counter, n)[j].value
  {
    IssueRunExact(counter, n);
  }

  /** From a fresh counter exactly the 255 ids 1..255 are issued, and the 256th attempt fails. */
  lemma IdSpaceExhaustion()
    ensures IssueRun(0, 256) == seq(255, i requires 0 <= i < 255 => Some(i + 1)) + [None]
  {
    IssueRunExact(0, 256);
  }

  // ===========================================================================
  // Unreliable (UDP) freshness

  /**
   * The newest-check of DoubleProtocol.IsPacketNewest, which is not part of this
   * model; assumed here: `ts` is newer than `last` when it lies 1..32767 steps
   * ahead of it on the 16-bit cycle.
   */
  predicate IsNewer(last: ushort, ts: ushort)
  {
    0 < (ts - last) % 0x1_0000 < 0x8000
  }

  /**
   * The freshness filter of OnUdpReceived: the new baseline when the packet is
   * accepted, None when it is dropped.
   */
  function UdpFilter(reset: bool, last: ushort, ts: ushort): (r: Option<ushort>)
    ensures r.Some? <==> reset || IsNewer(last, ts)
    ensures r.Some? ==> r.value == ts
  {
    if reset then Some(ts) else if IsNewer(last, ts) then Some(ts) else None
  }

  /** The timestamps a session accepts from `tss`, in arrival order, starting at baseline `last` with no reset. */
  function AcceptedRun(last: ushort, tss: seq<ushort>): seq<ushort>
    decreases |tss|
  {
    if tss == [] then []
    else match UdpFilter(false, last, tss[0])
      case Some(b) => [b] + AcceptedRun(b, tss[1..])
      case None => AcceptedRun(last, tss[1..])
  }

  /** Each timestamp of `r` is newer than the one before it, the first newer than `last`. */
  ghost predicate NewerChain(last: ushort, r: seq<ushort>)
    decreases |r|
  {
    r == [] || (IsNewer(last, r[0]) && NewerChain(r[0], r[1..]))
  }

  /**
   * Without a reset, every accepted timestamp is newer than the one accepted
   * before it (the first one newer than the starting baseline), so a stale or
   * duplicate packet never replaces fresher state.
   */
  lemma {:induction false} AcceptedRunIsNewest(last: ushort, tss: seq<ushort>)
    ensures NewerChain(last, AcceptedRun(last, tss))
    decreases |tss|
  {
    if tss != [] {
      match UdpFilter(false, last, tss[0])
      case Some(b) =>
        AcceptedRunIsNewest(b, tss[1..]);
        assert AcceptedRun(last, tss) == [b] + AcceptedRun(b, tss[1..]);
      case None =>
        assert AcceptedRun(last, tss) == AcceptedRun(last, tss[1..]);
        AcceptedRunIsNewest(last, tss[1..]);
    }
  }

  /** `r` can be obtained from `s` by dropping elements, keeping the order of the rest. */
  ghost predicate Subsequence(r: seq<ushort>, s: seq<ushort>)
    decreases |s|
  {
    || r == []
    || (s != [] && ((r[0] == s[0] && Subsequence(r[1..], s[1..])) || Subsequence(r, s[1..])))
  }

  /** The accepted timestamps are arrivals, in their order of arrival: the filter only drops packets. */
  lemma {:induction false} AcceptedRunFromArrivals(last: ushort, tss: seq<ushort>)
    ensures Subsequence(AcceptedRun(last, tss), tss)
    decreases |tss|
  {
    if tss != [] {
      match UdpFilter(false, last, tss[0])
      case Some(b) =>
        AcceptedRunFromArrivals(b, tss[1..]);
        assert AcceptedRun(last, tss) == [b] + AcceptedRun(b, tss[1..]);
      case None =>
        AcceptedRunFromArrivals(last, tss[1..]);
        assert AcceptedRun(last, tss) == AcceptedRun(last, tss[1..]);
    }
  }

  /** Arrivals 5, 3, 7, 7, 6 on a new session (baseline 0, no reset): only 5 and 7 get through. */
  lemma AcceptedRunExample()
    ensures AcceptedRun(0, [5, 3, 7, 7, 6]) == [5, 7]
  {
  }

  /** After a reset, any timestamp is accepted and becomes the baseline, even one far behind it. */
  lemma ResetAcceptsOlder()
    ensures !IsNewer(200, 10)
    ensures UdpFilter(true, 200, 10) == Some(10)
  {
  }

  /**
   * A new session has baseline 0 and no reset pending, so its first packet
   * gets through only when its timestamp lies 1..32767 ahead of 0.
   */
  lemma NewSessionFirstPacket(ts: ushort)
    ensures UdpFilter(false, 0, ts).Some? <==> 0 < ts < 0x8000
  {
  }

  /** A packet with the baseline's own timestamp is a duplicate: it is dropped unless a reset is pending. */
  lemma DuplicateDropped(last: ushort)
    ensures UdpFilter(false, last, last) == None
  {
  }

  // ===========================================================================
  // Sessions

  class Session {
    /** DoubleClient: the transport's connection handle. */
    const handle: nat
    /** Id; 0 until Initialize succeeds. */
    var id: byte
    /** LastPacketTimestamp: the baseline of the freshness filter. */
    var lastPacketTimestamp: ushort
    /** _resetPacketTimestamp */
    var resetPacketTimestamp: bool

    constructor (handle: nat)
      ensures this.handle == handle && id == 0
      ensures lastPacketTimestamp == 0 && !resetPacketTimestamp
    {
      this.handle := handle;
      id := 0;
      lastPacketTimestamp := 0;
      resetPacketTimestamp := false;
    }

    /**
     * Takes the next id from the process-wide counter; when none is left the
     * counter stays at 255 and the call fails.
     */
    method Initialize(counter: IdCounter) returns (ok: bool)
      requires counter.Valid()
      modifies this`id, counter
      ensures counter.Valid()
      ensures (counter.value, if ok then Some(id) else None) == NextId(old(counter.value))
      ensures ok ==> counter.issued == old(counter.issued) + {this}
      ensures !ok ==> id == old(id) && counter.issued == old(counter.issued)
    {
      var newid := Inc(counter.value);
      counter.value := newid;
      if newid == 0 {
        counter.value := Dec(counter.value);
        return false;
      }
      id := newid;
      counter.issued := counter.issued + {this};
      ok := true;
    }

    /** Makes the next UDP packet of this session be accepted whatever its timestamp. */
    method SetResetPacketTimestamp()
      modifies this`resetPacketTimestamp
      ensures resetPacketTimestamp
    {
      resetPacketTimestamp := true;
    }

    /** Returns the reset flag and clears it, so a second take without a new set returns false. */
    method TakeResetPacketTimestamp() returns (value: bool)
      modifies this`resetPacketTimestamp
      ensures value == old(resetPacketTimestamp)
      ensures !resetPacketTimestamp
    {
      value := resetPacketTimestamp;
      resetPacketTimestamp := false;
    }
  }

  /** The static `_idCounter` of the sessions, with the sessions it has given an id to. */
  class IdCounter {
    var value: byte
    ghost var issued: set<Session>

    /** Every session that got an id holds a distinct, non-zero id no larger than the counter. */
    ghost predicate Valid()
      reads this, issued
    {
      && (forall s :: s in issued ==> 1 <= s.id <= value)
      && (forall s, t :: s in issued && t in issued && s != t ==> s.id != t.id)
    }

    constructor ()
      ensures Valid() && value == 0 && issued == {}
    {
      value := 0;
      issued := {};
    }
  }

  // ===========================================================================
  // Routing and the main-thread callbacks

  /** A callback handed to the main thread's dispatcher. */
  datatype Callback =
    | AddClient(session: Session)                                  // from OnFullAuthentication
    | TcpPacket(sender: Session, packet: byte, bytes: seq<byte>)   // from OnTcpReceived
    | UdpPacket(sender: Session, bytes: seq<byte>)                 // from OnUdpReceived
    | RemoveClient(session: Session)                               // from OnLostConnection

  /** What a callback makes the application see. */
  datatype Effect =
    | NoEffect
    | Connected(session: Session)                                     // _onConnected
    | Disconnected(session: Session)                                  // _onDisconnected
    | TcpHandled(handler: Handler, sender: Session, bytes: seq<byte>) // TcpHandlers[packet]
    | UdpHandled(sender: Session, bytes: seq<byte>)                   // _udpHandler

  /** What OnTcpReceived queues for a received TCP buffer, given the length of the handler table. */
  function TcpReceive(tableLength: nat, sender: Session, buffer: seq<byte>): Option<Callback>
  {
    if |buffer| < 1 then None
    else if buffer[0] >= tableLength then None
    else Some(TcpPacket(sender, buffer[0], buffer[1..]))
  }

  /** What a queued callback does for the application when it runs. */
  function CallbackEffect(running: bool, table: seq<Option<Handler>>, c: Callback): Effect
  {
    if !running then NoEffect
    else match c
      case AddClient(s) => Connected(s)
      case TcpPacket(s, packet, bytes) =>
        if packet < |table| && table[packet].Some? then TcpHandled(table[packet].value, s, bytes) else NoEffect
      case UdpPacket(s, bytes) => UdpHandled(s, bytes)
      case RemoveClient(s) => Disconnected(s)
  }

  /** The session set after a queued callback runs. */
  function CallbackClients(running: bool, clients: set<Session>, c: Callback): set<Session>
  {
    if !running then clients
    else match c
      case AddClient(s) => clients + {s}
      case RemoveClient(s) => clients - {s}
      case _ => clients
  }

  /**
   * TCP routing end to end: a received buffer reaches a handler exactly when
   * the server is running, the buffer holds a tag, the tag indexes the table
   * and its slot is set; that handler then gets the bytes after the tag, and
   * otherwise nothing happens at all.
   */
  lemma TcpRouting(running: bool, table: seq<Option<Handler>>, sender: Session, buffer: seq<byte>)
    ensures var effect := match TcpReceive(|table|, sender, buffer)
        case None => NoEffect
        case Some(c) => CallbackEffect(running, table, c);
      && (effect != NoEffect <==>
           running && |buffer| >= 1 && buffer[0] < |table| && table[buffer[0]].Some?)
      && (effect != NoEffect ==> effect == TcpHandled(table[buffer[0]].value, sender, buffer[1..]))
  {
  }

  /**
   * The session set changes only while the server runs, a session joins it
   * only through the callback of its full authentication and leaves it only
   * through the callback of its lost connection.
   */
  lemma SessionSetChanges(running: bool, clients: set<Session>, c: Callback, s: Session)
    ensures !running ==> CallbackClients(running, clients, c) == clients
    ensures s !in clients && s in CallbackClients(running, clients, c) ==> running && c == AddClient(s)
    ensures s in clients && s !in CallbackClients(running, clients, c) ==> running && c == RemoveClient(s)
  {
  }

  // ===========================================================================
  // Sends

  /** One send over the transport: `bytes` to `to`. */
  datatype Send = Send(to: Session, bytes: seq<byte>)

  function Recipients(sends: seq<Send>): set<Session>
  {
    set i | 0 <= i < |sends| :: sends[i].to
  }

  /** `sends` delivers `bytes` once to every session of `targets` and to nobody else. */
  ghost predicate Broadcast(sends: seq<Send>, targets: set<Session>, bytes: seq<byte>)
  {
    && (forall i :: 0 <= i < |sends| ==> sends[i].bytes == bytes)
    && (forall i, j :: 0 <= i < j < |sends| ==> sends[i].to != sends[j].to)
    && Recipients(sends) == targets
  }

  /** A broadcast makes exactly one send per target. */
  lemma {:induction false} BroadcastCount(sends: seq<Send>, targets: set<Session>, bytes: seq<byte>)
    requires Broadcast(sends, targets, bytes)
    ensures |sends| == |targets|
  {
    if sends != [] {
      var last := |sends| - 1;
      var front := sends[..last];
      assert Broadcast(front, targets - {sends[last].to}, bytes) by {
        forall c | c in targets - {sends[last].to}
          ensures c in Recipients(front)
        {
          var i :| 0 <= i < |sends| && sends[i].to == c;
          assert i != last;
          assert front[i].to == c;
        }
      }
      BroadcastCount(front, targets - {sends[last].to}, bytes);
      assert sends[last].to in Recipients(sends);
    } else {
      assert targets == {};
    }
  }

  /** The foreach loops of the ticking thread and of SendTcpToAll: `bytes` to each session of `pool` that `keep` admits. */
  method FanOut(pool: set<Session>, keep: Session -> bool, bytes: seq<byte>) returns (sends: seq<Send>)
    ensures Broadcast(sends, (set c | c in pool && keep(c)), bytes)
  {
    sends := [];
    var rest := pool;
    while rest != {}
      invariant rest <= pool
      invariant forall i :: 0 <= i < |sends| ==> sends[i].bytes == bytes && sends[i].to !in rest
      invariant forall i, j :: 0 <= i < j < |sends| ==> sends[i].to != sends[j].to
      invariant Recipients(sends) == set c | c in pool - rest && keep(c)
      decreases rest
    {
      var c :| c in rest;
      ghost var before := sends;
      if keep(c) {
        sends := sends + [Send(c, bytes)];
        assert Recipients(sends) == Recipients(before) + {c} by {
          assert sends[|before|].to == c;
          forall i | 0 <= i < |before| ensures sends[i] == before[i] { }
        }
      } else {
        assert Recipients(sends) == Recipients(before);
      }
      assert pool - (rest - {c}) == (pool - rest) + {c};
      rest := rest - {c};
    }
  }

  // ===========================================================================
  // The server

  datatype AuthResult =
    | IdsExhausted                                  // Initialize threw: no reply, nothing queued
    | Accepted(reply: seq<byte>, callback: Callback) // the reply payload and the queued callback

  /** The static state of NetworkServer. */
  class Server {
    /** The sessions' static id counter; it outlives every Start/Stop. */
    const ids: IdCounter
    /** TcpHandlers: one slot per packet type, None for no handler. */
    const handlers: array<Option<Handler>>
    /** `_server != null` */
    var running: bool
    /** _clients: the authenticated sessions (null when not running) */
    var clients: set<Session>
    /** _udpPayload */
    var udpPayload: Option<seq<byte>>

    /** Only running servers have sessions, and every session has been given an id. */
    ghost predicate Valid()
      reads this, ids, ids.issued
    {
      && ids.Valid()
      && (!running ==> clients == {})
      && clients <= ids.issued
    }

    /** Live sessions have distinct, non-zero ids. */
    lemma ClientIdsUnique()
      requires Valid()
      ensures forall s :: s in clients ==> s.id != 0
      ensures forall s, t :: s in clients && t in clients && s != t ==> s.id != t.id
    {
    }

    /** The static initial state: not running, an empty handler table of `packetTypes` slots, no payload. */
    constructor (ids: IdCounter, packetTypes: nat)
      requires ids.Valid()
      ensures Valid() && this.ids == ids
      ensures !running && clients == {} && udpPayload == None
      ensures fresh(handlers) && handlers.Length == packetTypes
      ensures forall i :: 0 <= i < packetTypes ==> handlers[i] == None
    {
      this.ids := ids;
      handlers := new Option<Handler>[packetTypes](_ => None);
      running := false;
      clients := {};
      udpPayload := None;
    }

    /** `Initialized`: the server runs, which is also when ClientCount reports a count rather than -1. */
    predicate Initialized()
      reads this
      ensures Initialized() <==> ClientCount() >= 0
    {
      running
    }

    /** The number of authenticated sessions, or -1 when the server is not running. */
    function ClientCount(): (r: int)
      reads this
      ensures r == -1 <==> !running
      ensures r != -1 ==> r == |clients|
    {
      if running then |clients| else -1
    }

    method Start()
      requires Valid() && !Initialized()
      modifies this`running, this`clients
      ensures Valid() && Initialized() && ClientCount() == 0
      ensures udpPayload == old(udpPayload)
      ensures ids.value == old(ids.value) && ids.issued == old(ids.issued)
    {
      clients := {};
      running := true;
    }

    method Stop()
      requires Valid() && Initialized()
      modifies this`running, this`clients, this`udpPayload, handlers
      ensures Valid() && !Initialized() && ClientCount() == -1
      ensures udpPayload == None
      ensures forall i :: 0 <= i < handlers.Length ==> handlers[i] == None
      ensures ids.value == old(ids.value) && ids.issued == old(ids.issued)
    {
      udpPayload := None;
      forall i | 0 <= i < handlers.Length {
        handlers[i] := None;
      }
      clients := {};
      running := false;
    }

    /** The `UdpPayload` setter. */
    method SetUdpPayload(payload: Option<seq<byte>>)
      modifies this`udpPayload
      ensures udpPayload == payload
    {
      udpPayload := payload;
    }

    method SetTcpHandler(packet: byte, handler: Option<Handler>)
      requires packet < handlers.Length
      modifies handlers
      ensures handlers[packet] == handler
      ensures forall i :: 0 <= i < handlers.Length && i != packet ==> handlers[i] == old(handlers[i])
    {
      handlers[packet] := handler;
    }

    /** One run of the ticking thread: the payload, when there is a non-empty one, to every session. */
    method Tick() returns (sends: seq<Send>)
      requires Valid()
      ensures udpPayload.Some? && udpPayload.value != [] ==> Broadcast(sends, clients, udpPayload.value)
      ensures udpPayload.None? || udpPayload.value == [] ==> sends == []
    {
      sends := [];
      if udpPayload.Some? && |udpPayload.value| != 0 {
        sends := FanOut(clients, _ => true, udpPayload.value);
        assert (set c | c in clients && true) == clients;
      }
    }

    /** SendTcpToAll(payloadWriter): `bytes` is what the writer puts in the shared buffer. */
    method SendTcpToAll(bytes: seq<byte>) returns (sends: seq<Send>)
      ensures !running ==> sends == []
      ensures running ==> Broadcast(sends, clients, bytes)
    {
      sends := [];
      if running {
        sends := FanOut(clients, _ => true, bytes);
        assert (set c | c in clients && true) == clients;
      }
    }

    /** SendTcpToAll(payloadWriter, excluding) */
    method SendTcpToAllExcept(bytes: seq<byte>, excluding: Session) returns (sends: seq<Send>)
      ensures !running ==> sends == []
      ensures running ==> Broadcast(sends, clients - {excluding}, bytes)
    {
      sends := [];
      if running {
        sends := FanOut(clients, c => c != excluding, bytes);
        assert (set c | c in clients && c != excluding) == clients - {excluding};
      }
    }

    /** SendTcpToAll(payloadWriter, filter); the filter is a predicate over sessions. */
    method SendTcpToAllFiltered(bytes: seq<byte>, filter: Session -> bool) returns (sends: seq<Send>)
      ensures !running ==> sends == []
      ensures running ==> Broadcast(sends, (set c | c in clients && filter(c)), bytes)
    {
      sends := [];
      if running {
        sends := FanOut(clients, filter, bytes);
      }
    }

    /** Every connection is accepted, with a new session attached to it. */
    method TcpAuthenticateClient(handle: nat) returns (accepted: bool, session: Session)
      ensures accepted && fresh(session)
      ensures session.handle == handle && session.id == 0
      ensures session.lastPacketTimestamp == 0 && !session.resetPacketTimestamp
    {
      session := new Session(handle);
      accepted := true;
    }

    /**
     * The session takes the next id; the reply carries it and the callback
     * that adds the session is queued. When the ids have run out, nothing is
     * queued and no id is taken.
     */
    method OnFullAuthentication(s: Session) returns (r: AuthResult)
      requires Valid()
      modifies s`id, ids
      ensures Valid()
      ensures r.IdsExhausted? <==> old(ids.value) == 255
      ensures r.Accepted? ==> s.id == old(ids.value) + 1 && s in ids.issued
      ensures r.Accepted? ==> r.reply == [s.id] && r.callback == AddClient(s)
      ensures r.Accepted? ==> ids.value == s.id && ids.issued == old(ids.issued) + {s}
      ensures r.IdsExhausted? ==> ids.value == 255 && ids.issued == old(ids.issued)
      ensures r.IdsExhausted? ==> s.id == old(s.id)
    {
      var ok := s.Initialize(ids);
      if !ok {
        return IdsExhausted;
      }
      r := Accepted([s.id], AddClient(s));
    }

    method OnTcpReceived(s: Session, buffer: seq<byte>) returns (queued: Option<Callback>)
      ensures queued == TcpReceive(handlers.Length, s, buffer)
    {
      if |buffer| < 1 {
        return None;
      }
      var packet := buffer[0];
      if packet >= handlers.Length {
        return None;
      }
      queued := Some(TcpPacket(s, packet, buffer[1..]));
    }

    /** The freshness filter runs on the receiving thread; only an accepted packet is queued. */
    method OnUdpReceived(s: Session, buffer: seq<byte>, packetTimestamp: ushort) returns (queued: Option<Callback>)
      modifies s`lastPacketTimestamp, s`resetPacketTimestamp
      ensures !s.resetPacketTimestamp
      ensures match UdpFilter(old(s.resetPacketTimestamp), old(s.lastPacketTimestamp), packetTimestamp)
        case Some(baseline) => s.lastPacketTimestamp == baseline && queued == Some(UdpPacket(s, buffer))
        case None => s.lastPacketTimestamp == old(s.lastPacketTimestamp) && queued == None
    {
      var reset := s.TakeResetPacketTimestamp();
      if reset {
        s.lastPacketTimestamp := packetTimestamp;
      } else if IsNewer(s.lastPacketTimestamp, packetTimestamp) {
        s.lastPacketTimestamp := packetTimestamp;
      } else {
        return None;
      }
      queued := Some(UdpPacket(s, buffer));
    }

    /** Only the loss of an authenticated connection queues the callback that removes its session. */
    method OnLostConnection(s: Session, state: ClientState) returns (queued: Option<Callback>)
      ensures queued.Some? <==> state == Authenticated
      ensures queued.Some? ==> queued.value == RemoveClient(s)
    {
      queued := None;
      if state == Authenticated {
        queued := Some(RemoveClient(s));
      }
    }

    /** The callbacks the transport handlers queue: packets carry a valid tag and added sessions have an id. */
    ghost predicate WellFormed(c: Callback)
      reads this, ids
    {
      && (c.TcpPacket? ==> c.packet < handlers.Length)
      && (c.AddClient? ==> c.session in ids.issued)
    }

    /** A queued callback running on the main thread; after Stop it does nothing. */
    method RunCallback(c: Callback) returns (effect: Effect)
      requires Valid() && WellFormed(c)
      modifies this`clients
      ensures Valid()
      ensures effect == CallbackEffect(running, handlers[..], c)
      ensures clients == CallbackClients(running, old(clients), c)
    {
      effect := NoEffect;
      if !running {
        return;
      }
      match c
      case AddClient(s) =>
        clients := clients + {s};
        effect := Connected(s);
      case TcpPacket(s, packet, bytes) =>
        var action := handlers[packet];
        if action.Some? {
          effect := TcpHandled(action.value, s, bytes);
        }
      case UdpPacket(s, bytes) =>
        effect := UdpHandled(s, bytes);
      case RemoveClient(s) =>
        clients := clients - {s};
        effect := Disconnected(s);
    }
  }
}
