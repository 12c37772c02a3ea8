/** The address book as a state machine over values. Every handler is a function
    from a book to the next one; the clock and the iteration order of hash
    tables are arguments. Class `AddressBook` is proved against these functions,
    and the theorems about whole runs are about them. */
module Books {
  import opened Wrappers
  import opened Orders
  import opened Multiaddrs
  import opened Rtts
  import opened PeerInfos

  const SIM_OPEN_RETRIES: nat := 10
  const IDENTIFY_RETRIES: nat := 4
  const SECOND: Duration := 1_000_000_000

  /** The payload of a validation dial's handler: the address under test, and
      how often the dial may be repeated after a TCP simultaneous open. */
  datatype OwnDial = OwnDial(addr: Multiaddr, retries: nat)

  /** A dial request to the swarm. Without `addresses` the swarm asks the book
      for the peer's confirmed addresses. `always` is `PeerCondition::Always`. */
  datatype DialAction = DialAction(
    peer: PeerId,
    addresses: Option<seq<Multiaddr>>,
    always: bool,
    own: Option<OwnDial>,
    keepAlive: bool)

  function PlainDial(peer: PeerId, keepAlive: bool): DialAction {
    DialAction(peer, None, false, None, keepAlive)
  }

  /** A dial that tests one address of a peer. */
  function Probe(peer: PeerId, full: Multiaddr, retries: nat): DialAction {
    DialAction(peer, Some([Pop(full)]), true, Some(OwnDial(full, retries)), false)
  }

  function Redial(peer: PeerId, addr: Multiaddr, retries: nat, keepAlive: bool): DialAction {
    DialAction(peer, Some([addr]), false, Some(OwnDial(addr, retries)), keepAlive)
  }

  /** One failed address of a dial. Whether the error is the one caused by a TCP
      simultaneous open is decided outside this model. */
  datatype Fault = Fault(addr: Multiaddr, simOpen: bool)

  datatype DialFault =
    | Transport(faults: seq<Fault>)
    | WrongPeerId
    | ConnectionIo
    | DialPeerConditionFalse
    | Banned
    | LocalPeerId
    | OtherFault
  {
    predicate IsSimOpen() {
      Transport? && exists i :: 0 <= i < |faults| && faults[i].simOpen
    }

    /** Does this outcome say something about the dialled address? */
    predicate IsProbeResult() {
      Transport? || WrongPeerId? || ConnectionIo?
    }
  }

  datatype CloseReason = HandlerFault | IoFault | KeepAliveTimeout | WeClosed

  type ListenerId = nat

  datatype Event =
    | NewListener(id: ListenerId)
    | NewListenAddr(id: ListenerId, addr: Multiaddr)
    | ExpiredListenAddr(id: ListenerId, addr: Multiaddr)
    | ListenerError(id: ListenerId)
    | ListenerClosed(id: ListenerId)
    | NewExternalAddr(addr: Multiaddr)
    | ExpiredExternalAddr(addr: Multiaddr)
    | Discovered(peer: PeerId)
    | DialFailure(peer: PeerId, addr: Multiaddr)
    | Unreachable(peer: PeerId)
    | ConnectionEstablished(peer: PeerId, cp: ConnectedPoint)
    | ConnectionClosed(peer: PeerId, cp: ConnectedPoint)
    | AddressChanged(peer: PeerId, old_: ConnectedPoint, new_: ConnectedPoint)
    | Connected(peer: PeerId)
    | Disconnected(peer: PeerId)
    | NewInfo(peer: PeerId)

  datatype Config = Config(local: PeerId, portReuse: bool, enableLoopback: bool, keepAlive: bool)

  datatype Book = Book(
    cfg: Config,
    listeners: set<Multiaddr>,
    peers: map<PeerId, Info>,
    actions: seq<DialAction>,
    deferred: seq<DialAction>,
    events: seq<Event>)
  {
    /** `entry(peer).or_default()` */
    function InfoOf(peer: PeerId): Info {
      if peer in peers then peers[peer] else DefaultInfo()
    }
  }

  function EmptyBook(cfg: Config): Book {
    Book(cfg, {}, map[], [], [], [])
  }

  // ---- Dialling -------------------------------------------------------------

  function RequestDial(b: Book, peer: PeerId): Book {
    if peer == b.cfg.local then b else b.(actions := b.actions + [PlainDial(peer, b.cfg.keepAlive)])
  }

  function RequestDialAddress(b: Book, peer: PeerId, addr: Multiaddr): Book {
    if peer == b.cfg.local then b
    else
      var target := Normalize(addr, peer);
      var dial := DialAction(peer, Some([addr]), false, Some(OwnDial(target, SIM_OPEN_RETRIES + 1)), b.cfg.keepAlive);
      b.(peers := b.peers[peer := b.InfoOf(peer)],
      actions := if target in b.InfoOf(peer).connections then b.actions else b.actions + [dial])
  }

  // ---- Addresses ------------------------------------------------------------

  /** Addresses that `add_address` turns down without a trace. */
  predicate Refused(b: Book, peer: PeerId, addr: Multiaddr) {
    || peer == b.cfg.local
    || (!b.cfg.enableLoopback && IsLoopback(addr))
    || Pop(Normalize(addr, peer)) in b.listeners
  }

  function AddAddress(b: Book, peer: PeerId, addr: Multiaddr, source: AddressSource, now: Time): Book {
    if Refused(b, peer, addr) then b
    else
      var full := Normalize(addr, peer);
      var info := b.InfoOf(peer);
      var probe := info.WantsProbe(full, source) && full !in info.connections;
      var discovered := !info.HasConfirmed() && source.IsConfirmed();
      b.(peers := b.peers[peer := info.Ingest(full, source, now)],
      actions := if probe then b.actions + [Probe(peer, full, SIM_OPEN_RETRIES + 1)] else b.actions,
      events := (if discovered then b.events + [Discovered(peer)] else b.events) + [NewInfo(peer)])
  }

  function RemoveAddress(b: Book, peer: PeerId, addr: Multiaddr): Book {
    if peer !in b.peers then b
    else b.(peers := b.peers[peer := b.peers[peer].(addresses := b.peers[peer].addresses - {Normalize(addr, peer)})])
  }

  // ---- Pruning --------------------------------------------------------------

  /** `diff_time`: clock differences are cut off at zero. */
  function DiffTime(former: Time, latter: Time): Duration {
    if latter < former then 0 else latter - former
  }

  function MaxDuration(d: Duration, e: Duration): Duration {
    if d < e then e else d
  }

  predicate KeepsPeer(entry: Entry, minAge: Duration, now: Time) {
    || entry.source.IsConfirmed()
    || (entry.source.IsToProbe() && DiffTime(entry.seen, now) < MaxDuration(minAge, 10 * SECOND))
  }

  predicate IsPrunable(info: Info, minAge: Duration, now: Time) {
    && info.connections == map[]
    && (info.failures != [] ==> DiffTime(info.failures[0].time, now) >= minAge)
    && (forall a :: a in info.addresses ==> !KeepsPeer(info.addresses[a], minAge, now))
  }

  function Prunable(b: Book, minAge: Duration, now: Time): set<PeerId> {
    set p | p in b.peers && IsPrunable(b.peers[p], minAge, now)
  }

  function NewInfos(ps: seq<PeerId>): (es: seq<Event>)
    ensures |es| == |ps|
    ensures forall i :: 0 <= i < |ps| ==> es[i] == NewInfo(ps[i])
  {
    seq(|ps|, i requires 0 <= i < |ps| => NewInfo(ps[i]))
  }

  /** `order` is the order in which the peers were visited. */
  function Prune(b: Book, minAge: Duration, now: Time, order: seq<PeerId>): Book {
    b.(peers := b.peers - Prunable(b, minAge, now), events := b.events + NewInfos(order))
  }

  // ---- Ping and Identify ----------------------------------------------------

  function SetPeerRtt(b: Book, peer: PeerId, ping: Option<Duration>): Book {
    if peer !in b.peers then b
    else b.(peers := b.peers[peer := b.peers[peer].(rtt := SetRtt(b.peers[peer].rtt, ping))],
         events := b.events + [NewInfo(peer)])
  }

  datatype Identify = Identify(
    protocolVersion: string,
    agentVersion: string,
    protocols: seq<string>,
    listenAddrs: seq<Multiaddr>)

  /** The advertised sockets that are not the far end of a current connection. */
  function ListenSockets(info: Info, peer: PeerId, advertised: seq<Multiaddr>): seq<Socket> {
    if advertised == [] then []
    else
      var a := advertised[|advertised| - 1];
      ListenSockets(info, peer, advertised[..|advertised| - 1])
      + (if Normalize(a, peer) !in info.connections && IpPort(a).Some? then [IpPort(a).value] else [])
  }

  /** The guesses for one incoming address: its same-host listen ports, else all
      advertised ports on its host, else the address itself. */
  function Guesses(addr: Multiaddr, sockets: seq<Socket>): set<Multiaddr> {
    if IpPort(addr).None? then {}
    else
      var ip := IpPort(addr).value.ip;
      var sameHost := set s | s in sockets && s.ip == ip :: WithPort(addr, s.port);
      if sameHost != {} then sameHost
      else
        var anyHost := set s | s in sockets :: WithPort(addr, s.port);
        if anyHost != {} then anyHost else {addr}
  }

  function ToTranslate(info: Info): set<Multiaddr> {
    set a | a in info.addresses && info.addresses[a].source.IsToTranslate()
  }

  function Translated(info: Info, sockets: seq<Socket>): set<Multiaddr> {
    set a, t | a in ToTranslate(info) && t in Guesses(a, sockets) :: t
  }

  /** The advertised addresses themselves, in normalized form. */
  function Advertised(cfg: Config, peer: PeerId, advertised: seq<Multiaddr>): set<Multiaddr> {
    set a | a in advertised && (cfg.enableLoopback || !IsLoopback(a)) :: Normalize(a, peer)
  }

  function IdentifyCandidates(cfg: Config, info: Info, peer: PeerId, advertised: seq<Multiaddr>): set<Multiaddr> {
    Translated(info, ListenSockets(info, peer, advertised)) + Advertised(cfg, peer, advertised)
  }

  function WithoutIncoming(addresses: map<Multiaddr, Entry>): map<Multiaddr, Entry> {
    map a | a in addresses && !addresses[a].source.IsToTranslate() :: addresses[a]
  }

  function IngestCandidate(info: Info, addr: Multiaddr, portReuse: bool, ours: set<Multiaddr>, now: Time): Info {
    if Pop(addr) in ours then info
    else
      var listed := info.Ingest(addr, Listen, now);
      if info.WantsProbe(addr, Listen) && portReuse && addr in info.connections
      then listed.Ingest(addr, Candidate, now) else listed
  }

  predicate ProbesCandidate(info: Info, addr: Multiaddr, portReuse: bool, ours: set<Multiaddr>) {
    && Pop(addr) !in ours
    && info.WantsProbe(addr, Listen)
    && !(portReuse && addr in info.connections)
  }

  function IngestCandidates(info: Info, order: seq<Multiaddr>, portReuse: bool, ours: set<Multiaddr>, now: Time): Info {
    if order == [] then info
    else
      IngestCandidate(IngestCandidates(info, order[..|order| - 1], portReuse, ours, now),
                      order[|order| - 1], portReuse, ours, now)
  }

  function CandidateProbes(info: Info, peer: PeerId, order: seq<Multiaddr>, portReuse: bool, ours: set<Multiaddr>,
                           now: Time): seq<DialAction> {
    if order == [] then []
    else
      var init, a := order[..|order| - 1], order[|order| - 1];
      CandidateProbes(info, peer, init, portReuse, ours, now)
      + (if ProbesCandidate(IngestCandidates(info, init, portReuse, ours, now), a, portReuse, ours)
         then [Probe(peer, a, IDENTIFY_RETRIES)] else [])
  }

  /** The record just before the candidates are ingested. */
  function Identified(info: Info, id: Identify): Info {
    info.(protocolVersion := Some(id.protocolVersion), agentVersion := Some(id.agentVersion),
    protocols := id.protocols, listeners := id.listenAddrs,
    addresses := WithoutIncoming(info.addresses))
  }

  /** `set_info`; `order` is the order in which the candidates were visited. */
  function SetInfo(b: Book, peer: PeerId, id: Identify, now: Time, order: seq<Multiaddr>): Book {
    if peer !in b.peers then b
    else
      var info := Identified(b.peers[peer], id);
      b.(peers := b.peers[peer := IngestCandidates(info, order, b.cfg.portReuse, b.listeners, now)],
      actions := b.actions + CandidateProbes(info, peer, order, b.cfg.portReuse, b.listeners, now),
      events := b.events + [NewInfo(peer)])
  }

  // ---- Connections ----------------------------------------------------------

  function SourceOf(cp: ConnectedPoint): AddressSource {
    if cp.Dialer? then Dial else Incoming
  }

  function DirectionOf(cp: ConnectedPoint): Direction {
    if cp.Dialer? then Outbound else Inbound
  }

  function Connect(b: Book, peer: PeerId, cp: ConnectedPoint, other: nat, now: Time): Book {
    var conn := NormalizePoint(cp, b.cfg.local, peer);
    var addr := conn.RemoteAddress();
    var b1 := AddAddress(b, peer, addr, SourceOf(conn), now);
    var info := b1.InfoOf(peer);
    b1.(peers := b1.peers[peer := info.(connections := info.connections[addr := Connection(now, DirectionOf(conn))])],
    events := (if other == 0 then b1.events + [Connected(peer)] else b1.events) + [ConnectionEstablished(peer, conn)])
  }

  function ChangeAddress(b: Book, peer: PeerId, before: ConnectedPoint, after: ConnectedPoint, now: Time): Book {
    var oldConn := NormalizePoint(before, b.cfg.local, peer);
    var newConn := NormalizePoint(after, b.cfg.local, peer);
    var b1 := AddAddress(b, peer, newConn.RemoteAddress(), SourceOf(newConn), now);
    var info := b1.InfoOf(peer);
    var left := info.connections - {oldConn.RemoteAddress()};
    var moved := left[newConn.RemoteAddress() := Connection(now, DirectionOf(newConn))];
    b1.(peers := b1.peers[peer := info.(connections := moved)],
    events := b1.events + [AddressChanged(peer, oldConn, newConn)])
  }

  function Disconnect(b: Book, peer: PeerId, cp: ConnectedPoint, left: nat, reason: CloseReason, now: Time): Book {
    var conn := NormalizePoint(cp, b.cfg.local, peer);
    var addr := conn.RemoteAddress();
    var info := b.InfoOf(peer);
    var kind := if reason.IoFault? then PeerDisconnected else WeDisconnected;
    var closed := b.events + [ConnectionClosed(peer, conn)];
    b.(peers := b.peers[peer := info.(connections := info.connections - {addr})
                                    .PushFailure(addr, ConnectionFailure(kind, WithoutPeerId(addr), now), false)],
    events := (if left == 0 then closed + [Disconnected(peer)] else closed) + [NewInfo(peer)])
  }

  // ---- Dial failures --------------------------------------------------------

  /** The peer a failed dial is booked on: the one named by the address under
      test, else the one that was dialled. */
  function BlamedPeer(peer: Option<PeerId>, own: Option<OwnDial>): Option<PeerId> {
    if own.Some? && PeerIdOf(own.value.addr).Some? then PeerIdOf(own.value.addr) else peer
  }

  /** Dial failures strip the peer twice on the way to the record. */
  function DialRecord(addr: Multiaddr, now: Time): ConnectionFailure {
    ConnectionFailure(DialError, WithoutPeerId(WithoutPeerId(addr)), now)
  }

  function FailValidation(b: Book, peer: PeerId, own: OwnDial, keepAlive: bool, error: DialFault, now: Time): Book
    requires peer in b.peers
  {
    var info := b.peers[peer].PushFailure(own.addr, DialRecord(own.addr, now), error.IsProbeResult());
    var cleared := if error.WrongPeerId? then info.(addresses := info.addresses - {own.addr}) else info;
    b.(peers := b.peers[peer := cleared],
    deferred := if error.IsSimOpen() && own.retries > 0
    then b.deferred + [Redial(peer, own.addr, own.retries - 1, keepAlive)] else b.deferred,
    events := b.events + [DialFailure(peer, own.addr)] + [NewInfo(peer)])
  }

  function PushFaults(info: Info, peer: PeerId, faults: seq<Fault>, now: Time): Info {
    if faults == [] then info
    else
      var f := faults[|faults| - 1];
      PushFaults(info, peer, faults[..|faults| - 1], now)
        .PushFailure(Normalize(f.addr, peer), DialRecord(f.addr, now), true)
  }

  function FaultRedials(peer: PeerId, faults: seq<Fault>, keepAlive: bool): seq<DialAction> {
    if faults == [] then []
    else
      var f := faults[|faults| - 1];
      FaultRedials(peer, faults[..|faults| - 1], keepAlive)
      + (if f.simOpen then [Redial(peer, f.addr, SIM_OPEN_RETRIES, keepAlive)] else [])
  }

  function FaultEvents(peer: PeerId, faults: seq<Fault>): (es: seq<Event>)
    ensures |es| == |faults|
    ensures forall i :: 0 <= i < |faults| ==> es[i] == DialFailure(peer, faults[i].addr)
  {
    seq(|faults|, i requires 0 <= i < |faults| => DialFailure(peer, faults[i].addr))
  }

  function FailPlain(b: Book, peer: PeerId, faults: seq<Fault>, now: Time): Book
    requires peer in b.peers
  {
    var redials := FaultRedials(peer, faults, b.cfg.keepAlive);
    var reported := b.events + FaultEvents(peer, faults);
    b.(peers := b.peers[peer := PushFaults(b.peers[peer], peer, faults, now)],
    deferred := b.deferred + redials,
    events := (if redials == [] then reported + [Unreachable(peer)] else reported) + [NewInfo(peer)])
  }

  function FailDial(b: Book, peer: Option<PeerId>, own: Option<OwnDial>, keepAlive: bool, error: DialFault,
                    now: Time): Book {
    var blamed := BlamedPeer(peer, own);
    if blamed.None? || blamed.value !in b.peers then b
    else if own.Some? then FailValidation(b, blamed.value, own.value, keepAlive, error, now)
    else match error
      case Transport(faults) => FailPlain(b, blamed.value, faults, now)
      case DialPeerConditionFalse => b
      case Banned => b
      case LocalPeerId => b
      case _ => b.(events := b.events + [Unreachable(blamed.value)])
  }

  // ---- Polling --------------------------------------------------------------

  predicate CanPoll(b: Book, k: nat) {
    b.actions != [] || k < |b.deferred|
  }

  /** Queued actions go first; of the deferred dials any may have its timer
      elapse first. */
  function PollDial(b: Book, k: nat): DialAction
    requires CanPoll(b, k)
  {
    if b.actions != [] then b.actions[0] else b.deferred[k]
  }

  function PollRest(b: Book, k: nat): Book
    requires CanPoll(b, k)
  {
    if b.actions != [] then b.(actions := b.actions[1..])
    else b.(deferred := b.deferred[..k] + b.deferred[k + 1..])
  }

  // ---- The state machine ----------------------------------------------------

  datatype Step =
    | CallDial(peer: PeerId)
    | CallDialAddress(peer: PeerId, addr: Multiaddr)
    | CallAddAddress(peer: PeerId, addr: Multiaddr, source: AddressSource, now: Time)
    | CallRemoveAddress(peer: PeerId, addr: Multiaddr)
    | CallPrune(minAge: Duration, now: Time, pruned: seq<PeerId>)
    | Pinged(peer: PeerId, ping: Option<Duration>)
    | GotIdentify(peer: PeerId, id: Identify, now: Time, order: seq<Multiaddr>)
    | GotConnection(peer: PeerId, cp: ConnectedPoint, other: nat, now: Time)
    | GotAddressChange(peer: PeerId, before: ConnectedPoint, after: ConnectedPoint, now: Time)
    | GotClose(peer: PeerId, cp: ConnectedPoint, left: nat, reason: CloseReason, now: Time)
    | GotDialFailure(blame: Option<PeerId>, own: Option<OwnDial>, keepAlive: bool, error: DialFault, now: Time)
    | GotListenAddr(listener: ListenerId, listen: Multiaddr)
    | LostListenAddr(listener: ListenerId, listen: Multiaddr)
    | Notice(event: Event)
    | Poll(k: nat)

  /** Which steps can be taken. Only hash-table orders, the deferred index and
      the plain notifications are constrained; the swarm may do as it likes. */
  predicate Enabled(b: Book, s: Step) {
    match s
    case CallPrune(minAge, now, pruned) => Enumerates(pruned, Prunable(b, minAge, now))
    case GotIdentify(peer, id, _, order) =>
      peer in b.peers ==> Enumerates(order, IdentifyCandidates(b.cfg, b.peers[peer], peer, id.listenAddrs))
    case Notice(event) =>
      || event.NewListener? || event.ListenerError? || event.ListenerClosed?
      || event.NewExternalAddr? || event.ExpiredExternalAddr?
    case Poll(k) => CanPoll(b, k)
    case _ => true
  }

  function Next(b: Book, s: Step): Book
    requires Enabled(b, s)
  {
    match s
    case CallDial(peer) => RequestDial(b, peer)
    case CallDialAddress(peer, addr) => RequestDialAddress(b, peer, addr)
    case CallAddAddress(peer, addr, source, now) => AddAddress(b, peer, addr, source, now)
    case CallRemoveAddress(peer, addr) => RemoveAddress(b, peer, addr)
    case CallPrune(minAge, now, pruned) => Prune(b, minAge, now, pruned)
    case Pinged(peer, ping) => SetPeerRtt(b, peer, ping)
    case GotIdentify(peer, id, now, order) => SetInfo(b, peer, id, now, order)
    case GotConnection(peer, cp, other, now) => Connect(b, peer, cp, other, now)
    case GotAddressChange(peer, before, after, now) => ChangeAddress(b, peer, before, after, now)
    case GotClose(peer, cp, left, reason, now) => Disconnect(b, peer, cp, left, reason, now)
    case GotDialFailure(blame, own, keepAlive, error, now) => FailDial(b, blame, own, keepAlive, error, now)
    case GotListenAddr(id, listen) =>
      b.(listeners := b.listeners + {listen}, events := b.events + [NewListenAddr(id, listen)])
    case LostListenAddr(id, listen) =>
      b.(listeners := b.listeners - {listen}, events := b.events + [ExpiredListenAddr(id, listen)])
    case Notice(event) => b.(events := b.events + [event])
    case Poll(k) => PollRest(b, k)
  }

  /** A run: the books passed through and the steps between them. */
  datatype Run = Run(books: seq<Book>, steps: seq<Step>)
  {
    predicate Valid() {
      && |books| == |steps| + 1
      && forall i :: 0 <= i < |steps| ==> Enabled(books[i], steps[i]) && books[i + 1] == Next(books[i], steps[i])
    }
  }

  // ---- Views used in the theorems -------------------------------------------

  function AddressesOf(b: Book, peer: PeerId): map<Multiaddr, Entry> {
    b.InfoOf(peer).addresses
  }

  function ConnectionsOf(b: Book, peer: PeerId): map<Multiaddr, Connection> {
    b.InfoOf(peer).connections
  }

  predicate Stored(b: Book, peer: PeerId, addr: Multiaddr) {
    addr in AddressesOf(b, peer)
  }

  function SourceIn(b: Book, peer: PeerId, addr: Multiaddr): AddressSource
    requires Stored(b, peer, addr)
  {
    AddressesOf(b, peer)[addr].source
  }
}
