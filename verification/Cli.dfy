/** The command line protocol: commands and events, printed to a line and parsed
    back. */
module Cli {
  import opened Wrappers
  import opened CliText

  /** How values of a foreign type are written and read. */
  datatype Codec<!T> = Codec(show: T -> string, parse: string -> Option<T>)

  ghost predicate ReadsBack<T(!new)>(c: Codec<T>) {
    forall x :: c.parse(c.show(x)) == Some(x)
  }

  /** Texts have no whitespace, and reading undoes writing. A text may be empty:
      the empty multiaddress is written that way. */
  ghost predicate IsBlankFree<T(!new)>(c: Codec<T>) {
    ReadsBack(c) && forall x :: NoSpace(c.show(x))
  }

  datatype Block<+C> = Block(cid: C, data: seq<Byte>)

  /** The formats of peers, addresses, content ids and peer-info records, and the
      test that content matches its id. */
  datatype Formats<!P, !A, !C, !J> = Formats(
    peer: Codec<P>,
    addr: Codec<A>,
    cid: Codec<C>,
    json: Codec<J>,
    matches: (C, seq<Byte>) -> bool)

  ghost predicate GoodFormats<P(!new), A(!new), C(!new), J(!new)>(f: Formats<P, A, C, J>) {
    IsBlankFree(f.peer) && IsBlankFree(f.addr) && IsBlankFree(f.cid)
  }

  datatype Command<+P, +A, +C> =
    | AddAddress(peer: P, addr: A)
    | Dial(peer: P)
    | PrunePeers
    | Get(cid: C)
    | Insert(block: Block<C>)
    | Alias(alias: string, target: Option<C>)
    | Flush
    | Sync(cid: C)

  datatype Event<+P, +A, +C, +J> =
    | NewListener
    | NewListenAddr(addr: A)
    | ExpiredListenAddr(addr: A)
    | ListenerClosed
    | NewExternalAddr(addr: A)
    | ExpiredExternalAddr(addr: A)
    | Discovered(peer: P)
    | Unreachable(peer: P)
    | Connected(peer: P)
    | Disconnected(peer: P)
    | Subscribed(peer: P, topic: string)
    | Unsubscribed(peer: P, topic: string)
    | BlockEvent(block: Block<C>)
    | Flushed
    | Synced
    | Bootstrapped
    | PeerInfo(peer: P, info: J)
    | PeerRemoved(peer: P)
    | DialFailure(peer: P, addr: A, error: string)
    | ConnectionEstablished(peer: P, addr: A)
    | ConnectionClosed(peer: P, addr: A)

  // ---- Keywords -------------------------------------------------------------

  /** The first words of commands. */
  datatype Verb = IsAddAddress | IsDial | IsPrunePeers | IsGet | IsInsert | IsAlias | IsFlush | IsSync

  function VerbText(w: Verb): string {
    match w
    case IsAddAddress => ">add-address"
    case IsDial => ">dial"
    case IsPrunePeers => ">prune-peers"
    case IsGet => ">get"
    case IsInsert => ">insert"
    case IsAlias => ">alias"
    case IsFlush => ">flush"
    case IsSync => ">sync"
  }

  function VerbOf(s: string): Option<Verb> {
    if s == ">add-address" then Some(IsAddAddress)
    else if s == ">dial" then Some(IsDial)
    else if s == ">prune-peers" then Some(IsPrunePeers)
    else if s == ">get" then Some(IsGet)
    else if s == ">insert" then Some(IsInsert)
    else if s == ">alias" then Some(IsAlias)
    else if s == ">flush" then Some(IsFlush)
    else if s == ">sync" then Some(IsSync)
    else None
  }

  /** The first words of events. */
  datatype Tag =
    | IsNewListener | IsNewListenAddr | IsExpiredListenAddr | IsListenerClosed
    | IsNewExternalAddr | IsExpiredExternalAddr
    | IsDiscovered | IsUnreachable | IsConnected | IsDisconnected
    | IsSubscribed | IsUnsubscribed | IsBlockEvent | IsFlushed | IsSynced | IsBootstrapped
    | IsPeerInfo | IsPeerRemoved | IsDialFailure | IsConnectionEstablished | IsConnectionClosed

  function TagText(w: Tag): string {
    match w
    case IsNewListener => "<new-listener"
    case IsNewListenAddr => "<new-listen-addr"
    case IsExpiredListenAddr => "<expired-listen-addr"
    case IsListenerClosed => "<listener-closed"
    case IsNewExternalAddr => "<new-external-addr"
    case IsExpiredExternalAddr => "<expired-external-addr"
    case IsDiscovered => "<discovered"
    case IsUnreachable => "<unreachable"
    case IsConnected => "<connected"
    case IsDisconnected => "<disconnected"
    case IsSubscribed => "<subscribed"
    case IsUnsubscribed => "<unsubscribed"
    case IsBlockEvent => "<block"
    case IsFlushed => "<flushed"
    case IsSynced => "<synced"
    case IsBootstrapped => "<bootstrapped"
    case IsPeerInfo => "<peer-info"
    case IsPeerRemoved => "<peer-removed"
    case IsDialFailure => "<dial-failure"
    case IsConnectionEstablished => "<connection-established"
    case IsConnectionClosed => "<connection-closed"
  }

  function TagOf(s: string): Option<Tag> {
    if s == "<new-listener" then Some(IsNewListener)
    else if s == "<new-listen-addr" then Some(IsNewListenAddr)
    else if s == "<expired-listen-addr" then Some(IsExpiredListenAddr)
    else if s == "<listener-closed" then Some(IsListenerClosed)
    else if s == "<new-external-addr" then Some(IsNewExternalAddr)
    else if s == "<expired-external-addr" then Some(IsExpiredExternalAddr)
    else if s == "<discovered" then Some(IsDiscovered)
    else if s == "<unreachable" then Some(IsUnreachable)
    else if s == "<connected" then Some(IsConnected)
    else if s == "<disconnected" then Some(IsDisconnected)
    else if s == "<subscribed" then Some(IsSubscribed)
    else if s == "<unsubscribed" then Some(IsUnsubscribed)
    else if s == "<block" then Some(IsBlockEvent)
    else if s == "<flushed" then Some(IsFlushed)
    else if s == "<synced" then Some(IsSynced)
    else if s == "<bootstrapped" then Some(IsBootstrapped)
    else if s == "<peer-info" then Some(IsPeerInfo)
    else if s == "<peer-removed" then Some(IsPeerRemoved)
    else if s == "<dial-failure" then Some(IsDialFailure)
    else if s == "<connection-established" then Some(IsConnectionEstablished)
    else if s == "<connection-closed" then Some(IsConnectionClosed)
    else None
  }

  // ---- Printing -------------------------------------------------------------

  function VerbOfCommand<P, A, C>(c: Command<P, A, C>): Verb {
    match c
    case AddAddress(_, _) => IsAddAddress
    case Dial(_) => IsDial
    case PrunePeers => IsPrunePeers
    case Get(_) => IsGet
    case Insert(_) => IsInsert
    case Alias(_, _) => IsAlias
    case Flush => IsFlush
    case Sync(_) => IsSync
  }

  function CommandArgs<P, A, C, J>(f: Formats<P, A, C, J>, c: Command<P, A, C>): seq<string> {
    match c
    case AddAddress(peer, addr) => [f.peer.show(peer), f.addr.show(addr)]
    case Dial(peer) => [f.peer.show(peer)]
    case PrunePeers => []
    case Get(cid) => [f.cid.show(cid)]
    case Insert(block) => [f.cid.show(block.cid), HexOf(block.data)]
    case Alias(alias, target) => if target.Some? then [alias, f.cid.show(target.value)] else [alias]
    case Flush => []
    case Sync(cid) => [f.cid.show(cid)]
  }

  function PrintCommand<P, A, C, J>(f: Formats<P, A, C, J>, c: Command<P, A, C>): string {
    Join([VerbText(VerbOfCommand(c))] + CommandArgs(f, c))
  }

  function TagOfEvent<P, A, C, J>(e: Event<P, A, C, J>): Tag {
    match e
    case NewListener => IsNewListener
    case NewListenAddr(_) => IsNewListenAddr
    case ExpiredListenAddr(_) => IsExpiredListenAddr
    case ListenerClosed => IsListenerClosed
    case NewExternalAddr(_) => IsNewExternalAddr
    case ExpiredExternalAddr(_) => IsExpiredExternalAddr
    case Discovered(_) => IsDiscovered
    case Unreachable(_) => IsUnreachable
    case Connected(_) => IsConnected
    case Disconnected(_) => IsDisconnected
    case Subscribed(_, _) => IsSubscribed
    case Unsubscribed(_, _) => IsUnsubscribed
    case BlockEvent(_) => IsBlockEvent
    case Flushed => IsFlushed
    case Synced => IsSynced
    case Bootstrapped => IsBootstrapped
    case PeerInfo(_, _) => IsPeerInfo
    case PeerRemoved(_) => IsPeerRemoved
    case DialFailure(_, _, _) => IsDialFailure
    case ConnectionEstablished(_, _) => IsConnectionEstablished
    case ConnectionClosed(_, _) => IsConnectionClosed
  }

  function EventArgs<P, A, C, J>(f: Formats<P, A, C, J>, e: Event<P, A, C, J>): seq<string> {
    match e
    case NewListener => []
    case NewListenAddr(addr) => [f.addr.show(addr)]
    case ExpiredListenAddr(addr) => [f.addr.show(addr)]
    case ListenerClosed => []
    case NewExternalAddr(addr) => [f.addr.show(addr)]
    case ExpiredExternalAddr(addr) => [f.addr.show(addr)]
    case Discovered(peer) => [f.peer.show(peer)]
    case Unreachable(peer) => [f.peer.show(peer)]
    case Connected(peer) => [f.peer.show(peer)]
    case Disconnected(peer) => [f.peer.show(peer)]
    case Subscribed(peer, topic) => [f.peer.show(peer), topic]
    case Unsubscribed(peer, topic) => [f.peer.show(peer), topic]
    case BlockEvent(block) => [f.cid.show(block.cid), HexOf(block.data)]
    case Flushed => []
    case Synced => []
    case Bootstrapped => []
    case PeerInfo(peer, info) => [f.peer.show(peer), f.json.show(info)]
    case PeerRemoved(peer) => [f.peer.show(peer)]
    case DialFailure(peer, addr, error) => [f.peer.show(peer), f.addr.show(addr), error]
    case ConnectionEstablished(peer, addr) => [f.peer.show(peer), f.addr.show(addr)]
    case ConnectionClosed(peer, addr) => [f.peer.show(peer), f.addr.show(addr)]
  }

  function PrintEvent<P, A, C, J>(f: Formats<P, A, C, J>, e: Event<P, A, C, J>): string {
    Join([TagText(TagOfEvent(e))] + EventArgs(f, e))
  }

  // ---- Parsing --------------------------------------------------------------

  /** `Panic` is an `unwrap` on a missing field. */
  datatype Parsed<+T> = Ok(value: T) | Err | Panic
  {
    predicate IsFailure() { !Ok? }
    function PropagateFailure<U>(): Parsed<U>
      requires IsFailure()
    {
      if Err? then Err else Panic
    }
    function Extract(): T
      requires !IsFailure()
    {
      value
    }
  }

  /** `parts.next().unwrap().parse()?` */
  function Field<T>(c: Codec<T>, parts: seq<string>, i: nat): Parsed<T> {
    if i >= |parts| then Panic
    else match c.parse(parts[i])
      case Some(v) => Ok(v)
      case None => Err
  }

  /** `parts.next().unwrap().to_string()` */
  function Word(parts: seq<string>, i: nat): Parsed<string> {
    if i >= |parts| then Panic else Ok(parts[i])
  }

  /** A content id and hexadecimal data, checked by `Block::new`. */
  function BlockField<P, A, C, J>(f: Formats<P, A, C, J>, parts: seq<string>): Parsed<Block<C>> {
    var cid :- Field(f.cid, parts, 1);
    var text :- Word(parts, 2);
    match BytesOf(text)
    case None => Err
    case Some(data) => if f.matches(cid, data) then Ok(Block(cid, data)) else Err
  }

  /** The fields after a known first word. */
  function CommandBody<P, A, C, J>(f: Formats<P, A, C, J>, verb: Verb, parts: seq<string>): Parsed<Command<P, A, C>> {
    match verb
    case IsAddAddress =>
      var peer :- Field(f.peer, parts, 1);
      var addr :- Field(f.addr, parts, 2);
      Ok(AddAddress(peer, addr))
    case IsDial => var peer :- Field(f.peer, parts, 1); Ok(Dial(peer))
    case IsPrunePeers => Ok(PrunePeers)
    case IsGet => var cid :- Field(f.cid, parts, 1); Ok(Get(cid))
    case IsInsert => var block :- BlockField(f, parts); Ok(Insert(block))
    case IsAlias =>
      var alias :- Word(parts, 1);
      if |parts| > 2 then var cid :- Field(f.cid, parts, 2); Ok(Alias(alias, Some(cid)))
      else Ok(Alias(alias, None))
    case IsFlush => Ok(Flush)
    case IsSync => var cid :- Field(f.cid, parts, 1); Ok(Sync(cid))
  }

  function ParseCommand<P, A, C, J>(f: Formats<P, A, C, J>, s: string): Parsed<Command<P, A, C>> {
    var parts := Tokens(s);
    if parts == [] then Err
    else match VerbOf(parts[0])
      case None => Err
      case Some(verb) => CommandBody(f, verb, parts)
  }

  /** The fields after a known first word. */
  function EventBody<P, A, C, J>(f: Formats<P, A, C, J>, tag: Tag, parts: seq<string>): Parsed<Event<P, A, C, J>> {
    match tag
    case IsNewListener => Ok(NewListener)
    case IsNewListenAddr => var addr :- Field(f.addr, parts, 1); Ok(NewListenAddr(addr))
    case IsExpiredListenAddr => var addr :- Field(f.addr, parts, 1); Ok(ExpiredListenAddr(addr))
    case IsListenerClosed => Ok(ListenerClosed)
    case IsNewExternalAddr => var addr :- Field(f.addr, parts, 1); Ok(NewExternalAddr(addr))
    case IsExpiredExternalAddr => var addr :- Field(f.addr, parts, 1); Ok(ExpiredExternalAddr(addr))
    case IsDiscovered => var peer :- Field(f.peer, parts, 1); Ok(Discovered(peer))
    case IsUnreachable => var peer :- Field(f.peer, parts, 1); Ok(Unreachable(peer))
    case IsConnected => var peer :- Field(f.peer, parts, 1); Ok(Connected(peer))
    case IsDisconnected => var peer :- Field(f.peer, parts, 1); Ok(Disconnected(peer))
    case IsSubscribed =>
      var peer :- Field(f.peer, parts, 1);
      var topic :- Word(parts, 2);
      Ok(Subscribed(peer, topic))
    case IsUnsubscribed =>
      var peer :- Field(f.peer, parts, 1);
      var topic :- Word(parts, 2);
      Ok(Unsubscribed(peer, topic))
    case IsBlockEvent => var block :- BlockField(f, parts); Ok(BlockEvent(block))
    case IsFlushed => Ok(Flushed)
    case IsSynced => Ok(Synced)
    case IsBootstrapped => Ok(Bootstrapped)
    case IsPeerInfo =>
      var peer :- Field(f.peer, parts, 1);
      var info :- Field(f.json, [Join(parts[2..])], 0);
      Ok(PeerInfo(peer, info))
    case IsPeerRemoved => var peer :- Field(f.peer, parts, 1); Ok(PeerRemoved(peer))
    case IsDialFailure =>
      var peer :- Field(f.peer, parts, 1);
      var addr :- Field(f.addr, parts, 2);
      Ok(DialFailure(peer, addr, Join(parts[3..])))
    case IsConnectionEstablished =>
      var peer :- Field(f.peer, parts, 1);
      var addr :- Field(f.addr, parts, 2);
      Ok(ConnectionEstablished(peer, addr))
    case IsConnectionClosed =>
      var peer :- Field(f.peer, parts, 1);
      var addr :- Field(f.addr, parts, 2);
      Ok(ConnectionClosed(peer, addr))
  }

  function ParseEvent<P, A, C, J>(f: Formats<P, A, C, J>, s: string): Parsed<Event<P, A, C, J>> {
    var parts := Tokens(s);
    if parts == [] then Err
    else match TagOf(parts[0])
      case None => Err
      case Some(tag) => EventBody(f, tag, parts)
  }
}
