/** Printing a command or an event and parsing the line gives it back, exactly
    when its texts survive the split into words. */
module CliTheorems {
  import opened Wrappers
  import opened CliText
  import opened Cli

  // ---- Lines ----------------------------------------------------------------

  /** The words of a line: its keyword, and the words of its arguments. */
  lemma LineTokens(word: string, args: seq<string>)
    requires IsToken(word)
    ensures Tokens(Join([word] + args)) == [word] + TokensOfAll(args)
  {
    TokensOfJoin([word] + args);
    TokensOfToken(word);
    assert ([word] + args)[1..] == args;
  }

  lemma LineOf1(word: string, x: string)
    requires IsToken(word)
    ensures Tokens(Join([word] + [x])) == [word] + Tokens(x)
  {
    LineTokens(word, [x]);
    assert [x][1..] == [];
    assert TokensOfAll([]) == [];
  }

  lemma ThreeFields(x: string, y: string, z: string)
    ensures Tokens(Join([x] + [y, z])) == Tokens(x) + Tokens(y) + Tokens(z)
  {
    JoinFirst(x, [y, z]);
    JoinFirst(y, [z]);
    assert [y, z] == [y] + [z];
    TokensOfTwo(x, Join([y, z]));
    TokensOfTwo(y, z);
  }

  lemma LineOf2(word: string, x: string, y: string)
    requires IsToken(word)
    ensures Tokens(Join([word] + [x, y])) == [word] + Tokens(x) + Tokens(y)
  {
    ThreeFields(word, x, y);
    TokensOfToken(word);
  }

  lemma LineOfRest(word: string, fields: seq<string>)
    requires IsToken(word) && fields != []
    ensures Tokens(Join([word] + fields)) == [word] + Tokens(Join(fields))
  {
    JoinFirst(word, fields);
    TokensOfLastWord(word, Join(fields));
  }

  lemma Regroup(w: seq<string>, x: seq<string>, y: seq<string>, z: seq<string>)
    ensures w + (x + y + z) == w + x + y + z
  {
  }

  lemma LineOf3(word: string, x: string, y: string, z: string)
    requires IsToken(word)
    ensures Tokens(Join([word] + [x, y, z])) == [word] + Tokens(x) + Tokens(y) + Tokens(z)
  {
    LineOfRest(word, [x, y, z]);
    assert [x, y, z] == [x] + [y, z];
    ThreeFields(x, y, z);
    Regroup([word], Tokens(x), Tokens(y), Tokens(z));
  }

  // Lines with fields that have no whitespace, but may be empty.

  lemma OneField(word: string, x: string)
    requires IsToken(word) && NoSpace(x)
    ensures Tokens(Join([word] + [x])) == if x == "" then [word] else [word, x]
  {
    LineOf1(word, x);
    TokensOfToken(x);
  }

  lemma TwoFields(word: string, x: string, y: string)
    requires IsToken(word) && NoSpace(x) && NoSpace(y)
    ensures var parts := Tokens(Join([word] + [x, y]));
            if x != "" && y != "" then parts == [word, x, y] else |parts| < 3
  {
    LineOf2(word, x, y);
    TokensOfToken(x);
    TokensOfToken(y);
  }

  /** A last field of any text comes back as a word or not at all. */
  lemma FieldAndText(word: string, x: string, text: string)
    requires IsToken(word) && NoSpace(x)
    ensures var parts := Tokens(Join([word] + [x, text]));
            if x != "" && IsToken(text) then parts == [word, x, text] else |parts| < 3 || parts[2] != text
  {
    var parts := Tokens(Join([word] + [x, text]));
    LineOf2(word, x, text);
    TokensOfToken(x);
    if IsToken(text) {
      TokensOfToken(text);
    } else if |parts| > 2 {
      assert IsToken(parts[2]);
    }
  }

  /** The word after the keyword is the given text exactly when that is a word. */
  lemma FirstWord(word: string, text: string, rest: seq<string>)
    requires forall i :: 0 <= i < |rest| ==> IsToken(rest[i])
    ensures var parts := [word] + Tokens(text) + rest;
            if IsToken(text) then parts == [word, text] + rest else |parts| < 2 || parts[1] != text
  {
    var parts := [word] + Tokens(text) + rest;
    if IsToken(text) {
      TokensOfToken(text);
    } else if |parts| > 1 {
      assert IsToken(parts[1]);
    }
  }

  /** Joining fewer words than a text has never gives the text, collapsed or not. */
  lemma MissingWords(text: string, lost: nat)
    requires 0 < lost <= |Tokens(text)|
    ensures Join(Tokens(text)[lost..]) != Collapse(text) && Join(Tokens(text)[lost..]) != text
  {
    TokensOfJoined(Tokens(text)[lost..]);
    TokensOfJoined(Tokens(text));
  }

  /** With two words before it a text keeps its words; otherwise some of them are
      taken for the missing fields. */
  lemma TwoFieldsAndText(word: string, x: string, y: string, text: string)
    requires IsToken(word) && NoSpace(x) && NoSpace(y)
    ensures var parts := Tokens(Join([word] + [x, y, text]));
            if x != "" && y != "" then parts == [word, x, y] + Tokens(text)
            else |parts| < 3 || (Join(parts[3..]) != text && Join(parts[3..]) != Collapse(text))
  {
    var parts, words := Tokens(Join([word] + [x, y, text])), Tokens(text);
    LineOf3(word, x, y, text);
    TokensOfToken(x);
    TokensOfToken(y);
    if (x == "" || y == "") && |parts| >= 3 {
      var lost := if x == y then 2 else 1;
      assert parts[3..] == words[lost..];
      MissingWords(text, lost);
    }
  }

  lemma VerbsReadBack(v: Verb)
    ensures IsToken(VerbText(v)) && VerbOf(VerbText(v)) == Some(v)
  {
  }

  /** Keywords are words, and are told apart. The texts are compared letter by
      letter, a few keywords at a time. */
  lemma TagWords0(t: Tag)
    requires t.IsNewListener? || t.IsNewListenAddr? || t.IsExpiredListenAddr? || t.IsListenerClosed?
             || t.IsNewExternalAddr?
    ensures IsToken(TagText(t))
  {
  }

  lemma TagWords1(t: Tag)
    requires t.IsExpiredExternalAddr? || t.IsDiscovered? || t.IsUnreachable? || t.IsConnected? || t.IsDisconnected?
    ensures IsToken(TagText(t))
  {
  }

  lemma TagWords2(t: Tag)
    requires t.IsSubscribed? || t.IsUnsubscribed? || t.IsBlockEvent? || t.IsFlushed? || t.IsSynced?
    ensures IsToken(TagText(t))
  {
  }

  lemma TagWords3(t: Tag)
    requires t.IsBootstrapped? || t.IsPeerInfo? || t.IsPeerRemoved? || t.IsDialFailure?
             || t.IsConnectionEstablished? || t.IsConnectionClosed?
    ensures IsToken(TagText(t))
  {
  }

  lemma TagReads0(t: Tag)
    requires t.IsNewListener? || t.IsNewListenAddr? || t.IsExpiredListenAddr? || t.IsListenerClosed?
             || t.IsNewExternalAddr?
             || t.IsExpiredExternalAddr? || t.IsDiscovered? || t.IsUnreachable?
    ensures TagOf(TagText(t)) == Some(t)
  {
  }

  lemma TagReads1(t: Tag)
    requires t.IsConnected? || t.IsDisconnected? || t.IsSubscribed? || t.IsUnsubscribed? || t.IsBlockEvent?
             || t.IsFlushed? || t.IsSynced?
    ensures TagOf(TagText(t)) == Some(t)
  {
  }

  lemma TagReads2(t: Tag)
    requires t.IsBootstrapped? || t.IsPeerInfo? || t.IsPeerRemoved? || t.IsDialFailure? || t.IsConnectionEstablished?
             || t.IsConnectionClosed?
    ensures TagOf(TagText(t)) == Some(t)
  {
  }

  lemma TagsReadBack(t: Tag)
    ensures IsToken(TagText(t)) && TagOf(TagText(t)) == Some(t)
  {
    match t {
      case IsNewListener => TagWords0(t); TagReads0(t);
      case IsNewListenAddr => TagWords0(t); TagReads0(t);
      case IsExpiredListenAddr => TagWords0(t); TagReads0(t);
      case IsListenerClosed => TagWords0(t); TagReads0(t);
      case IsNewExternalAddr => TagWords0(t); TagReads0(t);
      case IsExpiredExternalAddr => TagWords1(t); TagReads0(t);
      case IsDiscovered => TagWords1(t); TagReads0(t);
      case IsUnreachable => TagWords1(t); TagReads0(t);
      case IsConnected => TagWords1(t); TagReads1(t);
      case IsDisconnected => TagWords1(t); TagReads1(t);
      case IsSubscribed => TagWords2(t); TagReads1(t);
      case IsUnsubscribed => TagWords2(t); TagReads1(t);
      case IsBlockEvent => TagWords2(t); TagReads1(t);
      case IsFlushed => TagWords2(t); TagReads1(t);
      case IsSynced => TagWords2(t); TagReads1(t);
      case IsBootstrapped => TagWords3(t); TagReads2(t);
      case IsPeerInfo => TagWords3(t); TagReads2(t);
      case IsPeerRemoved => TagWords3(t); TagReads2(t);
      case IsDialFailure => TagWords3(t); TagReads2(t);
      case IsConnectionEstablished => TagWords3(t); TagReads2(t);
      case IsConnectionClosed => TagWords3(t); TagReads2(t);
    }
  }

  // ---- The lines as they are written ----------------------------------------

  lemma JoinTwo(x: string, y: string)
    ensures Join([x] + [y]) == x + " " + y
  {
    JoinFirst(x, [y]);
  }

  lemma JoinThree(x: string, y: string, z: string)
    ensures Join([x] + [y, z]) == x + " " + y + " " + z
  {
    JoinFirst(x, [y, z]);
    assert [y, z] == [y] + [z];
    JoinTwo(y, z);
    assert x + " " + (y + " " + z) == x + " " + y + " " + z;
  }

  lemma JoinFour(w: string, x: string, y: string, z: string)
    ensures Join([w] + [x, y, z]) == w + " " + x + " " + y + " " + z
  {
    JoinFirst(w, [x, y, z]);
    assert [x, y, z] == [x] + [y, z];
    JoinThree(x, y, z);
    assert w + " " + (x + " " + y + " " + z) == w + " " + x + " " + y + " " + z;
  }

  /** The line of a command: its keyword, and its fields after single blanks. */
  lemma CommandLine<P, A, C, J>(f: Formats<P, A, C, J>, c: Command<P, A, C>)
    ensures PrintCommand(f, c) ==
            match c
            case AddAddress(peer, addr) => ">add-address" + " " + f.peer.show(peer) + " " + f.addr.show(addr)
            case Dial(peer) => ">dial" + " " + f.peer.show(peer)
            case PrunePeers => ">prune-peers"
            case Get(cid) => ">get" + " " + f.cid.show(cid)
            case Insert(block) => ">insert" + " " + f.cid.show(block.cid) + " " + HexOf(block.data)
            case Alias(alias, None) => ">alias" + " " + alias
            case Alias(alias, Some(cid)) => ">alias" + " " + alias + " " + f.cid.show(cid)
            case Flush => ">flush"
            case Sync(cid) => ">sync" + " " + f.cid.show(cid)
  {
    var word, args := VerbText(VerbOfCommand(c)), CommandArgs(f, c);
    if |args| == 1 {
      assert args == [args[0]];
      JoinTwo(word, args[0]);
    } else if |args| == 2 {
      assert args == [args[0], args[1]];
      JoinThree(word, args[0], args[1]);
    }
  }

  /** Lines that start with anything but a command keyword are errors. */
  lemma UnknownCommand<P, A, C, J>(f: Formats<P, A, C, J>, s: string)
    requires Tokens(s) == [] || Tokens(s)[0] !in {">add-address", ">dial", ">prune-peers", ">get", ">insert", ">alias",
                                                  ">flush", ">sync"}
    ensures ParseCommand(f, s) == Err
  {
  }

  /** Lines that start with anything but an event keyword are errors. */
  lemma UnknownEvent<P, A, C, J>(f: Formats<P, A, C, J>, s: string)
    requires Tokens(s) == [] || Tokens(s)[0] !in {"<new-listener", "<new-listen-addr", "<expired-listen-addr",
                                                  "<listener-closed", "<new-external-addr", "<expired-external-addr",
                                                  "<discovered", "<unreachable", "<connected", "<disconnected",
                                                  "<subscribed", "<unsubscribed", "<block", "<flushed", "<synced",
                                                  "<bootstrapped", "<peer-info", "<peer-removed", "<dial-failure",
                                                  "<connection-established", "<connection-closed"}
    ensures ParseEvent(f, s) == Err
  {
  }

  lemma LongEventLine<P, A, C, J>(f: Formats<P, A, C, J>, e: Event<P, A, C, J>)
    requires |EventArgs(f, e)| > 1
    ensures PrintEvent(f, e) ==
            match e
            case Subscribed(peer, topic) => "<subscribed" + " " + f.peer.show(peer) + " " + topic
            case Unsubscribed(peer, topic) => "<unsubscribed" + " " + f.peer.show(peer) + " " + topic
            case BlockEvent(block) => "<block" + " " + f.cid.show(block.cid) + " " + HexOf(block.data)
            case PeerInfo(peer, info) => "<peer-info" + " " + f.peer.show(peer) + " " + f.json.show(info)
            case DialFailure(peer, addr, error) =>
              "<dial-failure" + " " + f.peer.show(peer) + " " + f.addr.show(addr) + " " + error
            case ConnectionEstablished(peer, addr) =>
              "<connection-established" + " " + f.peer.show(peer) + " " + f.addr.show(addr)
            case ConnectionClosed(peer, addr) =>
              "<connection-closed" + " " + f.peer.show(peer) + " " + f.addr.show(addr)
  {
    var word, args := TagText(TagOfEvent(e)), EventArgs(f, e);
    if |args| == 2 {
      assert args == [args[0], args[1]];
      JoinThree(word, args[0], args[1]);
    } else {
      assert args == [args[0], args[1], args[2]];
      JoinFour(word, args[0], args[1], args[2]);
    }
  }

  lemma ShortEventLine<P, A, C, J>(f: Formats<P, A, C, J>, e: Event<P, A, C, J>)
    requires |EventArgs(f, e)| <= 1
    ensures PrintEvent(f, e) ==
            match e
            case NewListener => "<new-listener"
            case NewListenAddr(addr) => "<new-listen-addr" + " " + f.addr.show(addr)
            case ExpiredListenAddr(addr) => "<expired-listen-addr" + " " + f.addr.show(addr)
            case ListenerClosed => "<listener-closed"
            case NewExternalAddr(addr) => "<new-external-addr" + " " + f.addr.show(addr)
            case ExpiredExternalAddr(addr) => "<expired-external-addr" + " " + f.addr.show(addr)
            case Discovered(peer) => "<discovered" + " " + f.peer.show(peer)
            case Unreachable(peer) => "<unreachable" + " " + f.peer.show(peer)
            case Connected(peer) => "<connected" + " " + f.peer.show(peer)
            case Disconnected(peer) => "<disconnected" + " " + f.peer.show(peer)
            case Flushed => "<flushed"
            case Synced => "<synced"
            case Bootstrapped => "<bootstrapped"
            case PeerRemoved(peer) => "<peer-removed" + " " + f.peer.show(peer)
  {
    var word, args := TagText(TagOfEvent(e)), EventArgs(f, e);
    if |args| == 1 {
      assert args == [args[0]];
      JoinTwo(word, args[0]);
    }
  }

  // ---- Commands -------------------------------------------------------------

  /** What a command's line parses to, for any keyword text. */
  function CommandResult<P, A, C, J>(f: Formats<P, A, C, J>, c: Command<P, A, C>,
                                     word: string): Parsed<Command<P, A, C>> {
    CommandBody(f, VerbOfCommand(c), Tokens(Join([word] + CommandArgs(f, c))))
  }

  lemma ParsePrintedCommand<P, A, C, J>(f: Formats<P, A, C, J>, c: Command<P, A, C>, v: Verb)
    requires v == VerbOfCommand(c)
    ensures IsToken(VerbText(v)) && ParseCommand(f, PrintCommand(f, c)) == CommandResult(f, c, VerbText(v))
  {
    VerbsReadBack(v);
    LineTokens(VerbText(v), CommandArgs(f, c));
  }

  /** The commands that survive: every field must be written as a word, and a
      block must be nonempty and match its id. */
  predicate IsPrintable<P, A, C, J>(f: Formats<P, A, C, J>, c: Command<P, A, C>) {
    match c
    case AddAddress(peer, addr) => IsToken(f.peer.show(peer)) && IsToken(f.addr.show(addr))
    case Dial(peer) => IsToken(f.peer.show(peer))
    case Get(cid) => IsToken(f.cid.show(cid))
    case Insert(block) => IsPrintableBlock(f, block)
    case Alias(alias, target) => IsToken(alias) && (target.Some? ==> IsToken(f.cid.show(target.value)))
    case Sync(cid) => IsToken(f.cid.show(cid))
    case _ => true
  }

  predicate IsPrintableBlock<P, A, C, J>(f: Formats<P, A, C, J>, block: Block<C>) {
    IsToken(f.cid.show(block.cid)) && block.data != [] && f.matches(block.cid, block.data)
  }

  /** A block comes back if it is printable. An empty one panics, and one that
      does not match its id is an error; so much is decided by the id's own text. */
  lemma BlockArgs<P, A, C(!new), J>(f: Formats<P, A, C, J>, word: string, block: Block<C>)
    requires IsBlankFree(f.cid) && IsToken(word)
    ensures var r := BlockField(f, Tokens(Join([word] + [f.cid.show(block.cid), HexOf(block.data)])));
            && (r == Ok(block) <==> IsPrintableBlock(f, block))
            && (IsToken(f.cid.show(block.cid)) ==>
                  r == if block.data == [] then Panic else if f.matches(block.cid, block.data) then Ok(block) else Err)
  {
    LineOf2(word, f.cid.show(block.cid), HexOf(block.data));
    TokensOfToken(f.cid.show(block.cid));
    TokensOfToken(HexOf(block.data));
    HexRoundTrip(block.data);
  }

  lemma ShortCommand<P(!new), A(!new), C(!new), J(!new)>(f: Formats<P, A, C, J>, c: Command<P, A, C>, word: string)
    requires GoodFormats(f) && IsToken(word) && (c.Dial? || c.PrunePeers? || c.Flush?)
    ensures CommandResult(f, c, word) == Ok(c) <==> IsPrintable(f, c)
  {
    if c.Dial? {
      OneField(word, f.peer.show(c.peer));
    }
  }

  lemma CidCommand<P(!new), A(!new), C(!new), J(!new)>(f: Formats<P, A, C, J>, c: Command<P, A, C>, word: string)
    requires GoodFormats(f) && IsToken(word) && (c.Get? || c.Sync?)
    ensures CommandResult(f, c, word) == Ok(c) <==> IsPrintable(f, c)
  {
    OneField(word, f.cid.show(c.cid));
  }

  lemma AddAddressResult<P(!new), A(!new), C(!new), J(!new)>(f: Formats<P, A, C, J>, c: Command<P, A, C>, word: string)
    requires GoodFormats(f) && IsToken(word) && c.AddAddress?
    ensures CommandResult(f, c, word) == Ok(c) <==> IsPrintable(f, c)
  {
    TwoFields(word, f.peer.show(c.peer), f.addr.show(c.addr));
  }

  /** The alias that comes back is a word, so an alias that is none is lost. */
  lemma AliasAlone<P(!new), A(!new), C(!new), J(!new)>(f: Formats<P, A, C, J>, alias: string, word: string)
    requires GoodFormats(f) && IsToken(word)
    ensures CommandResult(f, Alias(alias, None), word) == Ok(Alias(alias, None)) <==> IsToken(alias)
  {
    LineOf1(word, alias);
    FirstWord(word, alias, []);
    assert [word] + Tokens(alias) + [] == [word] + Tokens(alias) && [word, alias] + [] == [word, alias];
  }

  lemma AliasWithTarget<P(!new), A(!new), C(!new), J(!new)>(f: Formats<P, A, C, J>, alias: string, cid: C, word: string)
    requires GoodFormats(f) && IsToken(word)
    ensures CommandResult(f, Alias(alias, Some(cid)), word) == Ok(Alias(alias, Some(cid))) <==>
            IsToken(alias) && IsToken(f.cid.show(cid))
  {
    LineOf2(word, alias, f.cid.show(cid));
    TokensOfToken(f.cid.show(cid));
    FirstWord(word, alias, Tokens(f.cid.show(cid)));
  }

  /** Every command comes back from its line, if and only if it is printable. */
  lemma CommandRoundTrip<P(!new), A(!new), C(!new), J(!new)>(f: Formats<P, A, C, J>, c: Command<P, A, C>)
    requires GoodFormats(f)
    ensures ParseCommand(f, PrintCommand(f, c)) == Ok(c) <==> IsPrintable(f, c)
  {
    var v := VerbOfCommand(c);
    ParsePrintedCommand(f, c, v);
    CommandResultIff(f, c, VerbText(v));
  }

  lemma CommandResultIff<P(!new), A(!new), C(!new), J(!new)>(f: Formats<P, A, C, J>, c: Command<P, A, C>, word: string)
    requires GoodFormats(f) && IsToken(word)
    ensures CommandResult(f, c, word) == Ok(c) <==> IsPrintable(f, c)
  {
    match c
    case AddAddress(_, _) => AddAddressResult(f, c, word);
    case Insert(block) => BlockArgs(f, word, block);
    case Alias(alias, target) =>
      if target.Some? {
        AliasWithTarget(f, alias, target.value, word);
      } else {
        AliasAlone(f, alias, word);
      }
    case Get(_) => CidCommand(f, c, word);
    case Sync(_) => CidCommand(f, c, word);
    case _ => ShortCommand(f, c, word);
  }

  /** A format that meets the assumption and writes one value as the empty text. */
  datatype Path = Root | Child

  function ShowPath(p: Path): string {
    if p.Root? then "" else "/"
  }

  function ReadPath(s: string): Option<Path> {
    if s == "" then Some(Root) else if s == "/" then Some(Child) else None
  }

  lemma EmptyTextIsAllowed()
    ensures IsBlankFree(Codec(ShowPath, ReadPath)) && ShowPath(Root) == ""
  {
    var c := Codec(ShowPath, ReadPath);
    forall p: Path
      ensures c.parse(c.show(p)) == Some(p) && NoSpace(c.show(p))
    {
      assert c.show(p) == ShowPath(p);
      assert c.parse(ShowPath(p)) == ReadPath(ShowPath(p));
    }
  }

  /** The failing family: a line that ends in an address written as the empty text
      misses its last field, and the parser panics. */
  lemma EmptyAddressPanics<P(!new), A(!new), C(!new), J(!new)>(f: Formats<P, A, C, J>, peer: P, addr: A)
    requires GoodFormats(f) && f.addr.show(addr) == ""
    ensures ParseCommand(f, PrintCommand(f, AddAddress(peer, addr))) != Ok(AddAddress(peer, addr))
    ensures IsToken(f.peer.show(peer)) ==> ParseCommand(f, PrintCommand(f, AddAddress(peer, addr))) == Panic
    ensures ParseEvent(f, PrintEvent(f, NewListenAddr(addr))) == Panic
  {
    CommandRoundTrip(f, AddAddress(peer, addr));
    ParsePrintedCommand(f, AddAddress(peer, addr), IsAddAddress);
    LineOf2(VerbText(IsAddAddress), f.peer.show(peer), f.addr.show(addr));
    TokensOfToken(f.peer.show(peer));
    EmptyAddressEvent(f, addr);
  }

  lemma EmptyAddressEvent<P(!new), A(!new), C(!new), J(!new)>(f: Formats<P, A, C, J>, addr: A)
    requires GoodFormats(f) && f.addr.show(addr) == ""
    ensures ParseEvent(f, PrintEvent(f, NewListenAddr(addr))) == Panic
  {
    var e: Event<P, A, C, J> := NewListenAddr(addr);
    ParsePrintedEvent(f, e, IsNewListenAddr);
    LineOf1(TagText(IsNewListenAddr), f.addr.show(addr));
  }

  // ---- Events ---------------------------------------------------------------

  function EventResult<P, A, C, J>(f: Formats<P, A, C, J>, e: Event<P, A, C, J>,
                                   word: string): Parsed<Event<P, A, C, J>> {
    EventBody(f, TagOfEvent(e), Tokens(Join([word] + EventArgs(f, e))))
  }

  lemma ParsePrintedEvent<P, A, C, J>(f: Formats<P, A, C, J>, e: Event<P, A, C, J>, t: Tag)
    requires t == TagOfEvent(e)
    ensures IsToken(TagText(t)) && ParseEvent(f, PrintEvent(f, e)) == EventResult(f, e, TagText(t))
  {
    TagsReadBack(t);
    LineTokens(TagText(t), EventArgs(f, e));
  }

  /** The events that survive: every field must be written as a word, a block
      must be nonempty and match its id, and an error text must have no whitespace
      but single blanks. */
  predicate IsPrintableEvent<P, A, C, J>(f: Formats<P, A, C, J>, e: Event<P, A, C, J>) {
    match e
    case NewListenAddr(addr) => IsToken(f.addr.show(addr))
    case ExpiredListenAddr(addr) => IsToken(f.addr.show(addr))
    case NewExternalAddr(addr) => IsToken(f.addr.show(addr))
    case ExpiredExternalAddr(addr) => IsToken(f.addr.show(addr))
    case Discovered(peer) => IsToken(f.peer.show(peer))
    case Unreachable(peer) => IsToken(f.peer.show(peer))
    case Connected(peer) => IsToken(f.peer.show(peer))
    case Disconnected(peer) => IsToken(f.peer.show(peer))
    case PeerRemoved(peer) => IsToken(f.peer.show(peer))
    case Subscribed(peer, topic) => IsToken(f.peer.show(peer)) && IsToken(topic)
    case Unsubscribed(peer, topic) => IsToken(f.peer.show(peer)) && IsToken(topic)
    case BlockEvent(block) => IsPrintableBlock(f, block)
    case DialFailure(peer, addr, error) =>
      IsToken(f.peer.show(peer)) && IsToken(f.addr.show(addr)) && IsCollapsed(error)
    case ConnectionEstablished(peer, addr) => IsToken(f.peer.show(peer)) && IsToken(f.addr.show(addr))
    case ConnectionClosed(peer, addr) => IsToken(f.peer.show(peer)) && IsToken(f.addr.show(addr))
    case _ => true
  }

  lemma OneWordEvent<P, A, C, J>(f: Formats<P, A, C, J>, e: Event<P, A, C, J>, word: string)
    requires IsToken(word) && (e.NewListener? || e.ListenerClosed? || e.Flushed? || e.Synced? || e.Bootstrapped?)
    ensures EventResult(f, e, word) == Ok(e) <==> IsPrintableEvent(f, e)
  {
  }

  lemma AddressEvent<P(!new), A(!new), C(!new), J(!new)>(f: Formats<P, A, C, J>, e: Event<P, A, C, J>, addr: A,
                                                         word: string)
    requires GoodFormats(f) && IsToken(word)
    requires e in {NewListenAddr(addr), ExpiredListenAddr(addr), NewExternalAddr(addr), ExpiredExternalAddr(addr)}
    ensures EventResult(f, e, word) == Ok(e) <==> IsPrintableEvent(f, e)
  {
    OneField(word, f.addr.show(addr));
  }

  lemma PeerEvent<P(!new), A(!new), C(!new), J(!new)>(f: Formats<P, A, C, J>, e: Event<P, A, C, J>, peer: P,
                                                      word: string)
    requires GoodFormats(f) && IsToken(word)
    requires e in {Discovered(peer), Unreachable(peer), Connected(peer), Disconnected(peer), PeerRemoved(peer)}
    ensures EventResult(f, e, word) == Ok(e) <==> IsPrintableEvent(f, e)
  {
    OneField(word, f.peer.show(peer));
  }

  lemma ConnectionEvent<P(!new), A(!new), C(!new), J(!new)>(f: Formats<P, A, C, J>, e: Event<P, A, C, J>, peer: P,
                                                            addr: A, word: string)
    requires GoodFormats(f) && IsToken(word)
    requires e in {ConnectionEstablished(peer, addr), ConnectionClosed(peer, addr)}
    ensures EventResult(f, e, word) == Ok(e) <==> IsPrintableEvent(f, e)
  {
    TwoFields(word, f.peer.show(peer), f.addr.show(addr));
  }

  lemma TopicEvent<P(!new), A(!new), C(!new), J(!new)>(f: Formats<P, A, C, J>, e: Event<P, A, C, J>, peer: P,
                                                       topic: string, word: string)
    requires GoodFormats(f) && IsToken(word) && e in {Subscribed(peer, topic), Unsubscribed(peer, topic)}
    ensures EventResult(f, e, word) == Ok(e) <==> IsPrintableEvent(f, e)
  {
    FieldAndText(word, f.peer.show(peer), topic);
  }

  lemma DialFailureBody<P, A, C, J>(f: Formats<P, A, C, J>, parts: seq<string>)
    ensures var r := EventBody(f, IsDialFailure, parts);
            && (r.Ok? ==> |parts| >= 3 && r.value.DialFailure? && r.value.error == Join(parts[3..]))
            && (|parts| >= 3 && f.peer.parse(parts[1]).Some? && f.addr.parse(parts[2]).Some? ==>
                  r == Ok(DialFailure(f.peer.parse(parts[1]).value, f.addr.parse(parts[2]).value, Join(parts[3..]))))
  {
  }

  lemma DialFailureWords<P(!new), A(!new), C(!new), J(!new)>(f: Formats<P, A, C, J>, peer: P, addr: A, error: string,
                                                             word: string)
    requires GoodFormats(f) && IsToken(word) && IsToken(f.peer.show(peer)) && IsToken(f.addr.show(addr))
    ensures EventResult(f, DialFailure(peer, addr, error), word) == Ok(DialFailure(peer, addr, Collapse(error)))
  {
    var p, a := f.peer.show(peer), f.addr.show(addr);
    var parts := Tokens(Join([word] + [p, a, error]));
    TwoFieldsAndText(word, p, a, error);
    assert parts[3..] == Tokens(error);
    DialFailureBody(f, parts);
  }

  /** If a field before it is written as the empty text, the error text loses
      words to that field. */
  lemma DialFailureLoses<P(!new), A(!new), C(!new), J(!new)>(f: Formats<P, A, C, J>, peer: P, addr: A, error: string,
                                                             word: string, read: string)
    requires GoodFormats(f) && IsToken(word) && (f.peer.show(peer) == "" || f.addr.show(addr) == "")
    requires read == error || read == Collapse(error)
    ensures EventResult(f, DialFailure(peer, addr, error), word) != Ok(DialFailure(peer, addr, read))
  {
    var p, a := f.peer.show(peer), f.addr.show(addr);
    TwoFieldsAndText(word, p, a, error);
    DialFailureBody(f, Tokens(Join([word] + [p, a, error])));
  }

  lemma DialFailureIff<P(!new), A(!new), C(!new), J(!new)>(f: Formats<P, A, C, J>, peer: P, addr: A, error: string,
                                                           word: string)
    requires GoodFormats(f) && IsToken(word)
    ensures EventResult(f, DialFailure(peer, addr, error), word) == Ok(DialFailure(peer, addr, Collapse(error)))
            <==> IsToken(f.peer.show(peer)) && IsToken(f.addr.show(addr))
  {
    if IsToken(f.peer.show(peer)) && IsToken(f.addr.show(addr)) {
      DialFailureWords(f, peer, addr, error, word);
    } else {
      DialFailureLoses(f, peer, addr, error, word, Collapse(error));
    }
  }

  /** A dial failure comes back with the whitespace of its error text collapsed,
      if and only if its peer and its address are written as words. */
  lemma DialFailureCollapses<P(!new), A(!new), C(!new), J(!new)>(f: Formats<P, A, C, J>, peer: P, addr: A,
                                                                 error: string)
    requires GoodFormats(f)
    ensures ParseEvent(f, PrintEvent(f, DialFailure(peer, addr, error))) == Ok(DialFailure(peer, addr, Collapse(error)))
            <==> IsToken(f.peer.show(peer)) && IsToken(f.addr.show(addr))
  {
    ParsePrintedEvent(f, DialFailure(peer, addr, error), IsDialFailure);
    DialFailureIff(f, peer, addr, error, TagText(IsDialFailure));
  }

  lemma DialFailureResult<P(!new), A(!new), C(!new), J(!new)>(f: Formats<P, A, C, J>, e: Event<P, A, C, J>,
                                                              word: string)
    requires GoodFormats(f) && IsToken(word) && e.DialFailure?
    ensures EventResult(f, e, word) == Ok(e) <==> IsPrintableEvent(f, e)
  {
    if IsToken(f.peer.show(e.peer)) && IsToken(f.addr.show(e.addr)) {
      DialFailureWords(f, e.peer, e.addr, e.error, word);
      CollapseIff(e.error);
    } else {
      DialFailureLoses(f, e.peer, e.addr, e.error, word, e.error);
    }
  }

  lemma PeerInfoResult<P(!new), A(!new), C(!new), J(!new)>(f: Formats<P, A, C, J>, peer: P, info: J, word: string)
    requires IsBlankFree(f.peer) && IsToken(f.peer.show(peer)) && IsToken(word)
    ensures EventResult(f, PeerInfo(peer, info), word) ==
            match f.json.parse(Collapse(f.json.show(info)))
            case Some(read) => Ok(PeerInfo(peer, read))
            case None => Err
  {
    LineOf2(word, f.peer.show(peer), f.json.show(info));
    TokensOfToken(f.peer.show(peer));
    assert ([word] + [f.peer.show(peer)] + Tokens(f.json.show(info)))[2..] == Tokens(f.json.show(info));
  }

  /** A peer-info event is read from its record with whitespace collapsed, so it
      comes back if and only if that reads as the same record. */
  lemma PeerInfoCollapses<P(!new), A(!new), C(!new), J(!new)>(f: Formats<P, A, C, J>, peer: P, info: J)
    requires IsBlankFree(f.peer) && IsToken(f.peer.show(peer))
    ensures ParseEvent(f, PrintEvent(f, PeerInfo(peer, info))) ==
            match f.json.parse(Collapse(f.json.show(info)))
            case Some(read) => Ok(PeerInfo(peer, read))
            case None => Err
    ensures ParseEvent(f, PrintEvent(f, PeerInfo(peer, info))) == Ok(PeerInfo(peer, info)) <==>
            f.json.parse(Collapse(f.json.show(info))) == Some(info)
    ensures ReadsBack(f.json) && IsCollapsed(f.json.show(info)) ==>
              ParseEvent(f, PrintEvent(f, PeerInfo(peer, info))) == Ok(PeerInfo(peer, info))
  {
    ParsePrintedEvent(f, PeerInfo(peer, info), IsPeerInfo);
    PeerInfoResult(f, peer, info, TagText(IsPeerInfo));
    CollapseIff(f.json.show(info));
  }

  lemma BlockEventResult<P(!new), A(!new), C(!new), J(!new)>(f: Formats<P, A, C, J>, e: Event<P, A, C, J>, word: string)
    requires GoodFormats(f) && IsToken(word) && e.BlockEvent?
    ensures EventResult(f, e, word) == Ok(e) <==> IsPrintableEvent(f, e)
  {
    BlockArgs(f, word, e.block);
  }

  lemma EventResultIff<P(!new), A(!new), C(!new), J(!new)>(f: Formats<P, A, C, J>, e: Event<P, A, C, J>, word: string)
    requires GoodFormats(f) && IsToken(word) && !e.PeerInfo?
    ensures EventResult(f, e, word) == Ok(e) <==> IsPrintableEvent(f, e)
  {
    match e {
      case NewListenAddr(addr) => AddressEvent(f, e, addr, word);
      case ExpiredListenAddr(addr) => AddressEvent(f, e, addr, word);
      case NewExternalAddr(addr) => AddressEvent(f, e, addr, word);
      case ExpiredExternalAddr(addr) => AddressEvent(f, e, addr, word);
      case Discovered(peer) => PeerEvent(f, e, peer, word);
      case Unreachable(peer) => PeerEvent(f, e, peer, word);
      case Connected(peer) => PeerEvent(f, e, peer, word);
      case Disconnected(peer) => PeerEvent(f, e, peer, word);
      case PeerRemoved(peer) => PeerEvent(f, e, peer, word);
      case Subscribed(peer, topic) => TopicEvent(f, e, peer, topic, word);
      case Unsubscribed(peer, topic) => TopicEvent(f, e, peer, topic, word);
      case BlockEvent(_) => BlockEventResult(f, e, word);
      case DialFailure(_, _, _) => DialFailureResult(f, e, word);
      case ConnectionEstablished(peer, addr) => ConnectionEvent(f, e, peer, addr, word);
      case ConnectionClosed(peer, addr) => ConnectionEvent(f, e, peer, addr, word);
      case _ => OneWordEvent(f, e, word);
    }
  }

  /** Every event but a peer-info record comes back from its line, if and only if
      it is printable. */
  lemma EventRoundTrip<P(!new), A(!new), C(!new), J(!new)>(f: Formats<P, A, C, J>, e: Event<P, A, C, J>)
    requires GoodFormats(f) && !e.PeerInfo?
    ensures ParseEvent(f, PrintEvent(f, e)) == Ok(e) <==> IsPrintableEvent(f, e)
  {
    var t := TagOfEvent(e);
    ParsePrintedEvent(f, e, t);
    EventResultIff(f, e, TagText(t));
  }
}
