/** What the address book knows about one peer. `Info` is the value of a
    record, with the operations as functions; class `PeerInfo` performs them in
    place and is proved against these functions. */
module PeerInfos {
  import opened Wrappers
  import opened Multiaddrs
  import opened Rtts

  /** Points in time, in nanoseconds. */
  type Time = int

  /** Where an address was learnt from, in increasing order of rank. */
  datatype AddressSource = Incoming | Listen | Kad | Mdns | Candidate | User | Dial
  {
    function Rank(): (r: nat)
      ensures r <= 6
    {
      match this
      case Incoming => 0
      case Listen => 1
      case Kad => 2
      case Mdns => 3
      case Candidate => 4
      case User => 5
      case Dial => 6
    }

    predicate IsConfirmed() { Dial? || User? || Candidate? }
    predicate IsToProbe() { Listen? || Kad? || Mdns? || Candidate? }
    predicate IsToTranslate() { Incoming? }
  }

  /** The rank is a linear order that tells sources apart, and the three
      predicates cut it into consecutive bands that overlap in `Candidate`. */
  lemma SourceOrder(s: AddressSource, t: AddressSource)
    ensures Incoming.Rank() < Listen.Rank() < Kad.Rank() < Mdns.Rank() < Candidate.Rank() < User.Rank() < Dial.Rank()
    ensures s.IsConfirmed() <==> s in {Candidate, User, Dial}
    ensures s.IsToProbe() <==> s in {Listen, Kad, Mdns, Candidate}
    ensures s.IsToTranslate() <==> s == Incoming
    ensures s.Rank() == t.Rank() <==> s == t
    ensures s.IsToTranslate() <==> s.Rank() == 0
    ensures s.IsToProbe() <==> 1 <= s.Rank() <= 4
    ensures s.IsConfirmed() <==> 4 <= s.Rank()
  {
  }

  datatype Direction = Inbound | Outbound

  datatype Entry = Entry(source: AddressSource, seen: Time)

  datatype Connection = Connection(since: Time, direction: Direction)

  datatype FailureKind = DialError | PeerDisconnected | WeDisconnected

  datatype ConnectionFailure = ConnectionFailure(kind: FailureKind, addr: Multiaddr, time: Time)

  /** The number of failures kept. */
  const HISTORY := 10

  datatype Info = Info(
    protocolVersion: Option<string>,
    agentVersion: Option<string>,
    protocols: seq<string>,
    listeners: seq<Multiaddr>,
    addresses: map<Multiaddr, Entry>,
    connections: map<Multiaddr, Connection>,
    failures: seq<ConnectionFailure>,
    rtt: Option<Rtt>)
  {
    /** The state change of `ingest_address`. */
    function Ingest(addr: Multiaddr, source: AddressSource, now: Time): Info {
      var kept := if addr in addresses && addresses[addr].source.Rank() >= source.Rank()
                  then addresses[addr].source else source;
      this.(addresses := addresses[addr := Entry(kept, now)])
    }

    /** The result of `ingest_address`: does this ingestion ask for a probe? */
    predicate WantsProbe(addr: Multiaddr, source: AddressSource) {
      source.IsToProbe() && (addr in addresses ==> addresses[addr].source.Rank() < source.Rank())
    }

    /** `push_failure`: a failed probe also forgets the address, unless it is
        confirmed beyond probing or still waits for translation. */
    function PushFailure(addr: Multiaddr, f: ConnectionFailure, probeResult: bool): Info {
      this.(
        failures := PushBounded(failures, f),
        addresses := if probeResult && addr in addresses && addresses[addr].source.IsToProbe()
                     then addresses - {addr} else addresses)
    }

    predicate HasConfirmed() {
      exists a :: a in addresses && addresses[a].source.IsConfirmed()
    }
  }

  function DefaultInfo(): Info {
    Info(None, None, [], [], map[], map[], [], None)
  }

  /** A deque of at most ten entries, newest first. */
  function PushBounded(fs: seq<ConnectionFailure>, f: ConnectionFailure): seq<ConnectionFailure> {
    [f] + if |fs| > 9 then fs[..|fs| - 1] else fs
  }

  /** The deque after a whole log of failures, oldest first. */
  function History(log: seq<ConnectionFailure>): seq<ConnectionFailure> {
    if log == [] then [] else PushBounded(History(log[..|log| - 1]), log[|log| - 1])
  }

  /** The newest ten of a log, or all if there are fewer, newest first. */
  predicate IsNewestEnd(kept: seq<ConnectionFailure>, log: seq<ConnectionFailure>) {
    && |kept| == (if |log| < 10 then |log| else 10)
    && forall i :: 0 <= i < |kept| ==> kept[i] == log[|log| - 1 - i]
  }

  lemma PushKeepsNewestEnd(kept: seq<ConnectionFailure>, log: seq<ConnectionFailure>, f: ConnectionFailure)
    requires IsNewestEnd(kept, log)
    ensures IsNewestEnd(PushBounded(kept, f), log + [f])
  {
  }

  /** The deque is the newest end of the log, read backwards. In particular its
      head is the most recent failure. */
  lemma {:induction false} HistoryIsNewestEnd(log: seq<ConnectionFailure>)
    ensures IsNewestEnd(History(log), log)
  {
    if log != [] {
      var init, f := log[..|log| - 1], log[|log| - 1];
      HistoryIsNewestEnd(init);
      PushKeepsNewestEnd(History(init), init, f);
      assert log == init + [f];
    }
  }

  /** What one ingestion does: the address is stored as seen now, its source only
      changes to a higher one, and a probe is asked for exactly when the source became
      one of those that are to be probed. */
  lemma IngestMeaning(info: Info, addr: Multiaddr, source: AddressSource, now: Time)
    ensures var after := info.Ingest(addr, source, now);
            && addr in after.addresses && after.addresses[addr].seen == now
            && after == info.(addresses := info.addresses[addr := after.addresses[addr]])
            && (info.WantsProbe(addr, source) <==>
                && after.addresses[addr].source in {Listen, Kad, Mdns, Candidate}
                && (addr !in info.addresses || info.addresses[addr].source != after.addresses[addr].source))
  {
  }

  function IngestAll(info: Info, addr: Multiaddr, sources: seq<AddressSource>, now: Time): Info {
    if sources == [] then info
    else IngestAll(info, addr, sources[..|sources| - 1], now).Ingest(addr, sources[|sources| - 1], now)
  }

  /** Ingestion is a join: the stored source is the maximum of everything
      ingested, whatever the order, and no other address is touched. */
  lemma {:induction false} StoredSourceIsMaximum(info: Info, addr: Multiaddr, sources: seq<AddressSource>, now: Time)
    requires sources != []
    ensures var after := IngestAll(info, addr, sources, now);
            && addr in after.addresses
            && after == info.(addresses := info.addresses[addr := after.addresses[addr]])
    ensures var best := IngestAll(info, addr, sources, now).addresses[addr].source;
            && (best in sources || (addr in info.addresses && best == info.addresses[addr].source))
            && (addr in info.addresses ==> info.addresses[addr].source.Rank() <= best.Rank())
            && forall s :: s in sources ==> s.Rank() <= best.Rank()
  {
    var init, last := sources[..|sources| - 1], sources[|sources| - 1];
    assert sources == init + [last];
    if init != [] {
      StoredSourceIsMaximum(info, addr, init, now);
    }
  }

  /** The record as the source keeps it: one mutable object per peer. */
  class PeerInfo {
    var protocolVersion: Option<string>
    var agentVersion: Option<string>
    var protocols: seq<string>
    var listeners: seq<Multiaddr>
    var addresses: map<Multiaddr, Entry>
    var connections: map<Multiaddr, Connection>
    var failures: seq<ConnectionFailure>
    var rtt: Option<Rtt>

    function State(): Info
      reads this
    {
      Info(protocolVersion, agentVersion, protocols, listeners, addresses, connections, failures, rtt)
    }

    /** Take out a record for in-place work. */
    constructor Of(info: Info)
      ensures State() == info
    {
      protocolVersion, agentVersion := info.protocolVersion, info.agentVersion;
      protocols, listeners := info.protocols, info.listeners;
      addresses, connections, failures, rtt := info.addresses, info.connections, info.failures, info.rtt;
    }

    method IngestAddress(addr: Multiaddr, source: AddressSource, now: Time) returns (probe: bool)
      requires addr !in addresses ==> EndsInP2p(addr)
      modifies this`addresses
      ensures State() == old(State()).Ingest(addr, source, now)
      ensures probe == old(State()).WantsProbe(addr, source)
    {
      if addr in addresses {
        var src := addresses[addr].source;
        addresses := addresses[addr := Entry(src, now)];
        if source.Rank() <= src.Rank() {
          probe := false;
        } else {
          addresses := addresses[addr := Entry(source, now)];
          probe := source.IsToProbe();
        }
      } else {
        addresses := addresses[addr := Entry(source, now)];
        probe := source.IsToProbe();
      }
    }

    method PushFailure(addr: Multiaddr, f: ConnectionFailure, probeResult: bool)
      modifies this`addresses, this`failures
      ensures State() == old(State()).PushFailure(addr, f, probeResult)
    {
      if |failures| > 9 {
        failures := failures[..|failures| - 1];
      }
      if probeResult && addr in addresses && addresses[addr].source.IsToProbe() {
        addresses := addresses - {addr};
      }
      failures := [f] + failures;
    }

    method RegisterPing(ping: Option<Duration>)
      modifies this`rtt
      ensures State() == old(State()).(rtt := SetRtt(old(rtt), ping))
    {
      if ping.Some? {
        if rtt.Some? {
          rtt := Some(rtt.value.Register(ping.value));
        } else {
          rtt := Some(NewRtt(ping.value));
        }
      } else if rtt.Some? {
        rtt := Some(rtt.value.RegisterFailure());
      }
    }

    /** `confirmed_addresses().next().is_some()` */
    method AnyConfirmed() returns (found: bool)
      ensures found == State().HasConfirmed()
    {
      var rest := addresses.Keys;
      while rest != {}
        invariant rest <= addresses.Keys
        invariant forall a :: a in addresses.Keys - rest ==> !addresses[a].source.IsConfirmed()
        decreases |rest|
      {
        var a :| a in rest;
        if addresses[a].source.IsConfirmed() {
          return true;
        }
        rest := rest - {a};
      }
      return false;
    }
  }
}
