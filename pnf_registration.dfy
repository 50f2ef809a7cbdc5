/**
 * The pnfRegistration feature of the simulator: when enabled, it announces
 * each simulated NETCONF endpoint (SSH ones first, then TLS ones, on
 * consecutive ports) to the VES collector with one pnfRegistration event per
 * endpoint, numbering the events with a process-wide sequence counter.
 *
 * Everything the feature asks of the outside world is an input here: the
 * result of reading the enable flag, the addressing mode, the environment
 * facts, and, for each send attempt, the outcome of every operation that can
 * fail (a SendWorld).
 */
module PnfRegistration {
  import opened Wrappers
  import opened Decimal
  import opened Json
  import opened PnfFields

  /** NETCONF's standard port, advertised when the simulator is reached directly. */
  const STANDARD_NETCONF_PORT := 830

  /** The simulator's return codes. */
  datatype Status = Ok | Failed

  /** What reading the enable flag from the configuration store gave. */
  datatype FlagRead = Value(enabled: bool) | NotFound | ReadError

  /** The environment facts the feature reads. */
  datatype Environment = Environment(
    hostname: string,
    hostIp: string,
    hostBasePort: int,
    ipV4: string,
    ipV6: string,
    ipV6Enabled: bool,
    sshConnections: int,
    tlsConnections: int)

  /**
   * The address and base port to advertise. With host mapping these are the
   * host's; otherwise the simulator's own IPv6 or IPv4 address, by the IPv6
   * flag, with the standard NETCONF port.
   */
  function ResolveAddress(hostMapping: bool, env: Environment): (string, int) {
    if hostMapping then (env.hostIp, env.hostBasePort)
    else ((if env.ipV6Enabled then env.ipV6 else env.ipV4), STANDARD_NETCONF_PORT)
  }

  /** The arguments the shared common-event-header builder receives. */
  datatype HeaderRequest = HeaderRequest(domain: string, eventType: string, sourceName: string,
                                         priority: string, sequence: int)

  /** "%s_%d" of hostname and port. */
  function SourceName(hostname: string, port: int): string {
    hostname + "_" + IntToDecimal(port)
  }

  /**
   * The outcome of everything that can fail during one send. `alloc` gives
   * the send's own operations, numbered in order: 0 creates the outer object,
   * 1 creates "event", 2 attaches it, 3 is the header builder returning an
   * object, 4 attaches the header, 5 attaches the fields object, 6 serialises.
   * `fieldAlloc` and `mac` are those of the field builder; `detailsOk` says
   * whether the collector's URL and credentials were available and `httpOk`
   * whether the POST succeeded.
   */
  datatype SendWorld = SendWorld(
    alloc: nat -> bool,
    fieldAlloc: nat -> bool,
    mac: Option<string>,
    detailsOk: bool,
    httpOk: bool)

  /** The send reaches the header builder, and so takes a sequence number. */
  predicate Consumes(w: SendWorld) {
    w.alloc(0) && w.alloc(1) && w.alloc(2)
  }

  /** The send reaches the field builder. */
  predicate ReachesFields(w: SendWorld) {
    Consumes(w) && w.alloc(3) && w.alloc(4)
  }

  /** Every step of the send succeeds, so the event is delivered. */
  predicate Delivers(w: SendWorld) {
    && ReachesFields(w)
    && w.mac.Some? && CheckedStepsSucceed(w.fieldAlloc)
    && w.alloc(5) && w.alloc(6)
    && w.detailsOk && w.httpOk
  }

  /**
   * What one send did: the endpoint it was for, the header request it made
   * (if it got that far), the fields object it built (if it got that far) and
   * whether the event was delivered.
   */
  datatype Attempt = Attempt(port: int, isTls: bool, header: Option<HeaderRequest>,
                             fields: Option<Value>, delivered: bool)

  /** The attempt one send makes for an endpoint, with the counter at `sequence`. */
  function SendEffect(hostname: string, ip: string, port: int, isTls: bool, keyName: string,
                      sequence: int, w: SendWorld): Attempt
  {
    Attempt(
      port, isTls,
      if Consumes(w) then Some(HeaderRequest("pnfRegistration", "EventType5G", SourceName(hostname, port), "Normal", sequence))
      else None,
      if ReachesFields(w) then BuiltFields(hostname, ip, port, isTls, keyName, w.mac, w.fieldAlloc) else None,
      Delivers(w))
  }

  /** How many times `for (i = 0; i < n; ++i)` runs. */
  function Count(n: int): nat {
    if n < 0 then 0 else n
  }

  /** How many of the first `k` sends took a sequence number. */
  function ConsumedBefore(worlds: nat -> SendWorld, k: nat): nat {
    if k == 0 then 0 else ConsumedBefore(worlds, k - 1) + (if Consumes(worlds(k - 1)) then 1 else 0)
  }

  /**
   * The first `n` attempts of a dispatch from base port `nfPort`: attempt k is
   * for port nfPort + k, over TLS once the `sshCount` SSH endpoints are done,
   * with the counter at the number of earlier sends that took a number.
   */
  function PlannedAttempts(hostname: string, ip: string, nfPort: int, sshCount: nat, keyName: string,
                           worlds: nat -> SendWorld, n: nat): (r: seq<Attempt>)
    ensures |r| == n
  {
    if n == 0 then []
    else
      PlannedAttempts(hostname, ip, nfPort, sshCount, keyName, worlds, n - 1)
      + [SendEffect(hostname, ip, nfPort + (n - 1), n - 1 >= sshCount, keyName, ConsumedBefore(worlds, n - 1), worlds(n - 1))]
  }

  /** One more planned attempt appends the next send. */
  lemma PlannedAttemptsNext(hostname: string, ip: string, nfPort: int, sshCount: nat, keyName: string,
                            worlds: nat -> SendWorld, n: nat)
    ensures PlannedAttempts(hostname, ip, nfPort, sshCount, keyName, worlds, n + 1)
         == PlannedAttempts(hostname, ip, nfPort, sshCount, keyName, worlds, n)
            + [SendEffect(hostname, ip, nfPort + n, n >= sshCount, keyName, ConsumedBefore(worlds, n), worlds(n))]
    ensures ConsumedBefore(worlds, n + 1) == ConsumedBefore(worlds, n) + (if Consumes(worlds(n)) then 1 else 0)
  {
  }

  /** The attempts of an enabled feature start. */
  function Dispatch(hostMapping: bool, env: Environment, keyName: string, worlds: nat -> SendWorld): seq<Attempt> {
    var (ip, nfPort) := ResolveAddress(hostMapping, env);
    PlannedAttempts(env.hostname, ip, nfPort, Count(env.sshConnections), keyName, worlds,
                    Count(env.sshConnections) + Count(env.tlsConnections))
  }

  /** The feature's process-wide state: the pnfRegistration sequence counter. */
  class Registrar {
    var sequence: int

    constructor ()
      ensures sequence == 0
    {
      sequence := 0;
    }

    /**
     * Sends one pnfRegistration event for an endpoint. The header builder is
     * handed the counter's value before the increment; the counter is
     * incremented whenever the header builder is called, even if it or a
     * later step fails, and not when a step before it fails.
     */
    method Send(hostname: string, ip: string, port: int, isTls: bool, keyName: string, w: SendWorld)
      returns (a: Attempt)
      modifies this
      ensures a == SendEffect(hostname, ip, port, isTls, keyName, old(sequence), w)
      ensures sequence == old(sequence) + (if Consumes(w) then 1 else 0)
    {
      a := Attempt(port, isTls, None, None, false);
      if !w.alloc(0) { return; }
      if !w.alloc(1) { return; }
      if !w.alloc(2) { return; }
      var sourceName := SourceName(hostname, port);
      a := a.(header := Some(HeaderRequest("pnfRegistration", "EventType5G", sourceName, "Normal", sequence)));
      sequence := sequence + 1;
      if !w.alloc(3) { return; }
      if !w.alloc(4) { return; }
      var fields := CreateRegistrationFields(hostname, ip, port, isTls, keyName, w.mac, w.fieldAlloc);
      a := a.(fields := fields);
      if fields.None? { return; }
      if !w.alloc(5) { return; }
      if !w.alloc(6) { return; }
      if !w.detailsOk { return; }
      a := a.(delivered := w.httpOk);
    }

    /**
     * One of the two loops of a feature start: `count` sends over one
     * protocol, the port offset going on from `port0` and advancing after
     * every send, whatever its outcome.
     */
    method SendPhase(hostname: string, ip: string, nfPort: int, ghost sshCount: nat, keyName: string,
                     worlds: nat -> SendWorld, isTls: bool, count: int, trace0: seq<Attempt>, port0: nat)
      returns (trace: seq<Attempt>, port: nat)
      requires trace0 == PlannedAttempts(hostname, ip, nfPort, sshCount, keyName, worlds, port0)
      requires sequence == ConsumedBefore(worlds, port0)
      requires if isTls then sshCount <= port0 else port0 + Count(count) <= sshCount
      modifies this
      ensures port == port0 + Count(count)
      ensures trace == PlannedAttempts(hostname, ip, nfPort, sshCount, keyName, worlds, port)
      ensures sequence == ConsumedBefore(worlds, port)
    {
      trace, port := trace0, port0;
      var i := 0;
      while i < count
        invariant 0 <= i <= Count(count) && port == port0 + i
        invariant trace == PlannedAttempts(hostname, ip, nfPort, sshCount, keyName, worlds, port)
        invariant sequence == ConsumedBefore(worlds, port)
      {
        assert isTls == (port >= sshCount);
        var a := Send(hostname, ip, nfPort + port, isTls, keyName, worlds(port));
        PlannedAttemptsNext(hostname, ip, nfPort, sshCount, keyName, worlds, port);
        trace := trace + [a];
        port, i := port + 1, i + 1;
      }
    }

    /**
     * Starts the feature: resets the counter, reads the enable flag, and when
     * it is set sends one event per SSH endpoint and then one per TLS
     * endpoint. A failed send is only logged; the port offset advances and
     * the next endpoint is tried. Only a failure to read the flag is reported.
     */
    method FeatureStart(flag: FlagRead, hostMapping: bool, env: Environment, keyName: string,
                        worlds: nat -> SendWorld) returns (rc: Status, trace: seq<Attempt>)
      modifies this
      ensures rc == (if flag.ReadError? then Failed else Ok)
      ensures flag != Value(true) ==> trace == []
      ensures flag == Value(true) ==> trace == Dispatch(hostMapping, env, keyName, worlds)
      ensures sequence == ConsumedBefore(worlds, |trace|)
    {
      sequence := 0;
      trace := [];
      var enabled := false;
      match flag {
        case Value(b) => enabled := b;
        case NotFound =>
        case ReadError => return Failed, [];
      }
      if !enabled {
        return Ok, [];
      }

      var ip: string;
      var nfPort: int;
      if hostMapping {
        ip := env.hostIp;
        nfPort := env.hostBasePort;
      } else {
        if env.ipV6Enabled {
          ip := env.ipV6;
        } else {
          ip := env.ipV4;
        }
        nfPort := STANDARD_NETCONF_PORT;
      }
      assert (ip, nfPort) == ResolveAddress(hostMapping, env);
      ghost var sshCount := Count(env.sshConnections);

      var port := 0;
      trace, port := SendPhase(env.hostname, ip, nfPort, sshCount, keyName, worlds, false, env.sshConnections, trace, port);
      trace, port := SendPhase(env.hostname, ip, nfPort, sshCount, keyName, worlds, true, env.tlsConnections, trace, port);
      rc := Ok;
    }
  }

  /** The address depends only on the facts of the mode in use. */
  lemma AddressDependsOnlyOnMode(env: Environment, other: Environment)
    ensures env.hostIp == other.hostIp && env.hostBasePort == other.hostBasePort
      ==> ResolveAddress(true, env) == ResolveAddress(true, other)
    ensures env.ipV6Enabled == other.ipV6Enabled && env.ipV4 == other.ipV4 && env.ipV6 == other.ipV6
      ==> ResolveAddress(false, env) == ResolveAddress(false, other)
    ensures ResolveAddress(false, env).1 == STANDARD_NETCONF_PORT
  {
  }

  /** Two endpoints of one host never share a source name. */
  lemma SourceNamesDistinct(hostname: string, p: int, q: int)
    requires p != q
    ensures SourceName(hostname, p) != SourceName(hostname, q)
  {
    var a, b := IntToDecimal(p), IntToDecimal(q);
    if SourceName(hostname, p) == SourceName(hostname, q) {
      assert a == SourceName(hostname, p)[|hostname| + 1..];
      assert b == SourceName(hostname, q)[|hostname| + 1..];
      DecimalInjective(p, q);
    }
  }

  /** The header request of attempt k: its own source name, and the count of numbers taken before it. */
  lemma {:induction false} PlannedHeaderAt(hostname: string, ip: string, nfPort: int, sshCount: nat, keyName: string,
                                           worlds: nat -> SendWorld, n: nat, k: nat)
    requires k < n
    ensures PlannedAttempts(hostname, ip, nfPort, sshCount, keyName, worlds, n)[k].header
         == if Consumes(worlds(k))
            then Some(HeaderRequest("pnfRegistration", "EventType5G", SourceName(hostname, nfPort + k), "Normal", ConsumedBefore(worlds, k)))
            else None
    decreases n
  {
    if k < n - 1 {
      PlannedHeaderAt(hostname, ip, nfPort, sshCount, keyName, worlds, n - 1, k);
    }
  }

  /** The fields object of attempt k: built for its own endpoint, once the send reaches the field builder. */
  lemma {:induction false} PlannedFieldsAt(hostname: string, ip: string, nfPort: int, sshCount: nat, keyName: string,
                                           worlds: nat -> SendWorld, n: nat, k: nat)
    requires k < n
    ensures PlannedAttempts(hostname, ip, nfPort, sshCount, keyName, worlds, n)[k].fields
         == if ReachesFields(worlds(k))
            then BuiltFields(hostname, ip, nfPort + k, k >= sshCount, keyName, worlds(k).mac, worlds(k).fieldAlloc)
            else None
    decreases n
  {
    if k < n - 1 {
      PlannedFieldsAt(hostname, ip, nfPort, sshCount, keyName, worlds, n - 1, k);
    }
  }

  /** The endpoint of attempt k: port nfPort + k, over TLS once the SSH endpoints are done, delivered on its own merits. */
  lemma {:induction false} PlannedEndpointAt(hostname: string, ip: string, nfPort: int, sshCount: nat, keyName: string,
                                             worlds: nat -> SendWorld, n: nat, k: nat)
    requires k < n
    ensures var a := PlannedAttempts(hostname, ip, nfPort, sshCount, keyName, worlds, n)[k];
      && a.port == nfPort + k
      && (a.isTls <==> k >= sshCount)
      && (a.delivered <==> Delivers(worlds(k)))
    decreases n
  {
    if k < n - 1 {
      PlannedEndpointAt(hostname, ip, nfPort, sshCount, keyName, worlds, n - 1, k);
    }
  }

  /**
   * An enabled start attempts exactly one send per configured endpoint, on
   * consecutive ports from the resolved base port, the SSH endpoints first;
   * whether a send is delivered depends on that send alone, so a failure
   * never keeps a later endpoint from being tried.
   */
  lemma DispatchEndpoints(hostMapping: bool, env: Environment, keyName: string, worlds: nat -> SendWorld)
    ensures var t := Dispatch(hostMapping, env, keyName, worlds);
      && |t| == Count(env.sshConnections) + Count(env.tlsConnections)
      && forall k :: 0 <= k < |t| ==>
           && t[k].port == ResolveAddress(hostMapping, env).1 + k
           && (t[k].isTls <==> k >= Count(env.sshConnections))
           && (t[k].delivered <==> Delivers(worlds(k)))
  {
    var (ip, nfPort) := ResolveAddress(hostMapping, env);
    var n := Count(env.sshConnections) + Count(env.tlsConnections);
    forall k | 0 <= k < n
      ensures var a := PlannedAttempts(env.hostname, ip, nfPort, Count(env.sshConnections), keyName, worlds, n)[k];
        && a.port == nfPort + k
        && (a.isTls <==> k >= Count(env.sshConnections))
        && (a.delivered <==> Delivers(worlds(k)))
    {
      PlannedEndpointAt(env.hostname, ip, nfPort, Count(env.sshConnections), keyName, worlds, n, k);
    }
  }

  /** When every send reaches the header builder, the first k sends take k numbers. */
  lemma {:induction false} ConsumedBeforeAll(worlds: nat -> SendWorld, n: nat)
    requires forall k :: 0 <= k < n ==> Consumes(worlds(k))
    ensures ConsumedBefore(worlds, n) == n
  {
    if n > 0 {
      ConsumedBeforeAll(worlds, n - 1);
    }
  }

  /** A send that takes a number leaves every later send a larger one. */
  lemma {:induction false} ConsumedBeforeIncreases(worlds: nat -> SendWorld, i: nat, j: nat)
    requires i < j && Consumes(worlds(i))
    ensures ConsumedBefore(worlds, i) < ConsumedBefore(worlds, j)
    decreases j
  {
    if j > i + 1 {
      ConsumedBeforeIncreases(worlds, i, j - 1);
    }
  }

  /**
   * Sequence numbers start at 0 on every feature start and go up by one per
   * send: with no failure before the header builder, the headers carry
   * 0, 1, ..., N + M - 1 in order.
   */
  lemma SequenceNumbersFromZero(hostMapping: bool, env: Environment, keyName: string, worlds: nat -> SendWorld)
    requires forall k :: 0 <= k < Count(env.sshConnections) + Count(env.tlsConnections) ==> Consumes(worlds(k))
    ensures var t := Dispatch(hostMapping, env, keyName, worlds);
      forall k :: 0 <= k < |t| ==> t[k].header.Some? && t[k].header.value.sequence == k
  {
    var (ip, nfPort) := ResolveAddress(hostMapping, env);
    var sshCount, n := Count(env.sshConnections), Count(env.sshConnections) + Count(env.tlsConnections);
    forall k | 0 <= k < n
      ensures PlannedAttempts(env.hostname, ip, nfPort, sshCount, keyName, worlds, n)[k].header
           == Some(HeaderRequest("pnfRegistration", "EventType5G", SourceName(env.hostname, nfPort + k), "Normal", k))
    {
      PlannedHeaderAt(env.hostname, ip, nfPort, sshCount, keyName, worlds, n, k);
      ConsumedBeforeAll(worlds, k);
    }
  }

  /**
   * Whatever fails, the headers of one feature start carry strictly
   * increasing sequence numbers and pairwise distinct source names.
   */
  lemma HeadersDistinct(hostMapping: bool, env: Environment, keyName: string, worlds: nat -> SendWorld, i: nat, j: nat)
    requires var t := Dispatch(hostMapping, env, keyName, worlds);
      i < j < |t| && t[i].header.Some? && t[j].header.Some?
    ensures var t := Dispatch(hostMapping, env, keyName, worlds);
      && t[i].header.value.sequence < t[j].header.value.sequence
      && t[i].header.value.sourceName != t[j].header.value.sourceName
  {
    var (ip, nfPort) := ResolveAddress(hostMapping, env);
    PlannedHeadersDistinct(env.hostname, ip, nfPort, Count(env.sshConnections), keyName, worlds,
                           Count(env.sshConnections) + Count(env.tlsConnections), i, j);
  }

  /** HeadersDistinct for the first n attempts from any base port. */
  lemma PlannedHeadersDistinct(hostname: string, ip: string, nfPort: int, sshCount: nat, keyName: string,
                               worlds: nat -> SendWorld, n: nat, i: nat, j: nat)
    requires var t := PlannedAttempts(hostname, ip, nfPort, sshCount, keyName, worlds, n);
      i < j < n && t[i].header.Some? && t[j].header.Some?
    ensures var t := PlannedAttempts(hostname, ip, nfPort, sshCount, keyName, worlds, n);
      && t[i].header.value.sequence < t[j].header.value.sequence
      && t[i].header.value.sourceName != t[j].header.value.sourceName
  {
    PlannedHeaderAt(hostname, ip, nfPort, sshCount, keyName, worlds, n, i);
    PlannedHeaderAt(hostname, ip, nfPort, sshCount, keyName, worlds, n, j);
    ConsumedBeforeIncreases(worlds, i, j);
    SourceNamesDistinct(hostname, nfPort + i, nfPort + j);
  }

  /**
   * Each send that reaches the field builder posts the object built for its
   * own endpoint: the resolved address, port nfPort + k and the protocol of
   * its phase (CompleteBuild and AdvertisedAddress say what that object is).
   */
  lemma DispatchFields(hostMapping: bool, env: Environment, keyName: string, worlds: nat -> SendWorld, k: nat)
    requires k < Count(env.sshConnections) + Count(env.tlsConnections)
    ensures var (ip, nfPort) := ResolveAddress(hostMapping, env);
      Dispatch(hostMapping, env, keyName, worlds)[k].fields
      == if ReachesFields(worlds(k))
         then BuiltFields(env.hostname, ip, nfPort + k, k >= Count(env.sshConnections), keyName, worlds(k).mac, worlds(k).fieldAlloc)
         else None
  {
    var (ip, nfPort) := ResolveAddress(hostMapping, env);
    PlannedFieldsAt(env.hostname, ip, nfPort, Count(env.sshConnections), keyName, worlds,
                    Count(env.sshConnections) + Count(env.tlsConnections), k);
  }

  /**
   * A send that succeeds in full advertises the resolved address as
   * oamV4IpAddress. Without host
   * mapping and with IPv6 enabled, that address is the simulator's IPv6
   * address, although the member is named for IPv4.
   */
  lemma AdvertisedAddress(hostMapping: bool, env: Environment, keyName: string, worlds: nat -> SendWorld, k: nat)
    requires k < Count(env.sshConnections) + Count(env.tlsConnections)
    requires Delivers(worlds(k)) && worlds(k).fieldAlloc(ATTACH_ADDITIONAL_STEP)
    ensures var f := Dispatch(hostMapping, env, keyName, worlds)[k].fields;
      && f.Some? && f.value.Obj?
      && Lookup(f.value.members, "oamV4IpAddress") == Some(Str(ResolveAddress(hostMapping, env).0))
      && (!hostMapping && env.ipV6Enabled ==> Lookup(f.value.members, "oamV4IpAddress") == Some(Str(env.ipV6)))
  {
    var (ip, nfPort) := ResolveAddress(hostMapping, env);
    var w, isTls := worlds(k), k >= Count(env.sshConnections);
    var fields := RegistrationFields(env.hostname, ip, nfPort + k, isTls, w.mac.value, keyName);
    assert Dispatch(hostMapping, env, keyName, worlds)[k].fields == Some(fields) by {
      DispatchFields(hostMapping, env, keyName, worlds, k);
      CompleteBuild(env.hostname, ip, nfPort + k, isTls, keyName, w.mac, w.fieldAlloc);
    }
    AddressField(env.hostname, ip, nfPort + k, isTls, w.mac.value, keyName);
  }
}
