/** The TCP network service of the sink layer: a connector that resolves an
    address and dials it (retrying forever with backoff), and a service whose
    state machine owns the one live stream between sends.

    Futures, the one-shot channel, DNS and the socket calls are not executed
    here: what they answer when polled or called is a parameter. */
module TcpNet {
  import opened Wrappers

  /** A connected TCP stream; only its identity matters to the model. */
  datatype Stream = Stream(id: nat)

  datatype IoError = IoError(description: string)
  datatype DnsError = DnsError(description: string)

  type Port = p: int | 0 <= p < 0x1_0000
  type U32 = x: int | 0 <= x < 0x1_0000_0000

  datatype IpAddr = V4(v4: bv32) | V6(v6: bv128)
  datatype SocketAddr = SocketAddr(ip: IpAddr, port: Port)

  datatype TcpError =
    | InvalidAddress(reason: string)
    | FailedToConfigure(source: IoError)
    | FailedToSend(source: IoError)
    | FailedToConnect(source: IoError)
    | NoAddresses
    | FailedToResolve(dnsSource: DnsError)
    | ServiceStreamChannelClosed

  datatype HostAndPort = HostAndPort(host: string, port: Port)

  /** A connector is a plain value: it is cloned into every connect future. */
  datatype TcpConnector = TcpConnector(address: HostAndPort, sendBufferSize: Option<U32>)

  // ---------------------------------------------------------------------------
  // Connecting
  // ---------------------------------------------------------------------------

  /** What the resolver and the operating system answer during one `connect`. */
  datatype ConnectEnv = ConnectEnv(
    lookup: Result<seq<IpAddr>, DnsError>,  // the resolver's addresses, in order
    newSocketV4: Outcome<IoError>,          // creating an IPv4 socket
    newSocketV6: Outcome<IoError>,          // creating an IPv6 socket
    setSendBuffer: Outcome<IoError>,        // applying the send-buffer size, when configured
    dial: Result<Stream, IoError>)          // connecting the socket to the address

  /** The result of one `connect`, and whether it logged the send-buffer warning. */
  datatype ConnectReport = ConnectReport(result: Result<(SocketAddr, Stream), TcpError>, sendBufferWarning: bool)

  /** The outcome of creating the socket for the family of `ip`. */
  function NewSocket(env: ConnectEnv, ip: IpAddr): Outcome<IoError>
  {
    if ip.V4? then env.newSocketV4 else env.newSocketV6
  }

  /** `TcpConnector::connect`: resolve, take the first address, create a socket of
      its family, try to size its send buffer, and dial. */
  function Connect(c: TcpConnector, env: ConnectEnv): (r: ConnectReport)
    ensures env.lookup.Err? ==> r.result == Err(FailedToResolve(env.lookup.error))
    ensures env.lookup == Ok([]) ==> r.result == Err(NoAddresses)
    ensures r.result.Ok? <==>
      && env.lookup.Ok? && |env.lookup.value| > 0
      && NewSocket(env, env.lookup.value[0]).Pass?
      && env.dial.Ok?
    ensures env.lookup.Ok? && |env.lookup.value| > 0 && NewSocket(env, env.lookup.value[0]).Fail? ==>
      r.result == Err(FailedToConfigure(NewSocket(env, env.lookup.value[0]).error))
    ensures env.lookup.Ok? && |env.lookup.value| > 0 && NewSocket(env, env.lookup.value[0]).Pass? && env.dial.Err? ==>
      r.result == Err(FailedToConnect(env.dial.error))
    ensures r.result.Ok? ==>
      r.result.value == (SocketAddr(env.lookup.value[0], c.address.port), env.dial.value)
    ensures r.sendBufferWarning <==>
      && env.lookup.Ok? && |env.lookup.value| > 0
      && NewSocket(env, env.lookup.value[0]).Pass?
      && c.sendBufferSize.Some? && env.setSendBuffer.Fail?
  {
    match env.lookup
    case Err(e) => ConnectReport(Err(FailedToResolve(e)), false)
    case Ok(ips) =>
      if |ips| == 0 then ConnectReport(Err(NoAddresses), false)
      else
        var addr := SocketAddr(ips[0], c.address.port);
        match NewSocket(env, addr.ip)
        case Fail(e) => ConnectReport(Err(FailedToConfigure(e)), false)
        case Pass =>
          // A rejected send-buffer size is only warned about.
          var warned := c.sendBufferSize.Some? && env.setSendBuffer.Fail?;
          match env.dial
          case Err(e) => ConnectReport(Err(FailedToConnect(e)), warned)
          case Ok(stream) => ConnectReport(Ok((addr, stream)), warned)
  }

  /** Whether the send buffer can be applied never changes what `connect` returns. */
  lemma SendBufferRejectionIsNotFatal(c: TcpConnector, env: ConnectEnv, e: IoError)
    ensures Connect(c, env.(setSendBuffer := Fail(e))).result == Connect(c, env.(setSendBuffer := Pass)).result
    ensures !Connect(c, env.(setSendBuffer := Pass)).sendBufferWarning
  {
  }

  /** `TcpConnector::healthcheck`: one `connect`, its stream discarded. */
  function Healthcheck(c: TcpConnector, env: ConnectEnv): (r: Outcome<TcpError>)
    ensures r.Pass? <==> Connect(c, env).result.Ok?
    ensures r.Fail? ==> Connect(c, env).result == Err(r.error)
  {
    match Connect(c, env).result
    case Ok(_) => Pass
    case Err(e) => Fail(e)
  }

  /** The internal events `connect_backoff` emits, and its sleeps. */
  datatype ConnectEvent =
    | ConnectionEstablished(peerAddr: SocketAddr)
    | OutgoingConnectionError(error: TcpError)
    | Slept(delayIndex: nat)  // sleeps for the delayIndex-th delay of this call's backoff

  predicate Succeeds(c: TcpConnector, env: ConnectEnv)
  {
    Connect(c, env).result.Ok?
  }

  /** Index of the first attempt that connects. */
  function FirstSuccess(c: TcpConnector, attempts: seq<ConnectEnv>): (k: nat)
    requires exists i :: 0 <= i < |attempts| && Succeeds(c, attempts[i])
    ensures k < |attempts| && Succeeds(c, attempts[k])
    ensures forall j :: 0 <= j < k ==> !Succeeds(c, attempts[j])
  {
    if Succeeds(c, attempts[0]) then 0
    else
      assert forall i :: 1 <= i < |attempts| ==> attempts[i] == attempts[1..][i - 1];
      1 + FirstSuccess(c, attempts[1..])
  }

  /** The events of a run of failed attempts: an error event and a sleep per attempt. */
  function FailureEvents(c: TcpConnector, attempts: seq<ConnectEnv>): seq<ConnectEvent>
    requires forall j :: 0 <= j < |attempts| ==> !Succeeds(c, attempts[j])
  {
    if attempts == [] then []
    else
      var n := |attempts| - 1;
      assert !Succeeds(c, attempts[n]);
      FailureEvents(c, attempts[..n])
        + [OutgoingConnectionError(Connect(c, attempts[n]).result.error), Slept(n)]
  }

  /** `TcpConnector::connect_backoff`, run against the answers of successive attempts.
      It returns the stream of the first attempt that connects. When none of the given
      attempts connects it returns `None`: the source would still be retrying, since
      the loop has no other exit. */
  method ConnectBackoff(c: TcpConnector, attempts: seq<ConnectEnv>) returns (stream: Option<Stream>, events: seq<ConnectEvent>)
    ensures stream.Some? <==> exists i :: 0 <= i < |attempts| && Succeeds(c, attempts[i])
    ensures stream.Some? ==>
      var k := FirstSuccess(c, attempts);
      var (addr, s) := Connect(c, attempts[k]).result.value;
      stream.value == s && events == FailureEvents(c, attempts[..k]) + [ConnectionEstablished(addr)]
    ensures stream.None? ==> events == FailureEvents(c, attempts)
  {
    events := [];
    var i := 0;
    while i < |attempts|
      invariant 0 <= i <= |attempts|
      invariant forall j :: 0 <= j < i ==> !Succeeds(c, attempts[j])
      invariant events == FailureEvents(c, attempts[..i])
    {
      assert attempts[..i + 1][..i] == attempts[..i];
      match Connect(c, attempts[i]).result {
        case Ok((addr, s)) =>
          events := events + [ConnectionEstablished(addr)];
          return Some(s), events;
        case Err(e) =>
          events := events + [OutgoingConnectionError(e), Slept(i)];
      }
      i := i + 1;
    }
    assert attempts[..i] == attempts;
    stream := None;
  }

  /** Every failed attempt contributes exactly one error event followed by one sleep. */
  lemma {:induction false} FailureEventsShape(c: TcpConnector, attempts: seq<ConnectEnv>)
    requires forall j :: 0 <= j < |attempts| ==> !Succeeds(c, attempts[j])
    ensures |FailureEvents(c, attempts)| == 2 * |attempts|
    ensures forall j :: 0 <= j < |attempts| ==>
      FailureEvents(c, attempts)[2 * j] == OutgoingConnectionError(Connect(c, attempts[j]).result.error)
      && FailureEvents(c, attempts)[2 * j + 1] == Slept(j)
  {
    if attempts != [] {
      var n := |attempts| - 1;
      FailureEventsShape(c, attempts[..n]);
    }
  }

  // ---------------------------------------------------------------------------
  // The service state machine
  // ---------------------------------------------------------------------------

  /** `TcpServiceState`. `Connecting` stands for the pending `connect_backoff` future
      and `Sending` for the receiving end of the one-shot channel: neither holds a stream. */
  datatype ServiceState = Disconnected | Connecting | Connected(stream: Stream) | Sending

  /** What polling the connect future answers. */
  datatype ConnectPoll = ConnectPending | ConnectReady(stream: Stream)

  /** What polling the one-shot receiver answers. */
  datatype HandoffPoll = HandoffPending | Handed(returned: Option<Stream>) | ChannelClosed

  datatype Poll<+T> = Pending | Ready(value: T)

  /** One turn of the `poll_ready` loop: a new state, or a value to return. */
  datatype LoopStep = Continue(next: ServiceState) | Exit(poll: Poll<Outcome<TcpError>>)

  /** Each turn of the loop that continues strictly lowers this rank. */
  function Rank(s: ServiceState): nat
  {
    match s
    case Connected(_) => 0
    case Connecting => 1
    case Disconnected => 2
    case Sending => 3
  }

  function PollStep(s: ServiceState, connect: ConnectPoll, handoff: HandoffPoll): (r: LoopStep)
    ensures r.Continue? ==> Rank(r.next) < Rank(s)
  {
    match s
    case Disconnected => Continue(Connecting)
    case Connecting =>
      (match connect
       case ConnectPending => Exit(Pending)
       case ConnectReady(stream) => Continue(Connected(stream)))
    case Connected(_) => Exit(Ready(Pass))
    case Sending =>
      (match handoff
       case HandoffPending => Exit(Pending)
       case Handed(Some(stream)) => Continue(Connected(stream))
       case Handed(None) => Continue(Disconnected)
       case ChannelClosed => Exit(Ready(Fail(ServiceStreamChannelClosed))))
  }

  /** What `poll_ready` returns and the state it leaves behind. */
  datatype PollResult = PollResult(poll: Poll<Outcome<TcpError>>, state: ServiceState)

  function PollReadySpec(s: ServiceState, connect: ConnectPoll, handoff: HandoffPoll): PollResult
    decreases Rank(s)
  {
    match PollStep(s, connect, handoff)
    case Exit(p) => PollResult(p, s)
    case Continue(next) => PollReadySpec(next, connect, handoff)
  }

  /** `poll_ready` is ready exactly when it leaves the service `Connected`; otherwise it
      is pending in `Connecting` or `Sending`, or has failed because the channel closed. */
  lemma {:induction false} PollReadyOutcomes(s: ServiceState, connect: ConnectPoll, handoff: HandoffPoll)
    ensures var r := PollReadySpec(s, connect, handoff);
      && (r.poll == Ready(Pass) <==> r.state.Connected?)
      && (r.poll == Pending ==> r.state == Connecting || r.state == Sending)
      && (r.poll.Ready? && r.poll.value.Fail? ==>
            r.poll.value.error == ServiceStreamChannelClosed
            && s == Sending && handoff == ChannelClosed && r.state == Sending)
    decreases Rank(s)
  {
    match PollStep(s, connect, handoff)
    case Exit(_) =>
    case Continue(next) => PollReadyOutcomes(next, connect, handoff);
  }

  /** A stream that `poll_ready` leaves in `Connected` was already there, came back over
      the channel, or is the one the connect future produced: none is invented. */
  lemma {:induction false} PollReadyStreamProvenance(s: ServiceState, connect: ConnectPoll, handoff: HandoffPoll)
    ensures var r := PollReadySpec(s, connect, handoff);
      r.state.Connected? ==>
        || s == r.state
        || (s == Sending && handoff == Handed(Some(r.state.stream)))
        || connect == ConnectReady(r.state.stream)
    decreases Rank(s)
  {
    match PollStep(s, connect, handoff)
    case Exit(_) =>
    case Continue(next) =>
      PollReadyStreamProvenance(next, connect, handoff);
  }

  /** The service is left `Sending` only when it was `Sending` and nothing came back. */
  lemma {:induction false} PollReadyLeavesSending(s: ServiceState, connect: ConnectPoll, handoff: HandoffPoll)
    ensures PollReadySpec(s, connect, handoff).state == Sending <==> s == Sending && !handoff.Handed?
    decreases Rank(s)
  {
    match PollStep(s, connect, handoff)
    case Exit(_) =>
    case Continue(next) =>
      PollReadyLeavesSending(next, connect, handoff);
  }

  /** The transition table of `poll_ready`, state by state. */
  lemma PollReadyTransitions(connect: ConnectPoll, handoff: HandoffPoll, stream: Stream)
    ensures PollReadySpec(Disconnected, ConnectPending, handoff) == PollResult(Pending, Connecting)
    ensures PollReadySpec(Disconnected, ConnectReady(stream), handoff) == PollResult(Ready(Pass), Connected(stream))
    ensures PollReadySpec(Connecting, ConnectPending, handoff) == PollResult(Pending, Connecting)
    ensures PollReadySpec(Connecting, ConnectReady(stream), handoff) == PollResult(Ready(Pass), Connected(stream))
    ensures PollReadySpec(Connected(stream), connect, handoff) == PollResult(Ready(Pass), Connected(stream))
    ensures PollReadySpec(Sending, connect, HandoffPending) == PollResult(Pending, Sending)
    ensures PollReadySpec(Sending, connect, Handed(Some(stream))) == PollResult(Ready(Pass), Connected(stream))
    ensures PollReadySpec(Sending, connect, Handed(None)) == PollReadySpec(Disconnected, connect, handoff)
    ensures PollReadySpec(Sending, connect, ChannelClosed) == PollResult(Ready(Fail(ServiceStreamChannelClosed)), Sending)
  {
  }

  // ---------------------------------------------------------------------------
  // Calls and the send task
  // ---------------------------------------------------------------------------

  const PollReadyFirst := "poll_ready must be called first"

  /** The write a call hands to its future: the stream moved out of the service and the bytes. */
  datatype SendTask = SendTask(stream: Stream, buf: seq<bv8>)

  /** What `call` produces: a future that owns the stream, or a panic. */
  datatype CallFuture = Panicked(message: string) | Write(task: SendTask)

  function CallSpec(s: ServiceState, buf: seq<bv8>): (f: CallFuture)
    ensures f.Write? <==> s.Connected?
    ensures f.Write? ==> f.task == SendTask(s.stream, buf)
    ensures f.Panicked? ==> f.message == PollReadyFirst
  {
    match s
    case Connected(stream) => Write(SendTask(stream, buf))
    case _ => Panicked(PollReadyFirst)
  }

  /** Whether `write_all` on the stream succeeds. */
  datatype WriteOutcome = Written | WriteFailed(error: IoError)

  /** What the call's future resolves to, and what it sends over the channel. */
  datatype SendCompletion = SendCompletion(response: Result<nat, TcpError>, handoff: Option<Stream>)

  /** The body of the future `call` returns. */
  function CompleteSend(task: SendTask, write: WriteOutcome): (r: SendCompletion)
    ensures r.response.Ok? <==> write.Written?
    ensures write.Written? ==> r.response == Ok(|task.buf|) && r.handoff == Some(task.stream)
    ensures write.WriteFailed? ==> r.response == Err(FailedToSend(write.error)) && r.handoff == None
  {
    match write
    case Written => SendCompletion(Ok(|task.buf|), Some(task.stream))
    case WriteFailed(e) => SendCompletion(Err(FailedToSend(e)), None)
  }

  /** A call made right after `poll_ready` answered ready never panics. */
  lemma ReadyThenCallWrites(s: ServiceState, connect: ConnectPoll, handoff: HandoffPoll, buf: seq<bv8>)
    requires PollReadySpec(s, connect, handoff).poll == Ready(Pass)
    ensures CallSpec(PollReadySpec(s, connect, handoff).state, buf).Write?
  {
    PollReadyOutcomes(s, connect, handoff);
  }

  /** After a successful write, the next `poll_ready` is ready with the same stream. */
  lemma AfterSuccessfulSend(task: SendTask, connect: ConnectPoll)
    ensures PollReadySpec(Sending, connect, Handed(CompleteSend(task, Written).handoff))
      == PollResult(Ready(Pass), Connected(task.stream))
  {
  }

  /** After a failed write, the next `poll_ready` drops the stream and starts a fresh
      connect: it ends `Connecting`, or `Connected` to the stream that connect produced. */
  lemma AfterFailedSend(task: SendTask, e: IoError, connect: ConnectPoll)
    ensures var r := PollReadySpec(Sending, connect, Handed(CompleteSend(task, WriteFailed(e)).handoff));
      && (connect == ConnectPending ==> r == PollResult(Pending, Connecting))
      && (connect.ConnectReady? ==> r == PollResult(Ready(Pass), Connected(connect.stream)))
  {
  }

  /** `TcpService`: the connector it clones into connect futures, and its state. */
  class TcpService {
    const connector: TcpConnector
    var state: ServiceState

    /** `TcpService::new`: a new service starts disconnected. */
    constructor (connector: TcpConnector)
      ensures this.connector == connector
      ensures state == Disconnected
    {
      this.connector := connector;
      state := Disconnected;
    }

    /** `poll_ready`: advance the state until it is connected or a future is pending. */
    method PollReady(connect: ConnectPoll, handoff: HandoffPoll) returns (p: Poll<Outcome<TcpError>>)
      modifies this
      ensures PollResult(p, state) == PollReadySpec(old(state), connect, handoff)
      ensures p == Ready(Pass) <==> state.Connected?
    {
      PollReadyOutcomes(old(state), connect, handoff);
      while true
        invariant PollReadySpec(state, connect, handoff) == PollReadySpec(old(state), connect, handoff)
        decreases Rank(state)
      {
        match state {
          case Disconnected =>
            state := Connecting;
          case Connecting =>
            if connect.ConnectPending? {
              return Pending;
            }
            state := Connected(connect.stream);
          case Connected(_) =>
            break;
          case Sending =>
            match handoff {
              case HandoffPending =>
                return Pending;
              case Handed(Some(stream)) =>
                state := Connected(stream);
              case Handed(None) =>
                state := Disconnected;
              case ChannelClosed =>
                return Ready(Fail(ServiceStreamChannelClosed));
            }
        }
      }
      p := Ready(Pass);
    }

    /** `call`: move the stream out of the state into the send future, leaving `Sending`.
        The state is replaced before the check, so a call in any other state panics
        with the service already `Sending`. */
    method Call(buf: seq<bv8>) returns (f: CallFuture)
      modifies this
      ensures state == Sending
      ensures f == CallSpec(old(state), buf)
      ensures f.Write? <==> old(state).Connected?
    {
      var previous := state;
      state := Sending;
      match previous {
        case Connected(stream) =>
          f := Write(SendTask(stream, buf));
        case _ =>
          f := Panicked(PollReadyFirst);
      }
    }
  }

  // ---------------------------------------------------------------------------
  // Single ownership of the stream
  // ---------------------------------------------------------------------------

  /** The service's one-shot channel: none outstanding, open with nothing sent yet,
      holding what the send task sent, or closed because its sender was dropped. */
  datatype Channel = NoChannel | Open | Holding(value: Option<Stream>) | Closed

  /** A send future in flight; `linked` says whether its sender belongs to the
      receiver the service currently holds. */
  datatype InFlight = InFlight(task: SendTask, linked: bool)

  /** The service together with the send future and channel it shares with it. */
  datatype System = System(service: ServiceState, inFlight: Option<InFlight>, channel: Channel)

  datatype SystemEvent =
    | PollEvent(connect: ConnectPoll)
    | CallEvent(buf: seq<bv8>)
    | FinishEvent(write: WriteOutcome)  // the in-flight future runs to completion
    | AbortEvent                        // the in-flight future is dropped unfinished

  function HandoffOf(ch: Channel): HandoffPoll
  {
    match ch
    case Holding(v) => Handed(v)
    case Closed => ChannelClosed
    case _ => HandoffPending
  }

  function Step(sys: System, ev: SystemEvent): System
  {
    match ev
    case PollEvent(connect) =>
      var h := HandoffOf(sys.channel);
      var r := PollReadySpec(sys.service, connect, h);
      // Leaving `Sending` drops the receiver.
      System(r.state, sys.inFlight, if r.state == Sending then sys.channel else NoChannel)
    case CallEvent(buf) =>
      // The old receiver, if any, is dropped; an in-flight future's sender is orphaned.
      var orphaned := if sys.inFlight.Some? then Some(sys.inFlight.value.(linked := false)) else None;
      (match CallSpec(sys.service, buf)
       case Write(task) => System(Sending, Some(InFlight(task, true)), Open)
       case Panicked(_) => System(Sending, orphaned, Closed))
    case FinishEvent(write) =>
      (match sys.inFlight
       case None => sys
       case Some(InFlight(task, linked)) =>
         var done := CompleteSend(task, write);
         System(sys.service, None, if linked then Holding(done.handoff) else sys.channel))
    case AbortEvent =>
      (match sys.inFlight
       case None => sys
       case Some(InFlight(_, linked)) =>
         System(sys.service, None, if linked then Closed else sys.channel))
  }

  /** How many places hold a live stream: the state, the in-flight future, the channel. */
  function Holders(sys: System): nat
  {
    (if sys.service.Connected? then 1 else 0)
    + (if sys.inFlight.Some? then 1 else 0)
    + (if sys.channel.Holding? && sys.channel.value.Some? then 1 else 0)
  }

  ghost predicate Inv(sys: System)
  {
    && (sys.channel != NoChannel <==> sys.service.Sending?)
    && (sys.channel == Open <==> sys.inFlight.Some? && sys.inFlight.value.linked)
    && (sys.inFlight.Some? && !sys.inFlight.value.linked ==> sys.channel == Closed)
    && (sys.channel.Holding? ==> sys.inFlight.None?)
  }

  const Initial := System(Disconnected, None, NoChannel)

  lemma InitialInv()
    ensures Inv(Initial) && Holders(Initial) == 0
  {
  }

  /** The invariant gives single ownership: at most one place holds the stream. */
  lemma InvSingleOwner(sys: System)
    requires Inv(sys)
    ensures Holders(sys) <= 1
    ensures sys.service.Connected? ==> sys.inFlight.None? && sys.channel == NoChannel
  {
  }

  /** Every event keeps the invariant, and with it single ownership. */
  lemma StepPreservesInv(sys: System, ev: SystemEvent)
    requires Inv(sys)
    ensures Inv(Step(sys, ev))
    ensures Holders(Step(sys, ev)) <= 1
  {
    match ev
    case PollEvent(connect) =>
      PollReadyLeavesSending(sys.service, connect, HandoffOf(sys.channel));
    case _ =>
  }

  /** A run of events from a fresh service. */
  function RunEvents(sys: System, evs: seq<SystemEvent>): System
    decreases |evs|
  {
    if evs == [] then sys else RunEvents(Step(sys, evs[0]), evs[1..])
  }

  lemma {:induction false} RunPreservesInv(sys: System, evs: seq<SystemEvent>)
    requires Inv(sys)
    ensures Inv(RunEvents(sys, evs)) && Holders(RunEvents(sys, evs)) <= 1
    decreases |evs|
  {
    if evs == [] {
      InvSingleOwner(sys);
    } else {
      StepPreservesInv(sys, evs[0]);
      RunPreservesInv(Step(sys, evs[0]), evs[1..]);
    }
  }

  /** However the service, its futures and its callers interleave, no two places ever
      hold the stream at once. */
  lemma SingleOwnerFromStart(evs: seq<SystemEvent>)
    ensures Holders(RunEvents(Initial, evs)) <= 1
  {
    InitialInv();
    RunPreservesInv(Initial, evs);
  }
}
