/** pkg/deviceplugin/server.go: starting and stopping the device-plugin server while ListAndWatch
    streams are open. First the protocol as a state machine, then the server's own methods. */
module PluginServer {
  import opened Text
  import opened Simulate

  /** Where a ListAndWatch handler is: in a Send, at its select, or done. */
  datatype Phase = Sending | Selecting | Returned

  /** An open stream belongs to one gRPC server; `tick` says that its ticker has fired. */
  datatype Stream = Stream(server: nat, phase: Phase, tick: bool)

  /** Where the holder of the mutex is in `stop`. */
  datatype Holder = Free | AtSelect | AtClose | AtGraceful | Draining(server: nat) | AtListener

  datatype State = State(
    closed: bool,          // whether stopUpdates is closed
    closes: nat,           // how often close was called on it; a second call would panic
    grpc: Option<nat>,     // the current gRPC server
    listener: bool,
    socket: bool,
    holder: Holder,
    servers: nat,          // gRPC servers created so far
    refusing: set<nat>,    // those that GracefulStop was called on
    streams: seq<Stream>)

  const NEW := State(false, 0, None, false, false, Free, 0, {}, [])

  predicate Open(st: Stream, g: nat) {
    st.server == g && st.phase != Returned
  }

  ghost predicate Drained(s: State, g: nat) {
    forall i | 0 <= i < |s.streams| :: !Open(s.streams[i], g)
  }

  datatype Started = RemoveFails | ListenFails | Up

  datatype Action =
    | Start(result: Started)
    | BeginStop
    | StopStep
    // a handler on its own
    | SendDone(i: nat, ok: bool)
    | TakeTick(i: nat)
    | TakeStop(i: nat)
    // the kubelet and the clock
    | Connect(server: nat)
    | HangUp(i: nat)
    | TickFires(i: nat)

  ghost predicate Enabled(s: State, a: Action) {
    match a
    case Start(_) => s.holder.Free?
    case BeginStop => s.holder.Free?
    case StopStep => !s.holder.Free? && (s.holder.Draining? ==> Drained(s, s.holder.server))
    case SendDone(i, _) => i < |s.streams| && s.streams[i].phase.Sending?
    case TakeTick(i) => i < |s.streams| && s.streams[i].phase.Selecting? && s.streams[i].tick
    case TakeStop(i) => i < |s.streams| && s.streams[i].phase.Selecting? && s.closed
    case Connect(g) => g < s.servers && g !in s.refusing
    case HangUp(i) => i < |s.streams| && s.streams[i].phase.Selecting?
    case TickFires(i) => i < |s.streams| && s.streams[i].phase != Returned
  }

  /** A step of a handler that waits for nobody outside the process. */
  predicate OwnMove(a: Action) {
    a.SendDone? || a.TakeTick? || a.TakeStop?
  }

  function Moved(s: State, i: nat, phase: Phase, tick: bool): State
    requires i < |s.streams|
  {
    s.(streams := s.streams[i := s.streams[i].(phase := phase, tick := tick)])
  }

  function AfterStart(s: State, result: Started): State {
    match result
    case RemoveFails => s
    case ListenFails => s.(socket := false)
    case Up => s.(socket := true, listener := true, grpc := Some(s.servers), servers := s.servers + 1)
  }

  /** One statement of `stop`. The check of the channel and the close are two of them: it is the
      mutex that keeps a second caller from checking in between. */
  function AfterStopStep(s: State): State
    requires !s.holder.Free?
  {
    match s.holder
    case AtSelect => s.(holder := if s.closed then AtGraceful else AtClose)
    case AtClose => s.(closed := true, closes := s.closes + 1, holder := AtGraceful)
    case AtGraceful =>
      if s.grpc.None? then s.(holder := AtListener)
      else s.(holder := Draining(s.grpc.value), refusing := s.refusing + {s.grpc.value})
    case Draining(_) => s.(grpc := None, holder := AtListener)
    case AtListener => s.(listener := false, socket := false, holder := Free)
  }

  ghost function Step(s: State, a: Action): State
    requires Enabled(s, a)
  {
    match a
    case Start(result) => AfterStart(s, result)
    case BeginStop => s.(holder := AtSelect)
    case StopStep => AfterStopStep(s)
    case SendDone(i, ok) => Moved(s, i, if ok then Selecting else Returned, s.streams[i].tick)
    case TakeTick(i) => Moved(s, i, Sending, false)
    case TakeStop(i) => Moved(s, i, Returned, s.streams[i].tick)
    case Connect(g) => s.(streams := s.streams + [Stream(g, Sending, false)])
    case HangUp(i) => Moved(s, i, Returned, s.streams[i].tick)
    case TickFires(i) => Moved(s, i, s.streams[i].phase, true)
  }

  ghost predicate StepAt(run: seq<State>, acts: seq<Action>, i: nat)
    requires |run| == |acts| + 1 && i < |acts|
  {
    Enabled(run[i], acts[i]) && run[i + 1] == Step(run[i], acts[i])
  }

  /** Any number of start and stop calls, queueing for the mutex, with streams coming and going. */
  ghost predicate Run(run: seq<State>, acts: seq<Action>) {
    && |run| == |acts| + 1 && run[0] == NEW
    && forall i | 0 <= i < |acts| :: StepAt(run, acts, i)
  }

  // ---------------------------------------------------------------- invariant

  ghost predicate StopOk(s: State) {
    && s.closes == (if s.closed then 1 else 0)
    && (s.holder.AtClose? ==> !s.closed)
    && (s.holder.AtGraceful? || s.holder.Draining? || s.holder.AtListener? ==> s.closed)
  }

  ghost predicate ServersOk(s: State) {
    && (s.grpc.Some? ==> s.grpc.value < s.servers)
    && (s.holder.Draining? ==> s.grpc == Some(s.holder.server) && s.holder.server in s.refusing)
    && (s.grpc.Some? && s.grpc.value in s.refusing ==> s.holder.Draining?)
    && (s.holder.AtListener? ==> s.grpc.None?)
    && (forall g | g in s.refusing :: g < s.servers)
    && (s.grpc.Some? ==> s.listener)
  }

  /** A server that GracefulStop has finished with has no open stream. */
  ghost predicate StreamsOk(s: State) {
    && (forall i | 0 <= i < |s.streams| :: s.streams[i].server < s.servers)
    && (forall g | g in s.refusing && s.holder != Draining(g) :: Drained(s, g))
  }

  ghost predicate Inv(s: State) {
    StopOk(s) && ServersOk(s) && StreamsOk(s)
  }

  lemma StepStopOk(s: State, a: Action)
    requires StopOk(s) && Enabled(s, a)
    ensures StopOk(Step(s, a))
    ensures s.closed ==> Step(s, a).closed
    ensures s.refusing <= Step(s, a).refusing
  {
    hide Drained;
  }

  lemma StepServersOk(s: State, a: Action)
    requires ServersOk(s) && Enabled(s, a)
    ensures ServersOk(Step(s, a))
  {
    hide Drained;
  }

  lemma StepStreamsOk(s: State, a: Action)
    requires ServersOk(s) && StreamsOk(s) && Enabled(s, a)
    ensures StreamsOk(Step(s, a))
  {
    var s' := Step(s, a);
    assert s'.servers >= s.servers;
    forall g | g in s'.refusing && s'.holder != Draining(g) ensures Drained(s', g) {
      assert g in s.refusing;
      assert Drained(s, g);
    }
  }

  lemma StepInv(s: State, a: Action)
    requires Inv(s) && Enabled(s, a)
    ensures Inv(Step(s, a))
    ensures s.closed ==> Step(s, a).closed
    ensures s.refusing <= Step(s, a).refusing
  {
    StepStopOk(s, a);
    StepServersOk(s, a);
    StepStreamsOk(s, a);
  }

  lemma {:induction false} Reachable(run: seq<State>, acts: seq<Action>, k: nat)
    requires Run(run, acts) && k < |run|
    ensures Inv(run[k])
  {
    if k > 0 {
      Reachable(run, acts, k - 1);
      assert StepAt(run, acts, k - 1);
      StepInv(run[k - 1], acts[k - 1]);
    }
  }

  // ---------------------------------------------------------------- the channel

  /** Over any sequence of starts and stops the channel is closed at most once, and it never
      becomes open again. */
  lemma {:induction false} ClosedOnce(run: seq<State>, acts: seq<Action>, i: nat, k: nat)
    requires Run(run, acts) && i <= k < |run|
    ensures run[k].closes <= 1 && (run[k].closes == 1 <==> run[k].closed)
    ensures run[i].closed ==> run[k].closed
    ensures run[i].refusing <= run[k].refusing
  {
    Reachable(run, acts, k);
    if i < k {
      ClosedOnce(run, acts, i, k - 1);
      Reachable(run, acts, k - 1);
      assert StepAt(run, acts, k - 1);
      StepInv(run[k - 1], acts[k - 1]);
    }
  }

  /** Some step is open to handler i alone. */
  ghost predicate CanMove(s: State, i: nat) {
    Enabled(s, SendDone(i, true)) || Enabled(s, TakeTick(i)) || Enabled(s, TakeStop(i))
  }

  /** A handler in its select between two ticks can get out of it by itself only if the channel is
      closed. */
  lemma CloseFreesStreams(s: State, i: nat)
    requires i < |s.streams| && s.streams[i].phase != Returned
    ensures CanMove(s, i) <==> s.closed || s.streams[i].phase.Sending? || s.streams[i].tick
    ensures Enabled(s, TakeStop(i)) <==> s.closed && s.streams[i].phase.Selecting?
  {
  }

  /** Each open handler sits in its select between two ticks, and the channel is open. */
  ghost predicate Stuck(s: State, g: nat) {
    && s.holder == Draining(g) && !s.closed && g in s.refusing && !Drained(s, g)
    && forall i | 0 <= i < |s.streams| && Open(s.streams[i], g) :: s.streams[i].phase.Selecting? && !s.streams[i].tick
  }

  predicate Outside(s: State, a: Action, g: nat) {
    (a.HangUp? || a.TickFires?) && a.i < |s.streams| && s.streams[a.i].server == g
  }

  /** Why the channel must be closed before the wait: a wait entered with the channel open, while
      the handlers sit in their selects, is a deadlock. Neither the wait nor any of its handlers can
      go on, and nothing but a tick or the kubelet's hanging up on one of them changes that: no start,
      no stop, no other stream. */
  lemma {:induction false} OpenChannelDeadlocks(run: seq<State>, acts: seq<Action>, g: nat, k: nat)
    requires |run| == |acts| + 1 && k <= |acts| && Stuck(run[0], g)
    requires forall i | 0 <= i < |acts| :: StepAt(run, acts, i) && !Outside(run[i], acts[i], g)
    ensures Stuck(run[k], g)
    ensures !Enabled(run[k], StopStep) && !Enabled(run[k], BeginStop) && forall r :: !Enabled(run[k], Start(r))
    ensures forall a | OwnMoveOn(run[k], a, g) :: !Enabled(run[k], a)
  {
    if k > 0 {
      OpenChannelDeadlocks(run, acts, g, k - 1);
      assert StepAt(run, acts, k - 1);
      StuckStays(run[k - 1], acts[k - 1], g);
    }
  }

  lemma StuckStays(s: State, a: Action, g: nat)
    requires Stuck(s, g) && Enabled(s, a) && !Outside(s, a, g)
    ensures Stuck(Step(s, a), g)
  {
    var s' := Step(s, a);
    var i :| 0 <= i < |s.streams| && Open(s.streams[i], g);
    assert Open(s'.streams[i], g);
  }

  /** The channel is made by New and never remade, so after the first stop, whatever is started
      later, every handler can leave its select at once: a restarted server cannot keep a stream. */
  lemma RestartedStreamsLeave(run: seq<State>, acts: seq<Action>, i: nat, k: nat, m: nat)
    requires Run(run, acts) && i <= k < |run| && run[i].closed
    requires m < |run[k].streams| && run[k].streams[m].phase.Selecting?
    ensures Enabled(run[k], TakeStop(m)) && Step(run[k], TakeStop(m)).streams[m].phase.Returned?
  {
    ClosedOnce(run, acts, i, k);
  }

  // ---------------------------------------------------------------- a whole stop

  function Rank(h: Holder): nat {
    match h
    case AtSelect => 5 case AtClose => 4 case AtGraceful => 3 case Draining(_) => 2 case AtListener => 1 case Free => 0
  }

  /** The rest of `stop`, the handlers' steps left out. */
  function Finish(s: State): State
    decreases Rank(s.holder)
  {
    if s.holder.Free? then s else Finish(AfterStopStep(s))
  }

  /** What a whole `stop` makes of the server. */
  function Stopped(s: State): State {
    s.(closed := true, closes := if s.closed then s.closes else s.closes + 1, grpc := None, listener := false,
       socket := false, refusing := s.refusing + if s.grpc.Some? then {s.grpc.value} else {})
  }

  /** The statements of `stop` add up to that, and a second `stop` changes nothing. */
  lemma StopIsIdempotent(s: State)
    requires s.holder.Free?
    ensures Finish(s.(holder := AtSelect)) == Stopped(s)
    ensures Stopped(Stopped(s)) == Stopped(s)
  {
    StopFinishes(s);
  }

  lemma StopFinishes(s: State)
    requires s.holder.Free?
    ensures Finish(s.(holder := AtSelect)) == Stopped(s)
  {
    var s1 := s.(holder := AtGraceful, closed := true, closes := if s.closed then s.closes else s.closes + 1);
    var s2 := s1.(holder := AtListener, grpc := None, refusing := Stopped(s).refusing);
    assert Finish(s2) == Finish(AfterStopStep(s2)) == Stopped(s);
    if s.grpc.Some? {
      var d := s1.(holder := Draining(s.grpc.value), refusing := Stopped(s).refusing);
      assert AfterStopStep(s1) == d && AfterStopStep(d) == s2;
      assert Finish(s1) == Finish(d) == Finish(s2);
    } else {
      assert AfterStopStep(s1) == s2;
    }
    var s0 := s.(holder := AtSelect);
    if s.closed { assert AfterStopStep(s0) == s1; } else {
      assert AfterStopStep(AfterStopStep(s0)) == s1;
      assert Finish(AfterStopStep(s0)) == Finish(s1);
    }
  }

  // ---------------------------------------------------------------- the wait ends

  /** An upper bound on the steps that a handler of server g can still take between two ticks. */
  function Weight(st: Stream, g: nat): nat {
    if !Open(st, g) then 0 else (if st.phase.Sending? then 2 else 1) + if st.tick then 2 else 0
  }

  function Measure(streams: seq<Stream>, g: nat): nat {
    if |streams| == 0 then 0 else Measure(streams[..|streams| - 1], g) + Weight(streams[|streams| - 1], g)
  }

  lemma {:induction false} MeasureUpdate(streams: seq<Stream>, g: nat, i: nat, st: Stream)
    requires i < |streams|
    ensures Measure(streams[i := st], g) == Measure(streams, g) - Weight(streams[i], g) + Weight(st, g)
    ensures Measure(streams, g) >= Weight(streams[i], g)
  {
    var n := |streams| - 1;
    if i < n {
      MeasureUpdate(streams[..n], g, i, st);
      assert streams[i := st][..n] == streams[..n][i := st];
    } else {
      assert streams[i := st][..n] == streams[..n];
    }
  }

  lemma {:induction false} MeasureZero(streams: seq<Stream>, g: nat)
    ensures Measure(streams, g) == 0 <==> forall i | 0 <= i < |streams| :: !Open(streams[i], g)
  {
    if |streams| > 0 {
      var n := |streams| - 1;
      MeasureZero(streams[..n], g);
      assert streams == streams[..n] + [streams[n]];
    }
  }

  function StreamOf(a: Action): nat
    requires OwnMove(a) || a.HangUp? || a.TickFires?
  {
    a.i
  }

  predicate OwnMoveOn(s: State, a: Action, g: nat) {
    OwnMove(a) && StreamOf(a) < |s.streams| && s.streams[StreamOf(a)].server == g
  }

  /** While g is drained, its handlers' own steps wear the measure down and only a tick adds to it. */
  lemma StepMeasure(s: State, a: Action, g: nat)
    requires Inv(s) && Enabled(s, a) && s.holder == Draining(g)
    ensures var before, after := Measure(s.streams, g), Measure(Step(s, a).streams, g);
            if OwnMoveOn(s, a, g) then after < before else if a.TickFires? then after <= before + 2 else after <= before
  {
    if OwnMove(a) || a.HangUp? || a.TickFires? {
      var i := StreamOf(a);
      MeasureUpdate(s.streams, g, i, Step(s, a).streams[i]);
    } else if a.Connect? {
      assert (s.streams + [Stream(a.server, Sending, false)])[..|s.streams|] == s.streams;
    }
  }

  function OwnMoves(run: seq<State>, acts: seq<Action>, g: nat, i: nat, k: nat): nat
    requires |run| == |acts| + 1 && i <= k <= |acts|
    decreases k
  {
    if i == k then 0 else OwnMoves(run, acts, g, i, k - 1) + if OwnMoveOn(run[k - 1], acts[k - 1], g) then 1 else 0
  }

  function Ticks(acts: seq<Action>, i: nat, k: nat): nat
    requires i <= k <= |acts|
    decreases k
  {
    if i == k then 0 else Ticks(acts, i, k - 1) + if acts[k - 1].TickFires? then 1 else 0
  }

  /** The wait ends. From when GracefulStop has been entered, the handlers that it waits for have at
      most Measure own steps left, plus two for every tick, however the scheduler picks and
      whatever else happens; and as long as it still waits, each of them has such a step. */
  lemma {:induction false} WaitEnds(run: seq<State>, acts: seq<Action>, g: nat, i: nat, k: nat)
    requires Run(run, acts) && i <= k < |run|
    requires forall m | i <= m <= k :: run[m].holder == Draining(g)
    ensures var before, after := Measure(run[i].streams, g), Measure(run[k].streams, g);
            OwnMoves(run, acts, g, i, k) + after <= before + 2 * Ticks(acts, i, k)
    ensures Measure(run[k].streams, g) == 0 <==> Enabled(run[k], StopStep)
    ensures forall m | 0 <= m < |run[k].streams| && Open(run[k].streams[m], g) :: CanMove(run[k], m)
  {
    Reachable(run, acts, k);
    MeasureZero(run[k].streams, g);
    if i < k {
      WaitEnds(run, acts, g, i, k - 1);
      Reachable(run, acts, k - 1);
      assert StepAt(run, acts, k - 1);
      StepMeasure(run[k - 1], acts[k - 1], g);
    }
  }

  // ---------------------------------------------------------------- the server object

  class Server {
    const devices: seq<string>
    var closed: bool
    var closes: nat
    var grpcServer: Option<nat>
    var listener: bool
    var socket: bool
    var servers: nat
    var refusing: set<nat>
    var streams: seq<Stream>

    /** The state between two calls. */
    ghost function Now(): State
      reads this
    {
      State(closed, closes, grpcServer, listener, socket, Free, servers, refusing, streams)
    }

    /** New: a negative count is taken as zero. */
    constructor (gpuCount: int)
      ensures Now() == NEW && devices == DeviceIds(if gpuCount < 0 then 0 else gpuCount)
    {
      var built := BuildDevices(if gpuCount < 0 then 0 else gpuCount);
      closed, closes, grpcServer, listener, socket := false, 0, None, false, false;
      servers, refusing, streams := 0, {}, [];
      devices := built[..];
    }

    method Start(removeFails: bool, listenFails: bool) returns (ok: bool)
      modifies this
      ensures Now() == AfterStart(old(Now()), if removeFails then RemoveFails
                                              else if listenFails then ListenFails else Up)
      ensures ok <==> !removeFails && !listenFails
      ensures closed == old(closed) && closes == old(closes) && streams == old(streams) && refusing == old(refusing)
      ensures ok ==> grpcServer == Some(old(servers)) && servers == old(servers) + 1 && listener && socket
      ensures !ok ==> grpcServer == old(grpcServer) && servers == old(servers) && listener == old(listener)
      ensures !ok ==> socket == (old(socket) && removeFails)
    {
      if removeFails { return false; }
      socket := false;
      if listenFails { return false; }
      socket := true;
      listener := true;
      grpcServer := Some(servers);
      servers := servers + 1;
      return true;
    }

    /** GracefulStop's wait: the scheduler moves one open handler at a time, and `outside` tells when
        in between a tick fires or the kubelet hangs up. A handler in its select leaves it
        through the channel only if that is closed, and stays where it is otherwise; so it is the
        closed channel that makes the wait end. */
    method AwaitHandlers(g: nat, sendOk: nat -> bool, pickTick: nat -> bool, outside: seq<Option<Outer>>)
      requires closed
      modifies this`streams
      ensures |streams| == |old(streams)|
      ensures forall i | 0 <= i < |streams| ::
                if Open(old(streams)[i], g) then streams[i].phase.Returned? && streams[i].server == g
                else streams[i] == old(streams)[i]
    {
      ghost var before := streams;
      var e := 0;
      MeasureZero(streams, g);
      while exists i | 0 <= i < |streams| :: Open(streams[i], g)
        invariant |streams| == |before| && e <= |outside|
        invariant forall i | 0 <= i < |streams| ::
                    if Open(before[i], g) then streams[i].server == g else streams[i] == before[i]
        decreases |outside| - e, Measure(streams, g)
      {
        var o := if e < |outside| then outside[e] else None;
        if e < |outside| { e := e + 1; }
        if o.Some? {
          var k := o.value.i;
          if k < |streams| && Open(streams[k], g) { streams := streams[k := Hit(streams[k], o.value)]; }
        } else {
          var i :| 0 <= i < |streams| && Open(streams[i], g);
          var next := MoveOn(streams[i], closed, sendOk(i), pickTick(i));
          MeasureUpdate(streams, g, i, next);
          streams := streams[i := next];
        }
      }
    }

    /** stop: afterwards the channel is closed, the server it found has no open stream and accepts
        none, and neither listener nor socket is left. Streams of other servers are untouched. */
    method Stop(sendOk: nat -> bool, pickTick: nat -> bool, outside: seq<Option<Outer>>)
      requires Inv(Now())
      modifies this
      ensures Inv(Now())
      ensures Now() == Stopped(old(Now())).(streams := streams)
      ensures closed && closes == 1 && grpcServer.None? && !listener && !socket && servers == old(servers)
      ensures refusing == old(refusing) + if old(grpcServer).Some? then {old(grpcServer).value} else {}
      ensures old(grpcServer).Some? ==> Drained(Now(), old(grpcServer).value)
      ensures |streams| == |old(streams)|
      ensures forall i | 0 <= i < |streams| :: streams[i].server == old(streams)[i].server
      ensures forall i | 0 <= i < |streams| && old(grpcServer) != Some(old(streams)[i].server) ::
                streams[i] == old(streams)[i]
      ensures old(grpcServer).None? ==> streams == old(streams)
    {
      if !closed {
        closed := true;
        closes := closes + 1;
      }
      if grpcServer.Some? {
        refusing := refusing + {grpcServer.value};
        AwaitHandlers(grpcServer.value, sendOk, pickTick, outside);
        grpcServer := None;
      }
      listener := false;
      socket := false;
    }
  }

  /** What can happen to a handler from outside. */
  datatype Outer = Fires(i: nat) | HangsUp(i: nat)

  function Hit(st: Stream, o: Outer): Stream {
    match o
    case Fires(_) => st.(tick := true)
    case HangsUp(_) => if st.phase.Selecting? then st.(phase := Returned) else st
  }

  /** A handler's own next move, if it has one. */
  function MoveOn(st: Stream, closed: bool, sendOk: bool, pickTick: bool): Stream {
    if st.phase.Sending? then st.(phase := if sendOk then Selecting else Returned)
    else if st.tick && (pickTick || !closed) then st.(phase := Sending, tick := false)
    else if closed then st.(phase := Returned)
    else st
  }

  /** What the select of ListAndWatch picks. */
  datatype Pick = ContextDone | StopUpdates | Tick(sendOk: bool)

  predicate Ends(p: Pick) { !p.Tick? || !p.sendOk }

  /** ListAndWatch: the first Send happens before the handler ever looks at the channel; then one
      per tick, until the context, the channel or a failed Send ends it. */
  method ListAndWatch(s: Server, firstOk: bool, picks: seq<Pick>)
    returns (sent: seq<seq<string>>, taken: nat, ended: bool)
    ensures |sent| >= 1 && forall i | 0 <= i < |sent| :: sent[i] == s.devices
    ensures !firstOk ==> ended && taken == 0 && |sent| == 1
    ensures taken <= |picks| && forall i | 0 <= i < taken && i + 1 < taken :: !Ends(picks[i])
    ensures firstOk ==> (ended <==> taken > 0 && Ends(picks[taken - 1])) && (!ended ==> taken == |picks|)
    ensures firstOk ==> |sent| == if taken > 0 && !picks[taken - 1].Tick? then taken else taken + 1
  {
    sent, taken, ended := [s.devices], 0, false;
    if !firstOk { return sent, 0, true; }
    while taken < |picks|
      invariant taken <= |picks| && |sent| == taken + 1
      invariant forall i | 0 <= i < taken :: !Ends(picks[i])
      invariant forall i | 0 <= i < |sent| :: sent[i] == s.devices
    {
      match picks[taken]
      case ContextDone => return sent, taken + 1, true;
      case StopUpdates => return sent, taken + 1, true;
      case Tick(ok) =>
        sent := sent + [s.devices];
        taken := taken + 1;
        if !ok { return sent, taken, true; }
    }
  }
}
