/** The reporting loop of the agent's entry point: connect (or exit 1), report
    the host descriptor once (an authentication rejection exits 1, anything
    else goes on), then sample and report the state once per second forever.
    `Next` and `Output` are the loop as a state machine over explicit events;
    `RunAgent` is the loop itself, cut off after a given number of ticks. */
module Agent {
  import opened Wrappers
  import opened GetInfo
  import opened ServerComm

  /** The status message by which the server rejects a wrong secret. */
  const AUTH_FAILED_MESSAGE: string := "客户端认证失败"
  const EXIT_FAILURE: int := 1
  const TICK_SECS: nat := 1

  /** What the server answers to a report. */
  datatype Reply = Ack | Rejected(message: string)

  datatype Phase = Connecting | HostReport | Sampling | Exited(code: int)

  /** The agent's externally visible steps, in the order it takes them. */
  datatype Action =
    | ExitProcess(code: int)
    | SendHost(host: Request<Host>)
    | RefreshCpu
    | BuildState
    | SendState(state: Request<State>)
    | Sleep(secs: nat)

  /** What the outside world contributes to one step: the outcome of connecting, the host
      descriptor built and the server's reply to it, or one tick's readings and reply. */
  datatype Event =
    | Connected(outcome: Result<Client>)
    | HostRound(host: Result<Request<Host>>, reply: Reply)
    | Tick(readings: StateReadings, reply: Reply)

  /** The loop's control state and the rate tracker's stored counters. */
  datatype AgentState = AgentState(phase: Phase, tracker: Totals)

  const START: AgentState := AgentState(Connecting, Totals(0, 0))

  predicate IsAuthFailure(reply: Reply)
  {
    reply.Rejected? && reply.message == AUTH_FAILED_MESSAGE
  }

  /** One state tick: refresh CPU usage, build the state (advancing the tracker when the
      network read succeeds), send it when the build succeeded, whatever the reply, then sleep. */
  function TickActions(token: string, tracker: Totals, rd: StateReadings): (acts: seq<Action>)
    ensures 3 <= |acts| <= 4
    ensures acts[0] == RefreshCpu && acts[1] == BuildState && acts[|acts| - 1] == Sleep(TICK_SECS)
    ensures var req := StateRequest(token, rd, tracker.rx, tracker.tx);
      (|acts| == 4 <==> req.Ok?) && (req.Ok? ==> acts[2] == SendState(req.value))
  {
    var req := StateRequest(token, rd, tracker.rx, tracker.tx);
    [RefreshCpu, BuildState] + (if req.Ok? then [SendState(req.value)] else []) + [Sleep(TICK_SECS)]
  }

  function Advance(tracker: Totals, rd: StateReadings): Totals
  {
    var net := NetworkInfo(rd.nics, tracker.rx, tracker.tx);
    if net.Ok? then Totals(net.value.allRx, net.value.allTx) else tracker
  }

  /** The phase and tracker after one event. An event the current phase does not wait
      for changes nothing. The tracker moves only on a tick, exactly when the tick's network
      read succeeds, whatever becomes of the rest of the state build. */
  function Next(s: AgentState, e: Event): (r: AgentState)
    ensures s.phase.Exited? ==> r == s
    ensures || r.phase == s.phase
            || (s.phase == Connecting && (r.phase == HostReport || r.phase == Exited(EXIT_FAILURE)))
            || (s.phase == HostReport && (r.phase == Sampling || r.phase == Exited(EXIT_FAILURE)))
    ensures r.tracker != s.tracker ==> s.phase == Sampling && r.phase == Sampling && e.Tick?
  {
    match e
    case Connected(outcome) =>
      if s.phase != Connecting then s
      else if outcome.Ok? then s.(phase := HostReport)
      else s.(phase := Exited(EXIT_FAILURE))
    case HostRound(host, reply) =>
      if s.phase != HostReport then s
      else if host.Ok? && IsAuthFailure(reply) then s.(phase := Exited(EXIT_FAILURE))
      else s.(phase := Sampling)
    case Tick(rd, _) =>
      if s.phase != Sampling then s
      else s.(tracker := Advance(s.tracker, rd))
  }

  /** The actions one event causes: exit 1 on a failed connection; send the host descriptor
      when it was built, then exit 1 on an authentication rejection; one state tick. */
  function Output(token: string, s: AgentState, e: Event): (acts: seq<Action>)
    ensures s.phase.Exited? ==> acts == []
    ensures !s.phase.Exited? && Next(s, e).phase.Exited? ==>
      acts != [] && acts[|acts| - 1] == ExitProcess(EXIT_FAILURE)
    ensures forall i :: 0 <= i < |acts| && acts[i].ExitProcess? ==>
      i == |acts| - 1 && acts[i].code == EXIT_FAILURE && Next(s, e).phase == Exited(EXIT_FAILURE)
    ensures forall i :: 0 <= i < |acts| && acts[i].SendHost? ==> i == 0 && s.phase == HostReport && e.HostRound?
  {
    match e
    case Connected(outcome) =>
      if s.phase == Connecting && outcome.Err? then [ExitProcess(EXIT_FAILURE)] else []
    case HostRound(host, reply) =>
      if s.phase != HostReport || host.Err? then []
      else if IsAuthFailure(reply) then [SendHost(host.value), ExitProcess(EXIT_FAILURE)]
      else [SendHost(host.value)]
    case Tick(rd, _) =>
      if s.phase == Sampling then TickActions(token, s.tracker, rd) else []
  }

  /** The state reached over a sequence of events. */
  function Final(s: AgentState, events: seq<Event>): AgentState
    decreases |events|
  {
    if events == [] then s else Final(Next(s, events[0]), events[1..])
  }

  /** The actions taken over a sequence of events. */
  function Trace(token: string, s: AgentState, events: seq<Event>): seq<Action>
    decreases |events|
  {
    if events == [] then [] else Output(token, s, events[0]) + Trace(token, Next(s, events[0]), events[1..])
  }

  lemma {:induction false} RunSplit(token: string, s: AgentState, a: seq<Event>, b: seq<Event>)
    ensures Final(s, a + b) == Final(Final(s, a), b)
    ensures Trace(token, s, a + b) == Trace(token, s, a) + Trace(token, Final(s, a), b)
    decreases |a|
  {
    if a == [] {
      assert a + b == b;
    } else {
      assert (a + b)[0] == a[0];
      assert (a + b)[1..] == a[1..] + b;
      RunSplit(token, Next(s, a[0]), a[1..], b);
    }
  }

  // ---------------------------------------------------------------------
  // Counting actions
  // ---------------------------------------------------------------------

  datatype ActionKind = ExitKind | HostKind | RefreshKind | BuildKind | StateKind | SleepKind

  function KindOf(a: Action): ActionKind
  {
    match a
    case ExitProcess(_) => ExitKind
    case SendHost(_) => HostKind
    case RefreshCpu => RefreshKind
    case BuildState => BuildKind
    case SendState(_) => StateKind
    case Sleep(_) => SleepKind
  }

  /** How many actions of the given kind occur. */
  function Count(actions: seq<Action>, k: ActionKind): nat
  {
    if actions == [] then 0 else (if KindOf(actions[0]) == k then 1 else 0) + Count(actions[1..], k)
  }

  lemma {:induction false} CountAppend(a: seq<Action>, b: seq<Action>, k: ActionKind)
    ensures Count(a + b, k) == Count(a, k) + Count(b, k)
  {
    if a == [] {
      assert a + b == b;
    } else {
      assert (a + b)[0] == a[0];
      assert (a + b)[1..] == a[1..] + b;
      CountAppend(a[1..], b, k);
    }
  }

  /** Every tick refreshes CPU usage once, builds once, sends at most once (exactly when the
      build succeeded) and ends with one one-second sleep. */
  lemma TickActionCounts(token: string, tracker: Totals, rd: StateReadings)
    ensures var acts := TickActions(token, tracker, rd);
      && Count(acts, RefreshKind) == 1 && Count(acts, BuildKind) == 1
      && Count(acts, StateKind) == (if StateRequest(token, rd, tracker.rx, tracker.tx).Ok? then 1 else 0)
      && Count(acts, SleepKind) == 1
      && Count(acts, HostKind) == 0 && Count(acts, ExitKind) == 0
      && acts[0] == RefreshCpu && acts[1] == BuildState
      && acts[|acts| - 1] == Sleep(TICK_SECS)
  {
    var acts := TickActions(token, tracker, rd);
    var req := StateRequest(token, rd, tracker.rx, tracker.tx);
    var mid: seq<Action> := if req.Ok? then [SendState(req.value)] else [];
    assert acts == [RefreshCpu, BuildState] + mid + [Sleep(TICK_SECS)];
    TickShapeCounts(mid);
  }

  /** The counts of a tick's shape: refresh, build, at most one state send, sleep. */
  lemma TickShapeCounts(mid: seq<Action>)
    requires mid == [] || (|mid| == 1 && mid[0].SendState?)
    ensures var acts := [RefreshCpu, BuildState] + mid + [Sleep(TICK_SECS)];
      && Count(acts, RefreshKind) == 1 && Count(acts, BuildKind) == 1
      && Count(acts, StateKind) == |mid| && Count(acts, SleepKind) == 1
      && Count(acts, HostKind) == 0 && Count(acts, ExitKind) == 0
  {
    var acts := [RefreshCpu, BuildState] + mid + [Sleep(TICK_SECS)];
    forall k: ActionKind
      ensures Count(acts, k) == Count([RefreshCpu], k) + Count([BuildState], k) + Count(mid, k)
                                + Count([Sleep(TICK_SECS)], k)
    {
      assert acts == [RefreshCpu] + [BuildState] + mid + [Sleep(TICK_SECS)];
      CountAppend([RefreshCpu] + [BuildState] + mid, [Sleep(TICK_SECS)], k);
      CountAppend([RefreshCpu] + [BuildState], mid, k);
      CountAppend([RefreshCpu], [BuildState], k);
    }
    forall k: ActionKind
      ensures Count([RefreshCpu], k) == (if k == RefreshKind then 1 else 0)
      ensures Count([BuildState], k) == (if k == BuildKind then 1 else 0)
      ensures Count([Sleep(TICK_SECS)], k) == (if k == SleepKind then 1 else 0)
      ensures Count(mid, k) == (if k == StateKind then |mid| else 0)
    {
      CountSingle(RefreshCpu, k);
      CountSingle(BuildState, k);
      CountSingle(Sleep(TICK_SECS), k);
      if mid != [] {
        assert mid == [mid[0]];
        CountSingle(mid[0], k);
      }
    }
  }

  lemma CountSingle(a: Action, k: ActionKind)
    ensures Count([a], k) == if KindOf(a) == k then 1 else 0
  {
    assert [a][1..] == [];
  }

  // ---------------------------------------------------------------------
  // The exit policy
  // ---------------------------------------------------------------------

  /** Once exited, nothing further happens. */
  lemma {:induction false} ExitedIsFinal(token: string, s: AgentState, events: seq<Event>)
    requires s.phase.Exited?
    ensures Final(s, events) == s && Trace(token, s, events) == []
    decreases |events|
  {
    if events != [] {
      ExitedIsFinal(token, s, events[1..]);
    }
  }

  /** A failed connection exits with code 1 before any report is sent, whatever follows. */
  lemma ConnectFailureExits(token: string, e: string, events: seq<Event>)
    ensures Final(START, [Connected(Err(e))] + events).phase == Exited(EXIT_FAILURE)
    ensures Trace(token, START, [Connected(Err(e))] + events) == [ExitProcess(EXIT_FAILURE)]
  {
    var evs := [Connected(Err(e))] + events;
    assert evs[1..] == events;
    ExitedIsFinal(token, Next(START, evs[0]), events);
  }

  /** Sampling never ends: whatever the readings and replies (authentication rejections
      included), the loop stays in the sampling phase, never exits and never re-sends the
      host descriptor. */
  lemma {:induction false} SamplingForever(token: string, s: AgentState, events: seq<Event>)
    requires s.phase == Sampling
    ensures Final(s, events).phase == Sampling
    ensures Count(Trace(token, s, events), ExitKind) == 0
    ensures Count(Trace(token, s, events), HostKind) == 0
    decreases |events|
  {
    if events != [] {
      var a1 := Output(token, s, events[0]);
      var rest := Trace(token, Next(s, events[0]), events[1..]);
      SamplingForever(token, Next(s, events[0]), events[1..]);
      if events[0].Tick? {
        TickActionCounts(token, s.tracker, events[0].readings);
      }
      CountAppend(a1, rest, ExitKind);
      CountAppend(a1, rest, HostKind);
    }
  }

  /** An authentication rejection of the host report exits with code 1 right after the report;
      any other reply, or a host build that failed, moves on to sampling for good. */
  lemma HostReportPolicy(token: string, s: AgentState, host: Result<Request<Host>>, reply: Reply,
                         events: seq<Event>)
    requires s.phase == HostReport
    ensures var evs := [HostRound(host, reply)] + events;
      var s1, acts := Final(s, evs), Trace(token, s, evs);
      && (host.Ok? && IsAuthFailure(reply) ==>
            s1.phase == Exited(EXIT_FAILURE) && acts == [SendHost(host.value), ExitProcess(EXIT_FAILURE)])
      && (host.Ok? && !IsAuthFailure(reply) ==>
            s1.phase == Sampling && acts[0] == SendHost(host.value) && Count(acts, ExitKind) == 0)
      && (host.Err? ==> s1.phase == Sampling && Count(acts, HostKind) == 0 && Count(acts, ExitKind) == 0)
  {
    var evs := [HostRound(host, reply)] + events;
    assert evs[0] == HostRound(host, reply) && evs[1..] == events;
    var s1 := Next(s, evs[0]);
    var a1 := Output(token, s, evs[0]);
    if s1.phase.Exited? {
      ExitedIsFinal(token, s1, events);
    } else {
      SamplingForever(token, s1, events);
      CountAppend(a1, Trace(token, s1, events), ExitKind);
      CountAppend(a1, Trace(token, s1, events), HostKind);
    }
  }

  function Ticks(inputs: seq<(StateReadings, Reply)>): (events: seq<Event>)
    ensures |events| == |inputs|
    ensures forall i :: 0 <= i < |inputs| ==> events[i] == Tick(inputs[i].0, inputs[i].1)
  {
    seq(|inputs|, i requires 0 <= i < |inputs| => Tick(inputs[i].0, inputs[i].1))
  }

  /** N ticks of sampling refresh the CPU N times, build N states, send at most N states,
      sleep N seconds, and neither exit nor send a host descriptor. */
  lemma {:induction false} TicksCounts(token: string, s: AgentState, inputs: seq<(StateReadings, Reply)>)
    requires s.phase == Sampling
    ensures var acts := Trace(token, s, Ticks(inputs));
      && Count(acts, RefreshKind) == |inputs|
      && Count(acts, BuildKind) == |inputs|
      && Count(acts, SleepKind) == |inputs|
      && Count(acts, StateKind) <= |inputs|
      && Count(acts, HostKind) == 0
      && Count(acts, ExitKind) == 0
    decreases |inputs|
  {
    if inputs != [] {
      var evs := Ticks(inputs);
      var s1 := Next(s, evs[0]);
      var a1 := Output(token, s, evs[0]);
      assert evs[1..] == Ticks(inputs[1..]);
      TicksCounts(token, s1, inputs[1..]);
      TickActionCounts(token, s.tracker, inputs[0].0);
      forall k: ActionKind
        ensures Count(Trace(token, s, evs), k) == Count(a1, k) + Count(Trace(token, s1, evs[1..]), k)
      {
        CountAppend(a1, Trace(token, s1, evs[1..]), k);
      }
    }
  }

  /** A tick whose interface listing, statistics, load and uptime reads all succeed. */
  ghost predicate Healthy(rd: StateReadings)
  {
    rd.nics.Ok? && AllReadable(rd.nics.value) && rd.load.Ok? && rd.uptime.Ok?
  }

  /** With a usable token and every read succeeding, N ticks send exactly N state reports. */
  lemma {:induction false} HealthyTicksSendEach(token: string, s: AgentState, inputs: seq<(StateReadings, Reply)>)
    requires s.phase == Sampling && ValidMetadataValue(token)
    requires forall i :: 0 <= i < |inputs| ==> Healthy(inputs[i].0)
    ensures Count(Trace(token, s, Ticks(inputs)), StateKind) == |inputs|
    decreases |inputs|
  {
    if inputs != [] {
      var evs := Ticks(inputs);
      var s1 := Next(s, evs[0]);
      var rd := inputs[0].0;
      assert evs[1..] == Ticks(inputs[1..]);
      assert forall i :: 0 <= i < |inputs[1..]| ==> inputs[1..][i] == inputs[i + 1];
      HealthyTicksSendEach(token, s1, inputs[1..]);
      NetworkInfoCorrect(rd.nics, s.tracker.rx, s.tracker.tx);
      StateRequestCorrect(token, rd, s.tracker.rx, s.tracker.tx);
      TickActionCounts(token, s.tracker, rd);
      CountAppend(Output(token, s, evs[0]), Trace(token, s1, evs[1..]), StateKind);
    }
  }

  /** Over any run from process start: the host descriptor is sent at most once, the agent
      exits at most once and only with code 1, and it has exited exactly when an exit occurs
      in the trace, as its last action. */
  lemma {:induction false} RunFromStart(token: string, events: seq<Event>)
    ensures var s, acts := Final(START, events), Trace(token, START, events);
      && Count(acts, HostKind) <= 1
      && Count(acts, ExitKind) <= 1
      && (s.phase.Exited? <==> Count(acts, ExitKind) == 1)
      && (s.phase.Exited? ==> s.phase.code == EXIT_FAILURE && acts[|acts| - 1] == ExitProcess(EXIT_FAILURE))
  {
    ConnectingRuns(token, START, events);
  }

  lemma {:induction false} ConnectingRuns(token: string, s: AgentState, events: seq<Event>)
    requires s.phase == Connecting
    ensures var s1, acts := Final(s, events), Trace(token, s, events);
      && Count(acts, HostKind) <= 1
      && Count(acts, ExitKind) <= 1
      && (s1.phase.Exited? <==> Count(acts, ExitKind) == 1)
      && (s1.phase.Exited? ==> s1.phase.code == EXIT_FAILURE && acts[|acts| - 1] == ExitProcess(EXIT_FAILURE))
    decreases |events|
  {
    if events != [] {
      var s1 := Next(s, events[0]);
      var a1 := Output(token, s, events[0]);
      var rest := Trace(token, s1, events[1..]);
      if s1.phase.Exited? {
        ExitedIsFinal(token, s1, events[1..]);
        assert Trace(token, s, events) == a1 + [];
      } else if s1.phase == Connecting {
        ConnectingRuns(token, s1, events[1..]);
        assert a1 == [];
        assert Trace(token, s, events) == rest;
      } else {
        HostReportRuns(token, s1, events[1..]);
        assert a1 == [];
        assert Trace(token, s, events) == rest;
      }
    }
  }

  lemma {:induction false} HostReportRuns(token: string, s: AgentState, events: seq<Event>)
    requires s.phase == HostReport
    ensures var s1, acts := Final(s, events), Trace(token, s, events);
      && Count(acts, HostKind) <= 1
      && Count(acts, ExitKind) <= 1
      && (s1.phase.Exited? <==> Count(acts, ExitKind) == 1)
      && (s1.phase.Exited? ==> s1.phase.code == EXIT_FAILURE && acts[|acts| - 1] == ExitProcess(EXIT_FAILURE))
    decreases |events|
  {
    if events != [] {
      var s1 := Next(s, events[0]);
      var a1 := Output(token, s, events[0]);
      var rest := Trace(token, s1, events[1..]);
      CountAppend(a1, rest, HostKind);
      CountAppend(a1, rest, ExitKind);
      if s1.phase.Exited? {
        ExitedIsFinal(token, s1, events[1..]);
        assert a1 == [SendHost(events[0].host.value), ExitProcess(EXIT_FAILURE)];
        assert Trace(token, s, events) == a1 + [];
        assert a1[1..] == [ExitProcess(EXIT_FAILURE)];
      } else if s1.phase == Sampling {
        SamplingForever(token, s1, events[1..]);
        assert a1 == [] || a1 == [SendHost(events[0].host.value)];
        assert a1 != [] ==> a1[1..] == [];
      } else {
        HostReportRuns(token, s1, events[1..]);
        assert a1 == [];
      }
    }
  }

  // ---------------------------------------------------------------------
  // The rate tracker inside the loop
  // ---------------------------------------------------------------------

  /** The network readings of a run of ticks. */
  function Listings(inputs: seq<(StateReadings, Reply)>): (ls: seq<Result<seq<NicSample>>>)
    ensures |ls| == |inputs|
    ensures forall i :: 0 <= i < |inputs| ==> ls[i] == inputs[i].0.nics
  {
    seq(|inputs|, i requires 0 <= i < |inputs| => inputs[i].0.nics)
  }

  /** Over a run of ticks, the loop's tracker holds the totals of the latest successful network
      read, as the stand-alone tracker would after the same sequence of calls, so each sample's
      speed is its totals minus those of the latest earlier successful read (`TrackSpeeds`). */
  lemma {:induction false} TrackerFollowsTrack(s: AgentState, inputs: seq<(StateReadings, Reply)>)
    requires s.phase == Sampling
    ensures Final(s, Ticks(inputs)).tracker
         == Latest(Track(Listings(inputs), s.tracker.rx, s.tracker.tx), s.tracker)
    decreases |inputs|
  {
    if inputs != [] {
      var evs := Ticks(inputs);
      assert evs[1..] == Ticks(inputs[1..]);
      assert Listings(inputs)[0] == inputs[0].0.nics;
      assert Listings(inputs)[1..] == Listings(inputs[1..]);
      var s1 := Next(s, evs[0]);
      TrackerFollowsTrack(s1, inputs[1..]);
    }
  }

  /** The network read comes before the uptime read: when the network read succeeds and the
      uptime read fails, the tick sends nothing, yet the tracker still moves to the new totals. */
  lemma UptimeFailureStillAdvances(token: string, s: AgentState, rd: StateReadings, reply: Reply)
    requires s.phase == Sampling
    requires NetworkInfo(rd.nics, s.tracker.rx, s.tracker.tx).Ok? && rd.uptime.Err?
    ensures var net := NetworkInfo(rd.nics, s.tracker.rx, s.tracker.tx).value;
      && Next(s, Tick(rd, reply)).tracker == Totals(net.allRx, net.allTx)
      && Count(Output(token, s, Tick(rd, reply)), StateKind) == 0
  {
    StateRequestCorrect(token, rd, s.tracker.rx, s.tracker.tx);
    TickActionCounts(token, s.tracker, rd);
  }

  /** A token that is not a valid metadata value makes every state build fail: sampling goes on
      forever without sending a single state report. */
  lemma {:induction false} InvalidTokenNeverReports(token: string, s: AgentState, events: seq<Event>)
    requires !ValidMetadataValue(token)
    requires s.phase == Sampling
    ensures Count(Trace(token, s, events), StateKind) == 0
    decreases |events|
  {
    if events != [] {
      var s1 := Next(s, events[0]);
      var a1 := Output(token, s, events[0]);
      InvalidTokenNeverReports(token, s1, events[1..]);
      if events[0].Tick? {
        StateRequestCorrect(token, events[0].readings, s.tracker.rx, s.tracker.tx);
        TickActionCounts(token, s.tracker, events[0].readings);
      }
      CountAppend(a1, Trace(token, s1, events[1..]), StateKind);
    }
  }

  // ---------------------------------------------------------------------
  // The loop itself
  // ---------------------------------------------------------------------

  /** How the connection is made: the plain path through `InitClient`, or the TLS path,
      whose outcome is taken as given. Both have the same exit policy. */
  datatype Connection =
    | Plain(isUri: string -> bool, dial: Endpoint -> Result<()>)
    | Tls(outcome: Result<Client>)

  function ConnectOutcome(server: string, conn: Connection): Result<Client>
  {
    match conn
    case Plain(isUri, dial) => InitClient(server, isUri, dial)
    case Tls(outcome) => outcome
  }

  /** The entry point's control flow, cut off after `|ticks|` ticks when it has not exited:
      the actions taken and, when it exited, the exit code; once connected, also the host
      request built and the brand enumeration its CPU labels follow. */
  method RunAgent(server: string, token: string, packageVersion: string, conn: Connection,
                  hostReadings: HostReadings, hostReply: Reply, ticks: seq<(StateReadings, Reply)>)
    returns (actions: seq<Action>, exitCode: Option<int>, hostRequest: Result<Request<Host>>,
             order: seq<string>)
    ensures ConnectOutcome(server, conn).Ok? ==> (hostRequest.Ok? <==> ValidMetadataValue(token))
    ensures ConnectOutcome(server, conn).Ok? ==>
      HostRequestFrom(hostRequest, order, token, hostReadings, packageVersion)
    ensures var events := [Connected(ConnectOutcome(server, conn))] + ([HostRound(hostRequest, hostReply)] + Ticks(ticks));
      var s := Final(START, events);
      && actions == Trace(token, START, events)
      && (s.phase.Exited? ==> exitCode == Some(s.phase.code))
      && (!s.phase.Exited? ==> exitCode == None)
  {
    var connected := ConnectOutcome(server, conn);
    if connected.Err? {
      hostRequest, order := Err(""), [];
      AfterConnect(token, connected, [HostRound(hostRequest, hostReply)] + Ticks(ticks));
      return [ExitProcess(EXIT_FAILURE)], Some(EXIT_FAILURE), hostRequest, order;
    }
    actions, exitCode, hostRequest, order := ReportAndSample(token, packageVersion, hostReadings, hostReply, ticks);
    AfterConnect(token, connected, [HostRound(hostRequest, hostReply)] + Ticks(ticks));
  }

  /** A run from process start is its connection step followed by the rest of the run: a failed
      connection ends it with exit 1, a successful one hands over to the host report. */
  lemma AfterConnect(token: string, connected: Result<Client>, rest: seq<Event>)
    ensures connected.Err? ==>
      && Final(START, [Connected(connected)] + rest).phase == Exited(EXIT_FAILURE)
      && Trace(token, START, [Connected(connected)] + rest) == [ExitProcess(EXIT_FAILURE)]
    ensures connected.Ok? ==>
      && Final(START, [Connected(connected)] + rest) == Final(AgentState(HostReport, Totals(0, 0)), rest)
      && Trace(token, START, [Connected(connected)] + rest) == Trace(token, AgentState(HostReport, Totals(0, 0)), rest)
  {
    if connected.Err? {
      assert connected == Err(connected.error);
      ConnectFailureExits(token, connected.error, rest);
    } else {
      var first := [Connected(connected)];
      RunSplit(token, START, first, rest);
      assert first[1..] == [];
      assert Final(START, first) == Next(START, first[0]) == AgentState(HostReport, Totals(0, 0));
      assert Trace(token, START, first) == Output(token, START, first[0]) + [] == [];
    }
  }

  /** Everything after a successful connection: build and send the host descriptor (exit 1 on
      an authentication rejection), then sample with a fresh rate tracker, whose counters start
      at zero as the process-lifetime counters do. */
  method ReportAndSample(token: string, packageVersion: string, hostReadings: HostReadings,
                         hostReply: Reply, ticks: seq<(StateReadings, Reply)>)
    returns (actions: seq<Action>, exitCode: Option<int>, hostRequest: Result<Request<Host>>,
             order: seq<string>)
    ensures HostRequestFrom(hostRequest, order, token, hostReadings, packageVersion)
    ensures var s0 := AgentState(HostReport, Totals(0, 0));
      var events := [HostRound(hostRequest, hostReply)] + Ticks(ticks);
      var s := Final(s0, events);
      && actions == Trace(token, s0, events)
      && (s.phase.Exited? ==> exitCode == Some(s.phase.code))
      && (!s.phase.Exited? ==> exitCode == None)
  {
    ghost var s0 := AgentState(HostReport, Totals(0, 0));
    hostRequest, order := BuildRequestHost(token, hostReadings, packageVersion);
    ghost var round := HostRound(hostRequest, hostReply);
    RunSplit(token, s0, [round], Ticks(ticks));
    assert [round][1..] == [];
    actions := [];
    if hostRequest.Ok? {
      actions := [SendHost(hostRequest.value)];
      if IsAuthFailure(hostReply) {
        actions := actions + [ExitProcess(EXIT_FAILURE)];
        ExitedIsFinal(token, Final(s0, [round]), Ticks(ticks));
        return actions, Some(EXIT_FAILURE), hostRequest, order;
      }
    }
    var tracker := new RateTracker();
    var sampled := SamplingLoop(tracker, token, ticks);
    actions := actions + sampled;
    exitCode := None;
  }

  /** One tick from the sampling phase, as a single event. */
  lemma TickEvent(token: string, s: AgentState, rd: StateReadings, reply: Reply)
    requires s.phase == Sampling
    ensures Final(s, [Tick(rd, reply)]) == AgentState(Sampling, Advance(s.tracker, rd))
    ensures Trace(token, s, [Tick(rd, reply)]) == TickActions(token, s.tracker, rd)
  {
    assert [Tick(rd, reply)][1..] == [];
  }

  /** One pass of the inner loop: refresh CPU usage, build the state through the tracker,
      send it when built (the reply, acknowledgement or error, is only logged), sleep one second. */
  method SampleOnce(tracker: RateTracker, token: string, rd: StateReadings) returns (tick: seq<Action>)
    modifies tracker
    ensures tick == TickActions(token, Totals(old(tracker.lastRx), old(tracker.lastTx)), rd)
    ensures Totals(tracker.lastRx, tracker.lastTx) == Advance(Totals(old(tracker.lastRx), old(tracker.lastTx)), rd)
  {
    tick := [RefreshCpu];
    var req := BuildRequestState(tracker, token, rd);
    tick := tick + [BuildState];
    if req.Ok? {
      tick := tick + [SendState(req.value)];
    }
    tick := tick + [Sleep(TICK_SECS)];
  }

  lemma TicksSnoc(ticks: seq<(StateReadings, Reply)>, i: nat)
    requires i < |ticks|
    ensures Ticks(ticks[..i + 1]) == Ticks(ticks[..i]) + [Tick(ticks[i].0, ticks[i].1)]
  {
    assert ticks[..i + 1] == ticks[..i] + [ticks[i]];
  }

  /** The inner, never-ending loop of the entry point, cut off after `|ticks|` ticks. */
  method SamplingLoop(tracker: RateTracker, token: string, ticks: seq<(StateReadings, Reply)>)
    returns (actions: seq<Action>)
    modifies tracker
    ensures var s0 := AgentState(Sampling, Totals(old(tracker.lastRx), old(tracker.lastTx)));
      && actions == Trace(token, s0, Ticks(ticks))
      && Final(s0, Ticks(ticks)) == AgentState(Sampling, Totals(tracker.lastRx, tracker.lastTx))
  {
    ghost var s0 := AgentState(Sampling, Totals(tracker.lastRx, tracker.lastTx));
    actions := [];
    for i := 0 to |ticks|
      invariant Final(s0, Ticks(ticks[..i])) == AgentState(Sampling, Totals(tracker.lastRx, tracker.lastTx))
      invariant Trace(token, s0, Ticks(ticks[..i])) == actions
    {
      ghost var before := AgentState(Sampling, Totals(tracker.lastRx, tracker.lastTx));
      ghost var e := Tick(ticks[i].0, ticks[i].1);
      TicksSnoc(ticks, i);
      RunSplit(token, s0, Ticks(ticks[..i]), [e]);
      TickEvent(token, before, ticks[i].0, ticks[i].1);
      var tick := SampleOnce(tracker, token, ticks[i].0);
      actions := actions + tick;
    }
    assert ticks[..|ticks|] == ticks;
  }
}
