/**
 * The on-demand controller of MultiResolutionRTSPServer (multi_res_server.py):
 * the client count, whether the main pipeline handle is held, and the
 * deferred stop checks queued on the GLib timer. The engine's answer to a
 * start request is a boolean; the timer firing is an explicit event.
 */
module Lifecycle {

  /**
   * `client_count`; `running` is `main_pipeline is not None`; `pendingChecks`
   * counts the stop checks scheduled and not yet fired; `launches` and
   * `halts` count the calls into the engine (parse_launch, set_state(NULL)).
   */
  datatype State = State(clientCount: int, running: bool, pendingChecks: nat, launches: nat, halts: nat)

  /** _start_pipeline: a no-op with a handle; otherwise one launch, keeping the handle only if the engine started. */
  function StartPipeline(s: State, engineOk: bool): (r: State)
    ensures s.running ==> r == s
    ensures !s.running ==> r.running == engineOk && r.launches == s.launches + 1
    ensures r.clientCount == s.clientCount && r.pendingChecks == s.pendingChecks && r.halts == s.halts
  {
    if s.running then s else s.(running := engineOk, launches := s.launches + 1)
  }

  /** _stop_pipeline: a no-op without a handle; otherwise one halt, dropping the handle. */
  function StopPipeline(s: State): (r: State)
    ensures !r.running
    ensures !s.running ==> r == s
    ensures s.running ==> r.halts == s.halts + 1
    ensures r.clientCount == s.clientCount && r.pendingChecks == s.pendingChecks && r.launches == s.launches
  {
    if !s.running then s else s.(running := false, halts := s.halts + 1)
  }

  /** _on_client_connected: one more client; in on-demand mode the first client starts the pipeline. */
  function Connect(s: State, onDemand: bool, engineOk: bool): (r: State)
    ensures r.clientCount == s.clientCount + 1
    ensures r.launches == s.launches + (if onDemand && s.clientCount == 0 && !s.running then 1 else 0)
    ensures r.running <==> s.running || (onDemand && s.clientCount == 0 && engineOk)
    ensures r.pendingChecks == s.pendingChecks && r.halts == s.halts
  {
    var c := s.(clientCount := s.clientCount + 1);
    if onDemand && c.clientCount == 1 then StartPipeline(c, engineOk) else c
  }

  /** _on_client_disconnected: one client fewer, never below zero; in on-demand mode reaching zero schedules a check. */
  function Disconnect(s: State, onDemand: bool): (r: State)
    ensures r.clientCount == (if s.clientCount > 1 then s.clientCount - 1 else 0)
    ensures r.pendingChecks == s.pendingChecks + (if onDemand && s.clientCount <= 1 then 1 else 0)
    ensures r.running == s.running && r.launches == s.launches && r.halts == s.halts
  {
    var c := s.(clientCount := if s.clientCount - 1 > 0 then s.clientCount - 1 else 0);
    if onDemand && c.clientCount == 0 then c.(pendingChecks := c.pendingChecks + 1) else c
  }

  /** _check_and_stop_pipeline: stops when no client is left; the result `false` tells GLib not to repeat it. */
  function CheckAndStop(s: State): (r: (State, bool))
    ensures !r.1
    ensures s.clientCount == 0 ==> r.0 == StopPipeline(s)
    ensures s.clientCount != 0 ==> r.0 == s
  {
    (if s.clientCount == 0 then StopPipeline(s) else s, false)
  }

  /** GLib runs one scheduled check: it leaves the queue, and is not re-armed because the check returned false. */
  function Fire(s: State): State
    requires s.pendingChecks > 0
  {
    CheckAndStop(s.(pendingChecks := s.pendingChecks - 1)).0
  }

  /** Connecting clients never stop the pipeline or schedule checks; disconnecting never starts it. */
  lemma CallbacksDoOneThing(s: State, onDemand: bool, engineOk: bool)
    ensures Connect(s, onDemand, engineOk).halts == s.halts
    ensures Connect(s, onDemand, engineOk).pendingChecks == s.pendingChecks
    ensures s.running ==> Connect(s, onDemand, engineOk).running
    ensures Disconnect(s, onDemand).launches == s.launches && Disconnect(s, onDemand).running == s.running
  {
  }

  /** A fired check removes itself from the queue and stops the pipeline exactly when no client is connected. */
  lemma FireOnce(s: State)
    requires s.pendingChecks > 0
    ensures Fire(s).pendingChecks == s.pendingChecks - 1
    ensures Fire(s).running <==> s.running && s.clientCount != 0
    ensures Fire(s).halts == s.halts + (if s.running && s.clientCount == 0 then 1 else 0)
  {
  }

  // ---------------------------------------------------------------------------
  // Event sequences
  // ---------------------------------------------------------------------------

  /** What can happen to the controller: a client arrives (with the engine's answer to a start), leaves, or the timer fires. */
  datatype Event = ClientConnected(engineOk: bool) | ClientDisconnected | TimerFired

  /** One event; a timer event with no check pending does nothing. */
  function Step(s: State, e: Event, onDemand: bool): State {
    match e
    case ClientConnected(ok) => Connect(s, onDemand, ok)
    case ClientDisconnected => Disconnect(s, onDemand)
    case TimerFired => if s.pendingChecks > 0 then Fire(s) else s
  }

  function Run(s: State, events: seq<Event>, onDemand: bool): State
    decreases |events|
  {
    if events == [] then s else Run(Step(s, events[0], onDemand), events[1..], onDemand)
  }

  /** The client count never goes negative, whatever happens. */
  lemma {:induction false} CountNeverNegative(s: State, events: seq<Event>, onDemand: bool)
    requires s.clientCount >= 0
    ensures Run(s, events, onDemand).clientCount >= 0
    decreases |events|
  {
    if events != [] {
      CountNeverNegative(Step(s, events[0], onDemand), events[1..], onDemand);
    }
  }

  /** The count is not negative, and a connected client has a running pipeline. */
  predicate Served(s: State) {
    s.clientCount >= 0 && (s.clientCount > 0 ==> s.running)
  }

  predicate AllStartsSucceed(events: seq<Event>) {
    forall k :: 0 <= k < |events| && events[k].ClientConnected? ==> events[k].engineOk
  }

  /** In on-demand mode, while every start succeeds, a connected client always has a running pipeline. */
  lemma {:induction false} ClientsAreServed(s: State, events: seq<Event>)
    requires Served(s) && AllStartsSucceed(events)
    ensures Served(Run(s, events, true))
    decreases |events|
  {
    if events != [] {
      var next := Step(s, events[0], true);
      assert Served(next);
      assert forall k :: 0 <= k < |events[1..]| ==> events[1..][k] == events[k + 1];
      ClientsAreServed(next, events[1..]);
    }
  }

  /** Without on-demand mode, clients coming and going never touch the pipeline or the timer. */
  lemma {:induction false} NotOnDemandIgnoresClients(s: State, events: seq<Event>)
    requires s.pendingChecks == 0
    ensures Run(s, events, false).running == s.running
    ensures Run(s, events, false).pendingChecks == 0
    ensures Run(s, events, false).launches == s.launches && Run(s, events, false).halts == s.halts
    decreases |events|
  {
    if events != [] {
      NotOnDemandIgnoresClients(Step(s, events[0], false), events[1..]);
    }
  }

  /** The state right after start: the main pipeline playing, nobody connected. */
  const Started := State(0, true, 0, 0, 0)

  /**
   * Two clients come and go and the deferred check fires: the pipeline is
   * halted once and nothing is launched; after such a stop, the next client
   * launches it again.
   */
  lemma IdleStopThenRestart()
    ensures var s := Run(Started, [ClientConnected(true), ClientConnected(true), ClientDisconnected,
                                   ClientDisconnected, TimerFired], true);
      s == State(0, false, 0, 0, 1)
    ensures Run(Started, [ClientConnected(true), ClientDisconnected, TimerFired, ClientConnected(true)], true)
      == State(1, true, 0, 1, 1)
  {
  }

  /** The state right after __init__ in on-demand mode: no pipeline, nobody connected. */
  const Idle := State(0, false, 0, 0, 0)

  /** From idle, the first of two clients launches the pipeline once, and the check after both have left halts it once. */
  lemma FirstClientLaunches()
    ensures Run(Idle, [ClientConnected(true), ClientConnected(true), ClientDisconnected, ClientDisconnected,
                       TimerFired], true)
      == State(0, false, 0, 1, 1)
  {
  }

  /** A client that returns before the deferred check fires keeps the pipeline running. */
  lemma ReconnectCancelsStop()
    ensures Run(Started, [ClientConnected(true), ClientDisconnected, ClientConnected(true), TimerFired], true)
      == State(1, true, 0, 0, 0)
  {
  }
}
