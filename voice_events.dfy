/**
  The decision rules of the two state-change listeners registered by
  MusicPlaybackHandler.setAudioBroadcast: one on the audio player, one on
  the voice connection. They are pure: given the transition (and, for the
  connection, the attempt counter and the outcome of the bounded wait the
  rule starts) they say what the handler does.
 */
module VoiceEvents {

  /** The audio player's status. */
  datatype PlayerStatus = Idle | Buffering | Playing | Paused | AutoPaused

  /** A track ended (naturally or by a forced stop): the player came to rest. */
  predicate FinishedPlaying(before: PlayerStatus, after: PlayerStatus)
  {
    after == Idle && before != Idle
  }

  /** A track started, as opposed to resuming from a pause. */
  predicate StartedPlaying(before: PlayerStatus, after: PlayerStatus)
  {
    after == Playing && before != Paused
  }

  /**
    Only a transition into Idle from a non-idle status counts as finished,
    only a transition into Playing from anything but Paused counts as
    started, so the two never hold together and resuming is never announced.
   */
  lemma PlayerTransitions(before: PlayerStatus, after: PlayerStatus)
    ensures FinishedPlaying(before, after) ==> after == Idle && !StartedPlaying(before, after)
    ensures StartedPlaying(before, after) ==> after == Playing && !FinishedPlaying(before, after)
    ensures before == Paused && after == Playing ==> !StartedPlaying(before, after)
    ensures before == Idle ==> !FinishedPlaying(before, after)
  {
  }

  /** The voice connection's status. */
  datatype ConnectionStatus = Signalling | Connecting | Ready | Disconnected | Destroyed

  datatype DisconnectReason = WebSocketClose | AdapterUnavailable | EndpointRemoved | Manual

  /** The new state a connection `stateChange` event carries. */
  datatype ConnectionState = ConnectionState(status: ConnectionStatus, reason: DisconnectReason, closeCode: int)

  /** The close code a remote that moved or closed the session sends. */
  const SessionMovedCode := 4014

  /**
    How a bounded wait for a status (`entersState`) ends: the status is
    reached in time, or the wait times out while the connection is in
    `statusThen`.
   */
  datatype WaitOutcome = Entered | TimedOut(statusThen: ConnectionStatus)

  /** What the connection listener does. */
  datatype ConnectionAction =
    | ConnectionReady       // Connecting or Signalling, and Ready was reached within 20 s
    | DestroyOnTimeout      // Ready was not reached: destroy the connection, then fail
    | FailOnTimeout         // Ready was not reached and the connection is already destroyed: fail
    | AwaitReconnect        // close code 4014, and Connecting was reached within 5 s
    | FailReconnect         // close code 4014, and Connecting was not reached: fail
    | Rejoin                // other disconnect with attempts left: count one more attempt and rejoin
    | DestroyExhausted      // other disconnect with no attempts left: destroy the connection
    | Teardown              // Destroyed: stop the handler
    | NoAction              // Ready

  /** A disconnect the remote caused on purpose (close code 4014). */
  predicate SessionMoved(s: ConnectionState)
  {
    s.status == Disconnected && s.reason == WebSocketClose && s.closeCode == SessionMovedCode
  }

  /** The listener's decision for the new state `s`. */
  function Decide(s: ConnectionState, rejoinAttempts: nat, maxAttempts: nat, wait: WaitOutcome): (a: ConnectionAction)
    ensures a == Rejoin ==> rejoinAttempts < maxAttempts && !SessionMoved(s)
    ensures a == DestroyExhausted ==> rejoinAttempts >= maxAttempts && !SessionMoved(s)
    ensures a == Teardown <==> s.status == Destroyed
    ensures a in {ConnectionReady, AwaitReconnect} <==> wait.Entered? && s.status in {Connecting, Signalling, Disconnected} && (s.status == Disconnected ==> SessionMoved(s))
  {
    match s.status
    case Connecting | Signalling =>
      if wait.Entered? then ConnectionReady
      else if wait.statusThen != Destroyed then DestroyOnTimeout
      else FailOnTimeout
    case Disconnected =>
      if SessionMoved(s) then
        if wait.Entered? then AwaitReconnect else FailReconnect
      else if rejoinAttempts < maxAttempts then Rejoin
      else DestroyExhausted
    case Destroyed => Teardown
    case Ready => NoAction
  }

  /** The attempt counter after `a`: `rejoinAttempts++` happens only on a rejoin. */
  function AttemptsAfter(rejoinAttempts: nat, a: ConnectionAction): nat
  {
    if a == Rejoin then rejoinAttempts + 1 else rejoinAttempts
  }

  /**
    The connection's status once the listener has acted on entering
    `status`: a failed wait leaves the status the wait ran into.
   */
  function StatusAfter(status: ConnectionStatus, a: ConnectionAction, wait: WaitOutcome): ConnectionStatus
  {
    match a
    case ConnectionReady => Ready
    case DestroyOnTimeout | DestroyExhausted => Destroyed
    case AwaitReconnect => Connecting
    case Rejoin => Signalling
    case FailOnTimeout | FailReconnect =>
      if wait.TimedOut? then wait.statusThen else status
    case Teardown | NoAction => status
  }

  /** An ordinary disconnect: any reason or code other than the 4014 close. */
  const OrdinaryDisconnect := ConnectionState(Disconnected, AdapterUnavailable, 0)

  /**
    A timed-out wait for Ready destroys the connection unless it is already
    destroyed, and the 4014 close only ever waits: it neither rejoins, nor
    destroys, nor counts an attempt.
   */
  lemma WaitRules(s: ConnectionState, rejoinAttempts: nat, maxAttempts: nat, wait: WaitOutcome)
    ensures (s.status == Connecting || s.status == Signalling) && wait.TimedOut? ==>
      (Decide(s, rejoinAttempts, maxAttempts, wait) == DestroyOnTimeout <==> wait.statusThen != Destroyed)
    ensures SessionMoved(s) ==>
      Decide(s, rejoinAttempts, maxAttempts, wait) in {AwaitReconnect, FailReconnect} &&
      AttemptsAfter(rejoinAttempts, Decide(s, rejoinAttempts, maxAttempts, wait)) == rejoinAttempts
  {
  }

  /**
    Every decision that destroys the connection, or meets it destroyed,
    leaves it Destroyed: a timed-out wait that found the connection
    destroyed does not bring it back.
   */
  lemma ConnectionEndsDestroyed(s: ConnectionState, rejoinAttempts: nat, maxAttempts: nat, wait: WaitOutcome)
    ensures var a := Decide(s, rejoinAttempts, maxAttempts, wait);
      a in {DestroyOnTimeout, FailOnTimeout, DestroyExhausted, Teardown} ==> StatusAfter(s.status, a, wait) == Destroyed
    ensures var a := Decide(s, rejoinAttempts, maxAttempts, wait);
      wait.TimedOut? && wait.statusThen == Destroyed && (s.status in {Connecting, Signalling} || SessionMoved(s)) ==> StatusAfter(s.status, a, wait) == Destroyed
  {
  }

  /**
    On any other disconnect the listener rejoins exactly when attempts are
    left, counting exactly one more, and otherwise destroys the connection.
   */
  lemma DisconnectRule(s: ConnectionState, rejoinAttempts: nat, maxAttempts: nat, wait: WaitOutcome)
    requires s.status == Disconnected && !SessionMoved(s)
    ensures Decide(s, rejoinAttempts, maxAttempts, wait) == Rejoin <==> rejoinAttempts < maxAttempts
    ensures Decide(s, rejoinAttempts, maxAttempts, wait) == DestroyExhausted <==> rejoinAttempts >= maxAttempts
    ensures AttemptsAfter(rejoinAttempts, Decide(s, rejoinAttempts, maxAttempts, wait))
         == if rejoinAttempts < maxAttempts then rejoinAttempts + 1 else rejoinAttempts
  {
  }

  /** The attempt counter never passes the maximum once it starts within it. */
  lemma AttemptsStayBounded(s: ConnectionState, rejoinAttempts: nat, maxAttempts: nat, wait: WaitOutcome)
    requires rejoinAttempts <= maxAttempts
    ensures AttemptsAfter(rejoinAttempts, Decide(s, rejoinAttempts, maxAttempts, wait)) <= maxAttempts
  {
  }

  /** The actions taken on `k` ordinary disconnects in a row, starting at `rejoinAttempts`. */
  function DisconnectStreak(rejoinAttempts: nat, maxAttempts: nat, k: nat): seq<ConnectionAction>
    decreases k
  {
    if k == 0 then []
    else
      var a := Decide(OrdinaryDisconnect, rejoinAttempts, maxAttempts, Entered);
      [a] + DisconnectStreak(AttemptsAfter(rejoinAttempts, a), maxAttempts, k - 1)
  }

  /**
    Retries are bounded: of `k` ordinary disconnects in a row, the first
    `maxAttempts - rejoinAttempts` rejoin and every later one destroys.
   */
  lemma {:induction false} StreakRejoinsThenDestroys(rejoinAttempts: nat, maxAttempts: nat, k: nat)
    requires rejoinAttempts <= maxAttempts
    decreases k
    ensures |DisconnectStreak(rejoinAttempts, maxAttempts, k)| == k
    ensures forall i :: 0 <= i < k ==>
      DisconnectStreak(rejoinAttempts, maxAttempts, k)[i]
        == if rejoinAttempts + i < maxAttempts then Rejoin else DestroyExhausted
  {
    if k > 0 {
      var a := Decide(OrdinaryDisconnect, rejoinAttempts, maxAttempts, Entered);
      var next := AttemptsAfter(rejoinAttempts, a);
      StreakRejoinsThenDestroys(next, maxAttempts, k - 1);
      var streak := DisconnectStreak(rejoinAttempts, maxAttempts, k);
      forall i | 0 <= i < k
        ensures streak[i] == if rejoinAttempts + i < maxAttempts then Rejoin else DestroyExhausted
      {
        if i > 0 {
          assert streak[i] == DisconnectStreak(next, maxAttempts, k - 1)[i - 1];
          if rejoinAttempts < maxAttempts {
            assert next == rejoinAttempts + 1;
          } else {
            assert next == rejoinAttempts;
          }
        }
      }
    }
  }

  /**
    With a fresh counter, `maxAttempts + 1` ordinary disconnects in a row
    rejoin `maxAttempts` times; the last one finds the budget spent and
    destroys the connection.
   */
  lemma LastOfBudgetDestroys(maxAttempts: nat)
    ensures var streak := DisconnectStreak(0, maxAttempts, maxAttempts + 1);
      |streak| == maxAttempts + 1 &&
      (forall i :: 0 <= i < maxAttempts ==> streak[i] == Rejoin) &&
      streak[maxAttempts] == DestroyExhausted
  {
    StreakRejoinsThenDestroys(0, maxAttempts, maxAttempts + 1);
  }
}
