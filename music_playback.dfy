/**
  MusicPlaybackHandler (src/handlers/MusicPlaybackHandler.ts): the
  per-interaction music scheduler. It keeps a FIFO queue of broadcast
  entries and a `queueLock` flag, advances the queue when the audio player
  is idle (or a skip is forced), reacts to audio-player and
  voice-connection state changes, and answers the pause, resume, skip and
  stop commands.

  The Discord and voice libraries are abstract here: the audio player and
  the voice connection are reduced to their statuses, `entersState` waits
  are WaitOutcome parameters, and whether a track's stream can be turned
  into a playing resource is a property of the track (`streamOpens`).
 */
module MusicPlayback {
  import opened Wrappers
  import opened Text
  import opened VoiceEvents

  /**
    A resolved track. `streamOpens` says whether `createAudioResource` and
    `audioPlayer.play` accept its stream; when it is false they throw.
   */
  datatype TrackData = TrackData(title: string, url: string, thumbnail: string, duration: string, streamOpens: bool)

  /**
    One queue entry. It is an object, created afresh by every `play`, so
    `queue.indexOf(data)` finds this very entry and no look-alike.
   */
  class BroadcastData {
    const track: TrackData
    const requesterId: string

    constructor (track: TrackData, requesterId: string)
      ensures this.track == track && this.requesterId == requesterId
    {
      this.track := track;
      this.requesterId := requesterId;
    }
  }

  /** `interaction.guildId` / `interaction.guild?.id`, absent outside a guild. */
  type GuildKey = Option<string>

  /** The part of the bot the handler uses: the guilds with a subscribed audio player. */
  class Bot {
    var subscriptions: set<GuildKey>

    constructor ()
      ensures subscriptions == {}
    {
      subscriptions := {};
    }
  }

  /**
    How a command ends: it acted, it replied that nothing is playing, or it
    threw because this instance has no audio player of its own.
   */
  datatype Reply = Done | NothingPlaying | Crashed

  /** What `play` replies: joining the channel, the new entry's 1-based position, or nothing (it threw). */
  datatype PlayReply = Joining | Queued(position: int) | NoReply

  /**
    How many entries an advance that gets past its guard removes from the
    queue `q`: it takes the head; when the head's stream fails it retries
    with `skipTrack` false, which gets past the guard again only on an idle
    player and a non-empty queue.
   */
  function Consumed(q: seq<BroadcastData>, playerIdle: bool): (n: nat)
    requires |q| > 0
    ensures 1 <= n <= |q|
    ensures forall i :: 0 <= i < n - 1 ==> !q[i].track.streamOpens
    ensures playerIdle && n < |q| ==> q[n - 1].track.streamOpens
    ensures !playerIdle ==> n == 1
  {
    if q[0].track.streamOpens || !playerIdle || |q| == 1 then 1
    else 1 + Consumed(q[1..], playerIdle)
  }

  /** The entry an advance that removes `n` entries of `q` starts, if its stream opens. */
  function StartedBy(q: seq<BroadcastData>, n: nat): Option<BroadcastData>
    requires 1 <= n <= |q|
  {
    if q[n - 1].track.streamOpens then Some(q[n - 1]) else None
  }

  /** The entries an advance that removes `n` entries of `q` reports as failed. */
  function FailedBy(q: seq<BroadcastData>, n: nat): seq<BroadcastData>
    requires 1 <= n <= |q|
  {
    if q[n - 1].track.streamOpens then q[..n - 1] else q[..n]
  }

  /**
    One bad track does not stall the rest: on an idle player, an advance
    drops exactly the failing entries in front of the first entry whose
    stream opens, starts that one and keeps everything behind it in order.
   */
  lemma BadTracksDoNotStall(q: seq<BroadcastData>, j: nat)
    requires j < |q| && q[j].track.streamOpens
    requires forall i :: 0 <= i < j ==> !q[i].track.streamOpens
    ensures Consumed(q, true) == j + 1
    ensures StartedBy(q, j + 1) == Some(q[j]) && FailedBy(q, j + 1) == q[..j]
  {
  }

  /** On an idle player with no openable entry, an advance empties the queue and reports every entry. */
  lemma AllBadTracksAreDropped(q: seq<BroadcastData>)
    requires |q| > 0
    requires forall i :: 0 <= i < |q| ==> !q[i].track.streamOpens
    ensures Consumed(q, true) == |q| && StartedBy(q, |q|) == None && FailedBy(q, |q|) == q
  {
  }

  /**
    A forced skip on a busy player removes exactly the head: it starts it,
    or reports it and stops there (the retry finds the player busy).
   */
  lemma SkipTakesOneEntry(q: seq<BroadcastData>)
    requires |q| > 0
    ensures Consumed(q, false) == 1
    ensures StartedBy(q, 1) == Some(q[0]) <==> q[0].track.streamOpens
  {
  }

  /**
    The position `play` reports: an entry appended behind `q`, of which an
    advance then removed `n` entries, sits at the 1-based position equal to
    the length of what is left, as long as something is left.
   */
  lemma QueuePosition(q: seq<BroadcastData>, d: BroadcastData, n: nat)
    requires d !in q
    requires n <= |q|
    ensures |(q + [d])[n..]| > 0
    ensures IndexOf((q + [d])[n..], d) + 1 == |(q + [d])[n..]|
  {
    var rest := (q + [d])[n..];
    assert rest[|rest| - 1] == d;
    assert rest[..|rest| - 1] == q[n..];
    assert d !in rest[..|rest| - 1];
  }

  class MusicPlaybackHandler {
    const bot: Bot
    /** The guild and the user of the interaction the instance was created for. */
    const guildId: GuildKey
    const userId: string
    /** MAX_VOICE_CONNECTION_JOIN_ATTEMPTS, whose value is configuration. */
    const maxJoinAttempts: nat

    var queue: seq<BroadcastData>
    var queueLock: bool
    /** Whether `audioPlayer` and `voiceConnection` have been created for this instance. */
    var hasPlayer: bool
    var player: PlayerStatus
    var connection: ConnectionStatus
    /** `voiceConnection.rejoinAttempts`. */
    var rejoinAttempts: nat
    /** The entries whose stream failed, each reported once through GeneralAppError. */
    var failures: seq<BroadcastData>

    /** Between events the lock is free and the attempt counter within its budget. */
    ghost predicate Valid()
      reads this
    {
      !queueLock && rejoinAttempts <= maxJoinAttempts
    }

    /** The private constructor: an instance with an empty queue and no audio player yet. */
    constructor (bot: Bot, guildId: GuildKey, userId: string, maxJoinAttempts: nat)
      ensures Valid()
      ensures this.bot == bot && this.guildId == guildId && this.userId == userId
      ensures this.maxJoinAttempts == maxJoinAttempts
      ensures queue == [] && !queueLock && !hasPlayer && failures == []
    {
      this.bot := bot;
      this.guildId := guildId;
      this.userId := userId;
      this.maxJoinAttempts := maxJoinAttempts;
      queue := [];
      queueLock := false;
      hasPlayer := false;
      player := Idle;
      connection := Signalling;
      rejoinAttempts := 0;
      failures := [];
    }

    /** The guard of processQueue lets the call through. */
    predicate Proceeds(skipTrack: bool)
      reads this
    {
      !queueLock && |queue| > 0 && hasPlayer && (player == Idle || skipTrack)
    }

    /**
      processQueue: when the lock is free, the queue non-empty and the
      player idle (or the skip forced), take the head and play it; when its
      stream fails, report it and retry on the new head. Reading the
      player's status throws when this instance has none.
     */
    method ProcessQueue(skipTrack: bool) returns (started: Option<BroadcastData>, crashed: bool)
      modifies this
      decreases |queue|
      ensures queueLock == old(queueLock)
      ensures hasPlayer == old(hasPlayer) && connection == old(connection)
      ensures rejoinAttempts == old(rejoinAttempts)
      ensures crashed <==> !old(queueLock) && |old(queue)| > 0 && !old(hasPlayer)
      ensures !old(Proceeds(skipTrack)) ==>
        queue == old(queue) && player == old(player) && failures == old(failures) && started == None
      ensures old(Proceeds(skipTrack)) ==>
        var n := Consumed(old(queue), old(player) == Idle);
        && queue == old(queue)[n..]
        && started == StartedBy(old(queue), n)
        && failures == old(failures) + FailedBy(old(queue), n)
        && player == (if started.Some? then Playing else old(player))
    {
      if queueLock || |queue| == 0 {
        return None, false;
      }
      if !hasPlayer {
        return None, true;
      }
      if player != Idle && !skipTrack {
        return None, false;
      }
      queueLock := true;
      var head := queue[0];
      queue := queue[1..];
      if head.track.streamOpens {
        player := Playing;
        queueLock := false;
        started, crashed := Some(head), false;
      } else {
        queueLock := false;
        failures := failures + [head];
        started, crashed := ProcessQueue(false);
      }
    }

    /** enqueue: append at the tail, then advance. */
    method Enqueue(data: BroadcastData) returns (started: Option<BroadcastData>, crashed: bool)
      modifies this
      ensures queueLock == old(queueLock) && hasPlayer == old(hasPlayer)
      ensures connection == old(connection) && rejoinAttempts == old(rejoinAttempts)
      ensures crashed <==> !old(queueLock) && !old(hasPlayer)
      ensures var q := old(queue) + [data];
        if !old(queueLock) && old(hasPlayer) && old(player) == Idle then
          var n := Consumed(q, true);
          queue == q[n..] && started == StartedBy(q, n) && failures == old(failures) + FailedBy(q, n)
          && player == (if started.Some? then Playing else old(player))
        else
          queue == q && started == None && failures == old(failures) && player == old(player)
    {
      queue := queue + [data];
      started, crashed := ProcessQueue(false);
    }

    /**
      stop: with no subscription for the guild, reply that nothing is
      playing and change nothing; otherwise stop the player, delete the
      subscription, free the lock and empty the queue.
     */
    method Stop() returns (r: Reply)
      modifies this, bot
      ensures rejoinAttempts == old(rejoinAttempts) && connection == old(connection)
      ensures hasPlayer == old(hasPlayer) && failures == old(failures)
      ensures r == NothingPlaying <==> guildId !in old(bot.subscriptions)
      ensures r == Crashed <==> guildId in old(bot.subscriptions) && !hasPlayer
      ensures r != Done ==>
        && queue == old(queue) && queueLock == old(queueLock)
        && player == old(player) && bot.subscriptions == old(bot.subscriptions)
      ensures r == Done ==>
        && queue == [] && !queueLock && player == Idle
        && bot.subscriptions == old(bot.subscriptions) - {guildId}
    {
      if guildId !in bot.subscriptions {
        return NothingPlaying;
      }
      if !hasPlayer {
        return Crashed;
      }
      player := Idle;
      bot.subscriptions := bot.subscriptions - {guildId};
      queueLock := false;
      queue := [];
      r := Done;
    }

    /** pause: the guard of stop, then the player pauses if it is playing. */
    method Pause() returns (r: Reply)
      modifies this
      ensures queue == old(queue) && queueLock == old(queueLock) && failures == old(failures)
      ensures hasPlayer == old(hasPlayer) && connection == old(connection)
      ensures rejoinAttempts == old(rejoinAttempts)
      ensures r == NothingPlaying <==> guildId !in bot.subscriptions
      ensures r == Crashed <==> guildId in bot.subscriptions && !hasPlayer
      ensures player == (if r == Done && old(player) == Playing then Paused else old(player))
    {
      if guildId !in bot.subscriptions {
        return NothingPlaying;
      }
      if !hasPlayer {
        return Crashed;
      }
      if player == Playing {
        player := Paused;
      }
      r := Done;
    }

    /** resume: the guard of stop, then the player resumes if it is paused. */
    method Resume() returns (r: Reply)
      modifies this
      ensures queue == old(queue) && queueLock == old(queueLock) && failures == old(failures)
      ensures hasPlayer == old(hasPlayer) && connection == old(connection)
      ensures rejoinAttempts == old(rejoinAttempts)
      ensures r == NothingPlaying <==> guildId !in bot.subscriptions
      ensures r == Crashed <==> guildId in bot.subscriptions && !hasPlayer
      ensures player == (if r == Done && old(player) == Paused then Playing else old(player))
    {
      if guildId !in bot.subscriptions {
        return NothingPlaying;
      }
      if !hasPlayer {
        return Crashed;
      }
      if player == Paused {
        player := Playing;
      }
      r := Done;
    }

    /**
      skip: the guard of stop, then a forced advance, which plays the head
      over whatever is playing.
     */
    method Skip() returns (r: Reply, started: Option<BroadcastData>)
      modifies this
      ensures queueLock == old(queueLock) && hasPlayer == old(hasPlayer)
      ensures connection == old(connection) && rejoinAttempts == old(rejoinAttempts)
      ensures r == NothingPlaying <==> guildId !in bot.subscriptions
      ensures r == Crashed <==> guildId in bot.subscriptions && !old(queueLock) && |old(queue)| > 0 && !hasPlayer
      ensures r == NothingPlaying || !old(Proceeds(true)) ==>
        queue == old(queue) && player == old(player) && failures == old(failures) && started == None
      ensures r != NothingPlaying && old(Proceeds(true)) ==>
        var n := Consumed(old(queue), old(player) == Idle);
        && queue == old(queue)[n..] && started == StartedBy(old(queue), n)
        && failures == old(failures) + FailedBy(old(queue), n)
        && player == (if started.Some? then Playing else old(player))
    {
      if guildId !in bot.subscriptions {
        return NothingPlaying, None;
      }
      var crashed;
      started, crashed := ProcessQueue(true);
      r := if crashed then Crashed else Done;
    }

    /**
      setAudioBroadcast: on the first call from a member in a voice channel,
      create the player (idle), join the channel (a new connection with no
      rejoin attempts) and subscribe the guild; then enqueue. When the
      enqueue throws, the error is caught: stop is called, and `ok` is
      false only when that stop throws as well.
     */
    method SetAudioBroadcast(data: BroadcastData, inVoiceChannel: bool) returns (ok: bool)
      requires Valid()
      modifies this, bot
      ensures Valid()
      ensures hasPlayer == (old(hasPlayer) || inVoiceChannel)
      ensures !old(hasPlayer) && inVoiceChannel ==>
        && bot.subscriptions == old(bot.subscriptions) + {guildId}
        && connection == Signalling && rejoinAttempts == 0
      ensures old(hasPlayer) || !inVoiceChannel ==>
        && bot.subscriptions == old(bot.subscriptions)
        && connection == old(connection) && rejoinAttempts == old(rejoinAttempts)
      ensures !hasPlayer ==>
        && ok == (guildId !in bot.subscriptions)
        && queue == old(queue) + [data] && player == old(player) && failures == old(failures)
      ensures hasPlayer ==> ok
      ensures hasPlayer ==>
        var q := old(queue) + [data];
        var n := Consumed(q, true);
        if old(hasPlayer) ==> old(player) == Idle then
          && queue == q[n..] && failures == old(failures) + FailedBy(q, n)
          && player == (if StartedBy(q, n).Some? then Playing else Idle)
        else
          queue == q && failures == old(failures) && player == old(player)
    {
      if !hasPlayer && inVoiceChannel {
        hasPlayer := true;
        player := Idle;
        connection := Signalling;
        rejoinAttempts := 0;
        bot.subscriptions := bot.subscriptions + {guildId};
      }
      var started, crashed := Enqueue(data);
      ok := true;
      if crashed {
        var r := Stop();
        ok := r != Crashed;
      }
    }

    /**
      play: broadcast a new entry, then reply "joining" when the queue is
      empty and otherwise the entry's 1-based position `indexOf + 1`. The
      "joining" reply names the member's voice channel, so it throws (no
      reply) for a member who is in none.
     */
    method Play(track: TrackData, requesterId: string, inVoiceChannel: bool)
      returns (reply: PlayReply, data: BroadcastData)
      requires Valid()
      modifies this, bot
      ensures Valid()
      ensures fresh(data) && data.track == track && data.requesterId == requesterId
      ensures hasPlayer == (old(hasPlayer) || inVoiceChannel)
      ensures !old(hasPlayer) && inVoiceChannel ==>
        && bot.subscriptions == old(bot.subscriptions) + {guildId}
        && connection == Signalling && rejoinAttempts == 0
      ensures old(hasPlayer) || !inVoiceChannel ==>
        && bot.subscriptions == old(bot.subscriptions)
        && connection == old(connection) && rejoinAttempts == old(rejoinAttempts)
      ensures !hasPlayer ==>
        queue == old(queue) + [data] && player == old(player) && failures == old(failures)
      ensures hasPlayer ==>
        var q := old(queue) + [data];
        var n := Consumed(q, true);
        if old(hasPlayer) ==> old(player) == Idle then
          && queue == q[n..] && failures == old(failures) + FailedBy(q, n)
          && player == (if StartedBy(q, n).Some? then Playing else Idle)
        else
          queue == q && failures == old(failures) && player == old(player)
      ensures reply == Joining <==> queue == [] && inVoiceChannel
      ensures reply == NoReply <==>
        (!hasPlayer && guildId in bot.subscriptions) || (queue == [] && !inVoiceChannel)
      ensures reply.Queued? ==> queue != [] && reply.position == |queue| && queue[|queue| - 1] == data
    {
      data := new BroadcastData(track, requesterId);
      ghost var before := queue;
      assert data !in before;
      var ok := SetAudioBroadcast(data, inVoiceChannel);
      if !ok {
        reply := NoReply;
        return;
      }
      if |queue| == 0 {
        reply := if inVoiceChannel then Joining else NoReply;
      } else {
        var q := before + [data];
        ghost var n: nat := |q| - |queue|;
        assert queue == q[n..];
        QueuePosition(before, data, n);
        reply := Queued(IndexOf(queue, data) + 1);
      }
    }

    /**
      The audio player's stateChange listener: a finished track advances
      the queue; `announce` says whether the now-playing message is sent.
     */
    method OnPlayerStateChange(after: PlayerStatus) returns (announce: bool, started: Option<BroadcastData>)
      requires hasPlayer
      modifies this
      ensures announce == StartedPlaying(old(player), after)
      ensures queueLock == old(queueLock) && hasPlayer
      ensures connection == old(connection) && rejoinAttempts == old(rejoinAttempts)
      ensures FinishedPlaying(old(player), after) && !old(queueLock) && |old(queue)| > 0 ==>
        var n := Consumed(old(queue), true);
        queue == old(queue)[n..] && started == StartedBy(old(queue), n)
        && failures == old(failures) + FailedBy(old(queue), n)
        && player == (if started.Some? then Playing else Idle)
      ensures !(FinishedPlaying(old(player), after) && !old(queueLock) && |old(queue)| > 0) ==>
        queue == old(queue) && failures == old(failures) && player == after && started == None
    {
      var before := player;
      player := after;
      started := None;
      if FinishedPlaying(before, after) {
        var crashed;
        started, crashed := ProcessQueue(false);
      }
      announce := StartedPlaying(before, after);
    }

    /**
      The voice connection's stateChange listener: it applies the decision
      of VoiceEvents.Decide; a destroyed connection stops the handler.
     */
    method OnConnectionStateChange(s: ConnectionState, wait: WaitOutcome) returns (action: ConnectionAction)
      requires Valid() && hasPlayer
      modifies this, bot
      ensures Valid() && hasPlayer
      ensures action == Decide(s, old(rejoinAttempts), maxJoinAttempts, wait)
      ensures rejoinAttempts == AttemptsAfter(old(rejoinAttempts), action)
      ensures failures == old(failures)
      ensures connection == StatusAfter(s.status, action, wait)
      ensures action != Teardown ==>
        && queue == old(queue) && player == old(player)
        && bot.subscriptions == old(bot.subscriptions)
      ensures action == Teardown ==> bot.subscriptions == old(bot.subscriptions) - {guildId}
      ensures action == Teardown && guildId in old(bot.subscriptions) ==> queue == [] && player == Idle
      ensures action == Teardown && guildId !in old(bot.subscriptions) ==> queue == old(queue) && player == old(player)
    {
      action := Decide(s, rejoinAttempts, maxJoinAttempts, wait);
      AttemptsStayBounded(s, rejoinAttempts, maxJoinAttempts, wait);
      rejoinAttempts := AttemptsAfter(rejoinAttempts, action);
      connection := StatusAfter(s.status, action, wait);
      if action == Teardown {
        var r := Stop();
      }
    }
  }

  /** The static `INSTANCE` slot of the class. */
  class InstanceSlot {
    var instance: MusicPlaybackHandler?

    constructor ()
      ensures instance == null
    {
      instance := null;
    }

    /**
      getInstance: keep the current instance only when both the guild and
      the user of the new interaction match its own; otherwise replace it
      with a fresh instance whose queue is empty.
     */
    method GetInstance(bot: Bot, guildId: GuildKey, userId: string, maxJoinAttempts: nat)
      returns (h: MusicPlaybackHandler)
      modifies this
      ensures instance == h
      ensures old(instance) != null && old(instance).guildId == guildId && old(instance).userId == userId ==>
        h == old(instance)
      ensures !(old(instance) != null && old(instance).guildId == guildId && old(instance).userId == userId) ==>
        fresh(h) && h.Valid() && h.queue == [] && !h.hasPlayer
        && h.bot == bot && h.guildId == guildId && h.userId == userId && h.maxJoinAttempts == maxJoinAttempts
    {
      if instance == null || instance.guildId != guildId || instance.userId != userId {
        instance := new MusicPlaybackHandler(bot, guildId, userId, maxJoinAttempts);
      }
      h := instance;
    }
  }
}
