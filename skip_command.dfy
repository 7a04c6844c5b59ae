/**
  The legacy `skip` command (dist/commands/user/music/Skip.js): with more
  than one song queued, drop the head request and play the new head.
 */
module SkipCommand {
  import opened Wrappers
  import opened PlayCommand

  datatype SkipOutcome =
    | NoSongPlaying            // no queue: reply, change nothing
    | NothingToSkip            // a single song: nothing happens
    | Skipped(next: SetSongOutcome)

  /** What the command does to the queue record as its code is written. */
  datatype SkipAsWritten =
    | NoQueueReply
    | NoChange
    | ThrewAfterShiftingSongs(left: GuildQueue)

  /**
    As written, the second shift goes to `queueExists.author`, a field the
    record does not have (Play.js stores `authors`): after the songs were
    shifted in place, reading `.shift` of undefined throws, so the authors
    are not shifted and setSong is never reached.
   */
  function SkipQueueAsWritten(queue: Option<GuildQueue>): SkipAsWritten
  {
    match queue
    case None => NoQueueReply
    case Some(q) =>
      if |q.songs| > 1 then ThrewAfterShiftingSongs(q.(songs := q.songs[1..]))
      else NoChange
  }

  /**
    The record the written code leaves behind has lost the pairing of
    songs and requesters, and its head is no longer the song the
    dispatcher plays.
   */
  lemma SkipAsWrittenBreaksQueue(q: GuildQueue)
    requires WellFormed(q) && |q.songs| > 1
    requires q.dispatcher == Some(q.songs[0])
    requires forall i, j :: 0 <= i < j < |q.songs| ==> q.songs[i] != q.songs[j]
    ensures SkipQueueAsWritten(Some(q)).ThrewAfterShiftingSongs?
    ensures var left := SkipQueueAsWritten(Some(q)).left;
      !Parallel(left) && left.dispatcher != Some(left.songs[0])
  {
    assert q.songs[0] != q.songs[1];
  }

  /**
    `run` with both lists shifted: no queue gives the "no song playing"
    reply, a single song changes nothing, and more songs lose exactly the
    head request before setSong plays the new head.
   */
  method Skip(bot: MusicBot, g: GuildId, inVoiceChannel: bool, playOk: bool) returns (r: SkipOutcome)
    requires bot.Valid()
    modifies bot
    ensures bot.Valid()
    ensures r == NoSongPlaying <==> g !in old(bot.queues)
    ensures r == NothingToSkip <==> g in old(bot.queues) && |old(bot.queues)[g].songs| <= 1
    ensures !r.Skipped? ==> bot.queues == old(bot.queues)
    ensures r.Skipped? ==>
      && (forall h :: h != g ==> (h in bot.queues <==> h in old(bot.queues)) && (h in bot.queues ==> bot.queues[h] == old(bot.queues)[h]))
      && r.next == OutcomeFor(inVoiceChannel, playOk)
      && (g in bot.queues <==> r.next != Dropped)
      && (g in bot.queues ==> Requests(bot.queues[g]) == Requests(old(bot.queues)[g])[1..])
      && (r.next == NotInVoiceChannel ==> bot.queues[g] == ShiftBoth(old(bot.queues)[g]))
      && (r.next == NowPlaying ==>
            bot.queues[g] == ShiftBoth(old(bot.queues)[g]).(dispatcher := Some(ShiftBoth(old(bot.queues)[g]).songs[0])))
  {
    if g !in bot.queues {
      return NoSongPlaying;
    }
    if |bot.queues[g].songs| <= 1 {
      return NothingToSkip;
    }
    var q := ShiftBoth(bot.queues[g]);
    bot.queues := bot.queues[g := q];
    var next := bot.SetSong(g, q.songs[0], q.authors[0], inVoiceChannel, playOk);
    r := Skipped(next);
  }
}
