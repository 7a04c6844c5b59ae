/**
  The legacy `queue` command (dist/commands/user/music/Queue.js): it shows
  the head song as currently listening, with its duration, and lists
  every other song as coming next, each labelled with `songs.indexOf`.
  It only reads the queue.
 */
module QueueCommand {
  import opened Text
  import opened PlayCommand

  /** One "coming next" line: the label, the title and the duration. */
  datatype Line = Line(position: int, title: string, timestamp: string)

  datatype ComingNext = QueueEmptyNotice | Upcoming(lines: seq<Line>)

  datatype Listing =
    | NoQueue
    | Listing(currentTitle: string, duration: string, comingNext: ComingNext)

  /**
    The lines the `forEach` has added after visiting the first `n` songs:
    a song found at index 0 by `indexOf` is passed over, any other gets a
    line labelled with that index.
   */
  function LinesOf(songs: seq<Song>, n: nat): (lines: seq<Line>)
    requires n <= |songs|
    ensures |lines| <= n
    ensures forall i :: 0 <= i < |lines| ==> 1 <= lines[i].position < n
  {
    if n == 0 then []
    else
      var song := songs[n - 1];
      var k := IndexOf(songs, song);
      LinesOf(songs, n - 1) + (if k == 0 then [] else [Line(k, song.title, song.timestamp)])
  }

  /**
    With no song listed twice, the listing is every song but the head, in
    queue order, each labelled with its own position.
   */
  lemma {:induction false} LinesOfDistinct(songs: seq<Song>, n: nat)
    requires 1 <= n <= |songs|
    requires forall i, j :: 0 <= i < j < |songs| ==> songs[i] != songs[j]
    ensures |LinesOf(songs, n)| == n - 1
    ensures forall i :: 0 <= i < n - 1 ==>
      LinesOf(songs, n)[i] == Line(i + 1, songs[i + 1].title, songs[i + 1].timestamp)
  {
    IndexOfDistinct(songs, n - 1);
    if n == 1 {
      assert LinesOf(songs, 0) == [];
    } else {
      LinesOfDistinct(songs, n - 1);
    }
  }

  /**
    `run`: no queue gives the "no queue established" reply; otherwise the
    head is currently listening, and "coming next" is the fixed empty-queue
    notice for a single song and the lines of LinesOf for more.
   */
  method Render(bot: MusicBot, g: GuildId) returns (view: Listing)
    requires bot.Valid()
    ensures g !in bot.queues ==> view == NoQueue
    ensures g in bot.queues ==>
      var songs := bot.queues[g].songs;
      && view.Listing?
      && view.currentTitle == songs[0].title && view.duration == songs[0].timestamp
      && view.comingNext == if |songs| == 1 then QueueEmptyNotice else Upcoming(LinesOf(songs, |songs|))
  {
    if g !in bot.queues {
      return NoQueue;
    }
    var songs := bot.queues[g].songs;
    var comingNext;
    if |songs| == 1 {
      comingNext := QueueEmptyNotice;
    } else {
      var lines := [];
      for i := 0 to |songs|
        invariant lines == LinesOf(songs, i)
      {
        var k := IndexOf(songs, songs[i]);
        if k != 0 {
          lines := lines + [Line(k, songs[i].title, songs[i].timestamp)];
        }
      }
      comingNext := Upcoming(lines);
    }
    view := Listing(songs[0].title, songs[0].timestamp, comingNext);
  }
}
