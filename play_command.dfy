/**
  The legacy `play` command (dist/commands/user/music/Play.js). Each guild
  has one queue record in `bot.queues`, holding two parallel lists: the
  songs and the ids of the members who asked for them. The head song is
  the one the dispatcher plays; a new request is appended to both lists,
  and when a song finishes both lists are shifted and the new head is
  played.

  Searches, downloads and the Spotify page scraping are abstract: their
  results are parameters.
 */
module PlayCommand {
  import opened Wrappers
  import opened Text

  type GuildId = string
  type UserId = string

  /**
    A search result. It is an object: `songs.indexOf(song)` compares
    identity, which a class gives.
   */
  class Song {
    const title: string
    const url: string
    const timestamp: string

    constructor (title: string, url: string, timestamp: string)
      ensures this.title == title && this.url == url && this.timestamp == timestamp
    {
      this.title := title;
      this.url := url;
      this.timestamp := timestamp;
    }
  }

  /**
    One guild's queue record: the parallel lists, the song the dispatcher
    was last told to play, and the volume it is created with.
   */
  datatype GuildQueue = GuildQueue(songs: seq<Song>, authors: seq<UserId>, dispatcher: Option<Song>, volume: int)

  predicate Parallel(q: GuildQueue)
  {
    |q.songs| == |q.authors|
  }

  /** The shape every registered queue keeps: parallel lists with a head. */
  predicate WellFormed(q: GuildQueue)
  {
    Parallel(q) && |q.songs| > 0
  }

  /** The queue as the list of (song, requester) requests the parallel lists encode. */
  function Requests(q: GuildQueue): seq<(Song, UserId)>
    requires Parallel(q)
  {
    seq(|q.songs|, i requires 0 <= i < |q.songs| => (q.songs[i], q.authors[i]))
  }

  /** `Array.prototype.shift` as it leaves the array: the first element gone, if any. */
  function Shifted<T>(s: seq<T>): seq<T>
  {
    if |s| == 0 then [] else s[1..]
  }

  /** `songs.push(song); authors.push(author)`: a request at the tail. */
  function PushBoth(q: GuildQueue, song: Song, author: UserId): (r: GuildQueue)
    ensures Parallel(q) ==> Parallel(r) && Requests(r) == Requests(q) + [(song, author)]
    ensures r.dispatcher == q.dispatcher
  {
    q.(songs := q.songs + [song], authors := q.authors + [author])
  }

  /** `songs.shift(); authors.shift()`: the head request gone, the rest in order. */
  function ShiftBoth(q: GuildQueue): (r: GuildQueue)
    ensures Parallel(q) ==> Parallel(r) && Requests(r) == Shifted(Requests(q))
    ensures r.dispatcher == q.dispatcher
  {
    q.(songs := Shifted(q.songs), authors := Shifted(q.authors))
  }

  /** How setSong ends. */
  datatype SetSongOutcome =
    | Disconnected       // no song and a queue: disconnect and delete the queue
    | NotInVoiceChannel  // the member is in no voice channel: reply, change nothing
    | NowPlaying         // the dispatcher plays the song
    | Dropped            // playing threw: the guild's queue connection is dropped

  /** How setSong ends for a song that is given, by the member's voice channel and the play's success. */
  function OutcomeFor(inVoiceChannel: bool, playOk: bool): SetSongOutcome
  {
    if !inVoiceChannel then NotInVoiceChannel
    else if playOk then NowPlaying
    else Dropped
  }

  /** How handlePlaySong ends: it created the queue, or appended at a 0-based position. */
  datatype HandleOutcome = CreatedQueue(setSong: SetSongOutcome) | Appended(position: int)

  class MusicBot {
    var queues: map<GuildId, GuildQueue>

    constructor ()
      ensures queues == map[]
    {
      queues := map[];
    }

    ghost predicate Valid()
      reads this
    {
      forall g :: g in queues ==> WellFormed(queues[g])
    }

    /** Every registered queue but `g`'s is well formed. */
    ghost predicate ValidExcept(g: GuildId)
      reads this
    {
      forall h :: h in queues && h != g ==> WellFormed(queues[h])
    }

    /**
      setSong: with no song, delete the guild's queue if there is one; a
      member outside any voice channel gets an error reply; otherwise
      create the queue if needed (the song and its requester as the only
      request) and have the dispatcher play the song. `playOk` says whether
      `connection.play` accepts its stream.
     */
    method SetSong(g: GuildId, song: Song?, author: UserId, inVoiceChannel: bool, playOk: bool)
      returns (r: SetSongOutcome)
      requires ValidExcept(g)
      requires g in queues ==> Parallel(queues[g]) && (song != null ==> |queues[g].songs| > 0)
      modifies this
      ensures Valid()
      ensures forall h :: h != g ==> (h in queues <==> h in old(queues)) && (h in queues ==> queues[h] == old(queues[h]))
      ensures r == Disconnected <==> song == null && g in old(queues)
      ensures song != null ==> r == OutcomeFor(inVoiceChannel, playOk)
      ensures song == null && g !in old(queues) ==> r == (if inVoiceChannel then Dropped else NotInVoiceChannel)
      ensures r == Disconnected || r == Dropped ==> g !in queues
      ensures r == NotInVoiceChannel ==> queues == old(queues)
      ensures r == NowPlaying ==>
        && song != null && g in queues && queues[g].dispatcher == Some(song)
        && (g in old(queues) ==> queues[g] == old(queues[g]).(dispatcher := Some(song)))
        && (g !in old(queues) ==> Requests(queues[g]) == [(song, author)])
    {
      if song == null && g in queues {
        queues := queues - {g};
        return Disconnected;
      }
      if !inVoiceChannel {
        return NotInVoiceChannel;
      }
      if song == null {
        // The new record would hold an undefined song: reading its url throws
        // before the record is registered.
        return Dropped;
      }
      if !playOk {
        queues := queues - {g};
        return Dropped;
      }
      var q := if g in queues then queues[g] else GuildQueue([song], [author], None, 10);
      queues := queues[g := q.(dispatcher := Some(song))];
      r := NowPlaying;
    }

    /**
      handlePlaySong: without a queue, setSong creates one; with a queue,
      the song and its requester are pushed at the tail and the reply
      names `songs.indexOf(song)`.
     */
    method HandlePlaySong(g: GuildId, song: Song, author: UserId, inVoiceChannel: bool, playOk: bool)
      returns (r: HandleOutcome)
      requires Valid()
      modifies this
      ensures Valid()
      ensures forall h :: h != g ==> (h in queues <==> h in old(queues)) && (h in queues ==> queues[h] == old(queues[h]))
      ensures r.CreatedQueue? <==> g !in old(queues)
      ensures r.CreatedQueue? ==> r.setSong == OutcomeFor(inVoiceChannel, playOk)
      ensures r.CreatedQueue? ==> (g in queues <==> r.setSong == NowPlaying)
      ensures r.CreatedQueue? && r.setSong == NowPlaying ==>
        g in queues && Requests(queues[g]) == [(song, author)] && queues[g].dispatcher == Some(song)
      ensures r.Appended? ==>
        && g in queues
        && Requests(queues[g]) == Requests(old(queues[g])) + [(song, author)]
        && queues[g].dispatcher == old(queues[g]).dispatcher
        && (song !in old(queues[g]).songs ==> r.position == |old(queues[g]).songs|)
    {
      if g !in queues {
        var s := SetSong(g, song, author, inVoiceChannel, playOk);
        r := CreatedQueue(s);
      } else {
        var q := PushBoth(queues[g], song, author);
        queues := queues[g := q];
        r := Appended(IndexOf(q.songs, song));
        if song !in old(queues[g]).songs {
          assert q.songs[|q.songs| - 1] == song && q.songs[..|q.songs| - 1] == old(queues[g]).songs;
        }
      }
    }

    /**
      The dispatcher's `finish` handler: shift both lists, then setSong
      with the new head (undefined when the list ran out).
     */
    method OnFinish(g: GuildId, inVoiceChannel: bool, playOk: bool) returns (r: SetSongOutcome)
      requires Valid() && g in queues
      modifies this
      ensures Valid()
      ensures forall h :: h != g ==> (h in queues <==> h in old(queues)) && (h in queues ==> queues[h] == old(queues[h]))
      ensures r == Disconnected <==> |old(queues[g]).songs| == 1
      ensures |old(queues[g]).songs| > 1 ==> r == OutcomeFor(inVoiceChannel, playOk)
      ensures g in queues <==> r == NotInVoiceChannel || r == NowPlaying
      ensures g in queues ==> Requests(queues[g]) == Requests(old(queues[g]))[1..]
      ensures r == NotInVoiceChannel ==> queues[g] == ShiftBoth(old(queues[g]))
      ensures r == NowPlaying ==>
        queues[g] == ShiftBoth(old(queues[g])).(dispatcher := Some(ShiftBoth(old(queues[g])).songs[0]))
    {
      var q := ShiftBoth(queues[g]);
      queues := queues[g := q];
      var head: Song? := if |q.songs| > 0 then q.songs[0] else null;
      var author := if |q.authors| > 0 then q.authors[0] else "";
      r := SetSong(g, head, author, inVoiceChannel, playOk);
    }
  }

  /** The prefix that marks a Spotify locator. */
  const SpotifyPrefix := "https://open.spotify.com/"

  datatype SpotifyKind = SpotifyTrack | SpotifyPlaylist | NotSpotifyContent

  /** `requestedSong.charAt(25)`: 't' is a track, 'p' a playlist, anything else (or nothing) invalid. */
  function ClassifySpotify(url: string): SpotifyKind
  {
    if |url| > 25 && url[25] == 't' then SpotifyTrack
    else if |url| > 25 && url[25] == 'p' then SpotifyPlaylist
    else NotSpotifyContent
  }

  /**
    Index 25 is the first character after the Spotify prefix, so the kind
    is decided by the first letter of the path: "track/…" is a track,
    "playlist/…" a playlist, "album/…" (and any other path) invalid.
   */
  lemma ClassifyByPath(path: string)
    ensures |SpotifyPrefix| == 25
    ensures ClassifySpotify(SpotifyPrefix + path) ==
      if |path| > 0 && path[0] == 't' then SpotifyTrack
      else if |path| > 0 && path[0] == 'p' then SpotifyPlaylist
      else NotSpotifyContent
    ensures ClassifySpotify(SpotifyPrefix + "track/" + path) == SpotifyTrack
    ensures ClassifySpotify(SpotifyPrefix + "playlist/" + path) == SpotifyPlaylist
    ensures ClassifySpotify(SpotifyPrefix + "album/" + path) == NotSpotifyContent
  {
    assert (SpotifyPrefix + "track/" + path)[25] == 't';
    assert (SpotifyPrefix + "playlist/" + path)[25] == 'p';
    assert (SpotifyPrefix + "album/" + path)[25] == 'a';
    if |path| > 0 {
      assert (SpotifyPrefix + path)[25] == path[0];
    }
  }

  /** One item of a Spotify playlist page. */
  datatype PlaylistItem = PlaylistItem(name: string, artist: string, durationMs: nat)

  /** The search text for an item: `${name} - ${artist}`. */
  function TrackQuery(item: PlaylistItem): string
  {
    item.name + " - " + item.artist
  }

  /** The search texts of a playlist, one per item, in playlist order. */
  function TrackQueries(items: seq<PlaylistItem>): (r: seq<string>)
    ensures |r| == |items|
    ensures forall i :: 0 <= i < |items| ==> r[i] == TrackQuery(items[i])
  {
    if |items| == 0 then [] else TrackQueries(items[..|items| - 1]) + [TrackQuery(items[|items| - 1])]
  }

  /** The sum of `duration_ms` over the items. */
  function TotalDuration(items: seq<PlaylistItem>): nat
  {
    if |items| == 0 then 0 else TotalDuration(items[..|items| - 1]) + items[|items| - 1].durationMs
  }

  /**
    The `items.map` callback of the playlist branch: one search text per
    item, in order, while `spotifyPlaylistDuration` accumulates the
    durations.
   */
  method SummarizePlaylist(items: seq<PlaylistItem>) returns (queries: seq<string>, durationMs: nat)
    ensures queries == TrackQueries(items)
    ensures durationMs == TotalDuration(items)
  {
    queries, durationMs := [], 0;
    for i := 0 to |items|
      invariant queries == TrackQueries(items[..i])
      invariant durationMs == TotalDuration(items[..i])
    {
      assert items[..i + 1][..i] == items[..i];
      queries := queries + [TrackQuery(items[i])];
      durationMs := durationMs + items[i].durationMs;
    }
    assert items[..|items|] == items;
  }

  /**
    What the Spotify page yields: nothing (the request failed), or the
    track title scraped from it and, when its embedded JSON parses, the
    playlist items.
   */
  datatype SpotifyPage = Unreachable | Page(scrapedTitle: string, playlist: Option<seq<PlaylistItem>>)

  /** What `run` goes on to do. */
  datatype PlayPlan =
    | NoSongGiven                                     // reply asking for a song
    | PlayVideo(url: string)                          // look the video up, then handlePlaySong
    | SearchAndPlay(query: string)                    // search, then handlePlaySong (or reply "not found")
    | LoadPlaylist(queries: seq<string>, durationMs: nat) // search every item, then queue them

  /**
    `run`: a missing argument list is refused; the joined arguments are a
    YouTube URL, a Spotify locator or search text. A Spotify track is
    searched by its scraped title; a playlist with items is loaded; every
    failure on the Spotify path (request, JSON, invalid kind, empty
    playlist) is logged and the locator itself is searched as text.
   */
  function Plan(args: Option<seq<string>>, isYouTubeUrl: string -> bool, page: SpotifyPage): PlayPlan
  {
    if args.None? then NoSongGiven
    else
      var requested := Join(args.value, ' ');
      if isYouTubeUrl(requested) then PlayVideo(requested)
      else if SpotifyPrefix <= requested && page.Page? then
        match ClassifySpotify(requested)
        case SpotifyTrack => SearchAndPlay(page.scrapedTitle)
        case SpotifyPlaylist =>
          if page.playlist.Some? && |page.playlist.value| > 0 then
            LoadPlaylist(TrackQueries(page.playlist.value), TotalDuration(page.playlist.value))
          else SearchAndPlay(requested)
        case NotSpotifyContent => SearchAndPlay(requested)
      else SearchAndPlay(requested)
  }

  /**
    Only a missing argument list is refused; an empty one goes on to a
    search for the empty text.
   */
  lemma PlanRefusesOnlyMissingArgs(args: Option<seq<string>>, isYouTubeUrl: string -> bool, page: SpotifyPage)
    ensures Plan(args, isYouTubeUrl, page) == NoSongGiven <==> args.None?
    ensures args == Some([]) && !isYouTubeUrl("") ==> Plan(args, isYouTubeUrl, page) == SearchAndPlay("")
  {
  }

  /**
    A playlist is loaded exactly when a non-YouTube Spotify locator with
    'p' at index 25 yields a non-empty item list; it is then one search per
    item in order, with the items' total duration.
   */
  lemma PlanLoadsPlaylistIff(args: Option<seq<string>>, isYouTubeUrl: string -> bool, page: SpotifyPage)
    ensures Plan(args, isYouTubeUrl, page).LoadPlaylist? <==>
      && args.Some?
      && !isYouTubeUrl(Join(args.value, ' '))
      && SpotifyPrefix <= Join(args.value, ' ')
      && ClassifySpotify(Join(args.value, ' ')) == SpotifyPlaylist
      && page.Page? && page.playlist.Some? && |page.playlist.value| > 0
    ensures Plan(args, isYouTubeUrl, page).LoadPlaylist? ==>
      var items := page.playlist.value;
      var plan := Plan(args, isYouTubeUrl, page);
      |plan.queries| == |items| &&
      (forall i :: 0 <= i < |items| ==> plan.queries[i] == TrackQuery(items[i])) &&
      plan.durationMs == TotalDuration(items)
  {
  }

  /**
    A YouTube locator is looked up as a video. Every other request that is
    not a loaded playlist is searched as text: the title scraped from a
    reachable Spotify track page, and otherwise the request itself
    (an unreachable page, an empty or unreadable playlist, an invalid
    Spotify path, or plain words).
   */
  lemma PlanSearchesWhatItCannotLoad(args: seq<string>, isYouTubeUrl: string -> bool, page: SpotifyPage)
    ensures var requested := Join(args, ' ');
      isYouTubeUrl(requested) ==> Plan(Some(args), isYouTubeUrl, page) == PlayVideo(requested)
    ensures var requested := Join(args, ' ');
      var plan := Plan(Some(args), isYouTubeUrl, page);
      !isYouTubeUrl(requested) && !plan.LoadPlaylist? ==>
        plan == SearchAndPlay(
          if SpotifyPrefix <= requested && page.Page? && ClassifySpotify(requested) == SpotifyTrack
          then page.scrapedTitle else requested)
  {
  }
}
