# Music playback scheduler of the Discord bot, modelled in Dafny

This project models the core of a Discord bot's music playback and the
small command helpers around it:

- **MusicPlaybackHandler** (`music_playback.dfy`, `voice_events.dfy`).
  The scheduler keeps a FIFO queue of broadcast entries (a track and the
  id of the member who asked for it) and a `queueLock` flag. It advances
  the queue when the audio player is idle, or when a skip forces it. A
  track whose stream fails is reported and the next one is tried. The
  handler also reacts to audio-player and voice-connection state changes
  and answers the pause, resume, skip and stop commands. It is a `class`
  whose methods update the queue, the lock, the player and connection
  statuses and the rejoin counter. The decisions its two state-change
  listeners take are pure functions in `VoiceEvents`, with lemmas about
  them. One of these lemmas is the retry budget: ordinary disconnects
  rejoin until `MAX_VOICE_CONNECTION_JOIN_ATTEMPTS` attempts are spent,
  and the next one destroys the connection.
- **The older per-guild queue** (`play_command.dfy`, `queue_command.dfy`,
  `skip_command.dfy`). Each guild's record holds two parallel lists:
  `songs` and `authors`. The `play` command appends to both. The finish
  handler and `skip` shift both and play the new head. The `queue`
  command lists the head as "currently listening" and the rest as
  "coming next". `Plan` models how a request is dispatched: YouTube URL,
  Spotify track or playlist (classified by the character at index 25), or
  free search text. The playlist duration is accumulated over its items.
- **`remind`** (`set_reminder.dfy`). The message is every argument but the
  last. The last argument is a number followed by a unit (d, h, m or s),
  which is converted to milliseconds.
- **`say`** (`say.dfy`). The arguments are joined with single spaces, and
  the first character is upper-cased.

The Discord and voice libraries are abstract. The audio player and the
voice connection are reduced to their statuses. Each bounded
`entersState` wait is a `WaitOutcome` parameter: the status was reached,
or the wait timed out. Whether `createAudioResource`/`play` accept a
track's stream is the track's `streamOpens` flag. Whether `connection.play`
accepts a legacy song is the `playOk` parameter. Whether the member is in a
voice channel is the `inVoiceChannel` parameter. The queue lock is a
sequential guard flag. Between events it is always free (`Valid()`), and
`ProcessQueue` leaves it as it found it.

Behaviour of the code that the model keeps, although a reader might expect
otherwise:

- `stop` stops the player, deletes the subscription and empties the queue.
  It does not destroy the voice connection.
- `skip` on an empty queue does nothing, so the current track plays on.
- After a skip forces an advance on a busy player, a failing head is
  reported and nothing more happens. The retry runs with `skipTrack`
  false and finds the player busy.
- `getInstance` keeps one instance, shared by all guilds and users. A
  command from another user replaces it with a fresh instance that has no
  audio player. If the guild is still subscribed, `pause`, `resume` and
  `stop` on that instance throw (`Reply.Crashed`).
- On an instance with no audio player yet, a member outside any voice
  channel gets no player. The entry is still queued, the failing
  `processQueue` is caught, and `stop` is called. If the guild has no
  subscription, that `stop` replies "nothing playing" and `play` reports
  the entry's position. If another instance's player still holds the
  guild's subscription, `stop` reads this instance's missing player and
  throws, and no reply is sent. On an instance that already has a
  player, a member who has left the channel gets the entry queued. If the
  queue is then empty, the "joining" reply reads the channel's name and
  throws, so no reply is sent.
- The legacy `play` refuses only a missing argument list. An empty list
  is searched as empty text (`PlanRefusesOnlyMissingArgs`).
- The legacy `queue` command labels a line with `songs.indexOf(song)`,
  which compares identity. Songs are therefore objects (`class Song`). A
  song object queued twice is labelled with its first position, and a
  second copy of the head is left out of the listing.

## Model

| member | source | states |
|---|---|---|
| `Text.Join` | src/commands/user/Say.ts:17 | joining no words gives the empty text; joining n words gives their characters plus n-1 separators |
| `Text.Split` | src/commands/user/Say.ts:17 | splitting gives at least one piece, and no piece contains the separator |
| `Text.SplitJoin` | src/commands/user/Say.ts:17 | splitting the joined text gives back the separator-free words exactly (Join's inverse) |
| `Text.JoinEmptyIff` | src/commands/user/SetReminder.ts:8-9 | a join is empty if and only if there is no word or a single empty word |
| `Text.IndexOf` | dist/commands/user/music/Queue.js:33-35 | -1 exactly when the element is absent; otherwise a position holding it, with no earlier occurrence |
| `Text.IndexOfDistinct` | dist/commands/user/music/Queue.js:33-35 | in a list without repeats, indexOf of the k-th element is k |
| `Text.UpperCase` | src/commands/user/Say.ts:18 | lower-case ASCII letters map to their capitals (code minus 32); every other character is kept |
| `Say.Capitalize` | src/commands/user/Say.ts:18 | fails exactly on empty text; otherwise the length is kept, the first character is upper-cased and every later character is unchanged |
| `Say.Run` | src/commands/user/Say.ts:16-21 | the reply has the length of the joined arguments and differs from it at most in the first character |
| `Say.RunFailsIff` | src/commands/user/Say.ts:17-18 | `say` fails if and only if there are no arguments or a single empty one |
| `Say.RunKeepsWords` | src/commands/user/Say.ts:17-18 | split back into words, the output is the argument list with only its first word capitalized |
| `SetReminder.UnitOf` | src/commands/user/SetReminder.ts:15-29 | a unit is recognised if and only if the character is one of d, h, m, s |
| `SetReminder.UnitCharRoundTrip` | src/commands/user/SetReminder.ts:15-27 | naming a unit and reading the name back are inverse |
| `SetReminder.UnitsNest` | src/commands/user/SetReminder.ts:15-27 | a day is 24 hours, an hour is 60 minutes, a minute is 60 seconds |
| `SetReminder.MillisPerUnit` | src/commands/user/SetReminder.ts:15-27 | the multiplier of each unit is exactly 1000 times its length in seconds |
| `SetReminder.ToNumber` | src/commands/user/SetReminder.ts:12 | the prefix before the unit is a number exactly when all its characters are decimal digits; the empty prefix is 0 |
| `SetReminder.Run` | src/commands/user/SetReminder.ts:7-30 | a scheduled reminder has at least two arguments, the non-empty message of all but the last, and a last token ending in d, h, m or s |
| `SetReminder.Decimal` | src/commands/user/SetReminder.ts:12 | the decimal notation of a number is a non-empty digit string |
| `SetReminder.DecimalRoundTrip` | src/commands/user/SetReminder.ts:12 | the numeric coercion of the decimal notation of N gives N back |
| `SetReminder.RunSchedulesAfterUnits` | src/commands/user/SetReminder.ts:8-27 | a non-empty message followed by `<N><unit>` schedules that message after N times the unit's milliseconds |
| `SetReminder.RunErrors` | src/commands/user/SetReminder.ts:7-29 | refuses with the missing-message error if and only if the joined message is empty; refuses with the unit error if and only if the message is present and the last token is empty or does not end in d, h, m, s |
| `SetReminder.ConfirmationInUnits` | src/commands/user/SetReminder.ts:31 | the confirmation shows `ms / 1000`, which is N times the unit's seconds |
| `VoiceEvents.FinishedPlaying` | src/handlers/MusicPlaybackHandler.ts:244-246 | a transition into Idle from any other status; its properties are stated by PlayerTransitions |
| `VoiceEvents.StartedPlaying` | src/handlers/MusicPlaybackHandler.ts:248-250 | a transition into Playing from anything but Paused; its properties are stated by PlayerTransitions |
| `VoiceEvents.Decide` | src/handlers/MusicPlaybackHandler.ts:181-237 | a rejoin happens only with attempts left and never on the 4014 close; destroying for an exhausted budget happens only with none left; teardown happens if and only if the connection is Destroyed; the listener goes on only after a wait that succeeded |
| `VoiceEvents.StatusAfter` | src/handlers/MusicPlaybackHandler.ts:195-235 | the connection's status after the listener acts; a failed wait leaves the status it ran into; ConnectionEndsDestroyed states its properties |
| `VoiceEvents.ConnectionEndsDestroyed` | src/handlers/MusicPlaybackHandler.ts:195-236 | every decision that destroys the connection or meets it destroyed leaves it Destroyed, including a timed-out wait that found it destroyed |
| `VoiceEvents.PlayerTransitions` | src/handlers/MusicPlaybackHandler.ts:243-252 | "finished" (into Idle from non-Idle) and "started" (into Playing from anything but Paused) never hold together; resuming from a pause is never "started"; nothing finishes from Idle |
| `VoiceEvents.WaitRules` | src/handlers/MusicPlaybackHandler.ts:195-229 | a timed-out wait for Ready destroys the connection if and only if it is not already destroyed; the 4014 close only waits for Connecting and never rejoins, destroys or counts an attempt |
| `VoiceEvents.DisconnectRule` | src/handlers/MusicPlaybackHandler.ts:211-235 | on any other disconnect: rejoin if and only if attempts < max, destroy if and only if attempts >= max, and a rejoin counts exactly one attempt |
| `VoiceEvents.AttemptsStayBounded` | src/handlers/MusicPlaybackHandler.ts:216-232 | the attempt counter never passes the maximum once it starts within it |
| `VoiceEvents.StreakRejoinsThenDestroys` | src/handlers/MusicPlaybackHandler.ts:211-235 | of k ordinary disconnects in a row, the first `max - attempts` rejoin and every later one destroys |
| `VoiceEvents.LastOfBudgetDestroys` | src/handlers/MusicPlaybackHandler.ts:211-235 | from a fresh counter, max+1 disconnects rejoin max times and the last destroys the connection |
| `MusicPlayback.Consumed` | src/handlers/MusicPlaybackHandler.ts:122-151 | an advance past the guard removes between 1 and all entries; every removed entry but the last failed to open; on an idle player it stops early only at an entry that opens; on a busy player (forced skip) it removes exactly one |
| `MusicPlayback.BadTracksDoNotStall` | src/handlers/MusicPlaybackHandler.ts:139-149 | on an idle player, the failing entries in front of the first entry that opens are dropped and reported, that entry starts, and everything behind it stays |
| `MusicPlayback.AllBadTracksAreDropped` | src/handlers/MusicPlaybackHandler.ts:139-149 | when no entry opens, the advance empties the queue and reports every entry |
| `MusicPlayback.SkipTakesOneEntry` | src/handlers/MusicPlaybackHandler.ts:122-149 | a forced skip on a busy player removes exactly the head, and starts it if and only if its stream opens |
| `MusicPlayback.QueuePosition` | src/handlers/MusicPlaybackHandler.ts:422-438 | an entry appended behind q, after an advance removed n <= \|q\| entries, is last: `indexOf + 1` is the queue length |
| `MusicPlayback.BroadcastData.constructor` | src/handlers/MusicPlaybackHandler.ts:412-416 | a new entry carries the given track and requester |
| `MusicPlayback.MusicPlaybackHandler.constructor` | src/handlers/MusicPlaybackHandler.ts:73-77 | a new instance has an empty queue, a free lock and no audio player |
| `MusicPlayback.MusicPlaybackHandler.ProcessQueue` | src/handlers/MusicPlaybackHandler.ts:122-151 | with the lock set, an empty queue, or a busy player and no forced skip, nothing changes; otherwise the queue becomes the suffix after `Consumed` entries, the last one starts if it opens, the others are reported; the lock ends as it began; it throws exactly when there is no audio player and the guard would read it |
| `MusicPlayback.MusicPlaybackHandler.Enqueue` | src/handlers/MusicPlaybackHandler.ts:295-298 | the entry is appended at the tail and an advance follows; on an idle player the queue is the suffix of old queue + entry, otherwise old queue + entry |
| `MusicPlayback.MusicPlaybackHandler.Stop` | src/handlers/MusicPlaybackHandler.ts:476-493 | without a subscription: "nothing playing" and no change; with one: the player goes Idle, the subscription is deleted, the lock is freed and the queue emptied (so a second stop replies "nothing playing") |
| `MusicPlayback.MusicPlaybackHandler.Pause` | src/handlers/MusicPlaybackHandler.ts:448-453 | without a subscription: "nothing playing" and no change; otherwise a playing player becomes Paused; the queue never changes |
| `MusicPlayback.MusicPlaybackHandler.Resume` | src/handlers/MusicPlaybackHandler.ts:455-460 | without a subscription: "nothing playing" and no change; otherwise a paused player plays again; the queue never changes |
| `MusicPlayback.MusicPlaybackHandler.Skip` | src/handlers/MusicPlaybackHandler.ts:462-474 | without a subscription: "nothing playing" and no change; otherwise a forced advance (`processQueue(true)`): the queue loses `Consumed` entries, the failing ones are reported, and the player is Playing when an entry started and otherwise as it was |
| `MusicPlayback.MusicPlaybackHandler.SetAudioBroadcast` | src/handlers/MusicPlaybackHandler.ts:153-292 | the first call from a member in a voice channel creates an idle player and a connection in Signalling with no rejoin attempts, and subscribes the guild; otherwise subscriptions and connection are unchanged; the entry is then enqueued, which gives the queue, the reported failures and the player's status; without a player the entry stays queued and the thrown advance is caught by stop |
| `MusicPlayback.MusicPlaybackHandler.Play` | src/handlers/MusicPlaybackHandler.ts:412-446 | a fresh entry with the track and requester is broadcast; subscriptions, connection and rejoin counter are those SetAudioBroadcast gives; the queue, the reported failures and the player follow the advance over old queue + entry; "joining" is replied exactly when the queue is empty and the member is in a voice channel; no reply exactly when the caught stop threw or the "joining" reply would read a missing channel; otherwise the position is the queue length and the last entry is the new one |
| `MusicPlayback.MusicPlaybackHandler.OnPlayerStateChange` | src/handlers/MusicPlaybackHandler.ts:243-277 | the track is announced exactly when "started" holds; only "finished" advances the queue (as ProcessQueue on an idle player); otherwise the queue is unchanged |
| `MusicPlayback.MusicPlaybackHandler.OnConnectionStateChange` | src/handlers/MusicPlaybackHandler.ts:181-237 | applies `VoiceEvents.Decide`: the counter follows the decision, and the status follows it and the wait's outcome; no failure is reported; Destroyed stops the handler, which empties the queue and idles the player only if the guild was subscribed; any other decision leaves queue, player and subscriptions unchanged; the budget invariant is kept |
| `MusicPlayback.InstanceSlot.GetInstance` | src/handlers/MusicPlaybackHandler.ts:79-87 | reuses the instance exactly when both the guild and the user match; otherwise installs a fresh instance with an empty queue |
| `PlayCommand.PushBoth` | dist/commands/user/music/Play.js:113-116 | appending keeps the lists parallel; the requests are the old ones followed by (song, author) |
| `PlayCommand.ShiftBoth` | dist/commands/user/music/Play.js:165-167 | shifting keeps the lists parallel; the requests lose exactly the head and keep their order |
| `PlayCommand.MusicBot.SetSong` | dist/commands/user/music/Play.js:130-177 | no song with a queue disconnects and deletes it; for a given song the outcome is "not in a voice channel" without a channel, "now playing" when the play succeeds, and "dropped" when it throws; no song and no queue is dropped in a channel; "not in a voice channel" changes nothing; a new queue holds exactly [(song, author)]; a played song becomes the dispatcher's song; a drop deletes the queue; other guilds are untouched |
| `PlayCommand.MusicBot.HandlePlaySong` | dist/commands/user/music/Play.js:102-128 | without a queue, setSong creates one, with the outcome that the voice channel and the play decide, and the guild has a queue afterwards exactly when the song plays; with a queue, the request is appended at the tail, the earlier order is kept, and the reported index is the old length |
| `PlayCommand.MusicBot.OnFinish` | dist/commands/user/music/Play.js:165-170 | both lists lose exactly the head; the last song finishing disconnects and deletes the queue; otherwise the outcome is decided by the voice channel and the play, the shifted queue stays when the member is not in a channel, the new head becomes the dispatcher's song when the play succeeds, and a failed play deletes the queue |
| `PlayCommand.ClassifySpotify` | dist/commands/user/music/Play.js:31-53 | the character at index 25 decides between track ('t'), playlist ('p') and invalid; ClassifyByPath states what that index is |
| `PlayCommand.ClassifyByPath` | dist/commands/user/music/Play.js:26-53 | index 25 is the first character after the Spotify prefix: "track/" is a track, "playlist/" a playlist, "album/" invalid |
| `PlayCommand.TrackQueries` | dist/commands/user/music/Play.js:38-41 | one search text per playlist item, in playlist order |
| `PlayCommand.SummarizePlaylist` | dist/commands/user/music/Play.js:38-41 | the accumulation loop yields exactly the item search texts and the sum of `duration_ms` |
| `PlayCommand.Plan` | dist/commands/user/music/Play.js:14-97 | the dispatch of a request: refused without arguments, YouTube URL, Spotify track title, Spotify playlist, or search text; PlanRefusesOnlyMissingArgs, PlanLoadsPlaylistIff and PlanSearchesWhatItCannotLoad state its cases |
| `PlayCommand.PlanRefusesOnlyMissingArgs` | dist/commands/user/music/Play.js:14-17 | a request is refused if and only if the argument list is missing; an empty list is searched as empty text |
| `PlayCommand.PlanLoadsPlaylistIff` | dist/commands/user/music/Play.js:22-57 | a playlist is loaded if and only if a non-YouTube Spotify locator with 'p' at index 25 yields items; then it is one query per item in order, with the total duration |
| `PlayCommand.PlanSearchesWhatItCannotLoad` | dist/commands/user/music/Play.js:22-97 | a YouTube locator is looked up as that video; any other request that loads no playlist is searched as text, namely the scraped title for a reachable Spotify track page and otherwise the request itself |
| `QueueCommand.LinesOf` | dist/commands/user/music/Queue.js:32-36 | after n songs there are at most n lines, and every label lies between 1 and n-1, so the head is never listed as coming next |
| `QueueCommand.LinesOfDistinct` | dist/commands/user/music/Queue.js:31-36 | with no song listed twice, "coming next" is every song but the head, in queue order, each labelled with its position |
| `QueueCommand.Render` | dist/commands/user/music/Queue.js:17-46 | no queue gives the "no queue established" reply; otherwise the head is currently listening, with its duration; a single song gives the empty-queue notice and more give one line per later song; nothing is modified |
| `SkipCommand.SkipQueueAsWritten` | dist/commands/user/music/Skip.js:5-20 | the command as written: no queue replies, a single song changes nothing, more songs shift `songs` and then throw on `author`; SkipAsWrittenBreaksQueue states the damage |
| `SkipCommand.SkipAsWrittenBreaksQueue` | dist/commands/user/music/Skip.js:9-18 | as written, skipping a queue of two or more songs throws after shifting only the songs, which breaks the pairing and the playing head |
| `SkipCommand.Skip` | dist/commands/user/music/Skip.js:5-20 | no queue: reply and no change; one song: no change; more: exactly the head request is removed and setSong is called on the new head; its outcome is decided by the voice channel and the play; the shifted queue stays without a channel, the new head is played when the play succeeds, and a failed play deletes the queue; other guilds are untouched |

## Findings

| source | as written | input that shows it | evidently intended | confidence | as-written member | corrected member |
|---|---|---|---|---|---|---|
| dist/commands/user/music/Skip.js:11 | `queueExists.author.shift()` reads a field the queue record does not have, because Play.js stores `authors`; the call throws after `songs.shift()` has already run | a guild queue holding two songs, then `skip` | shift `authors` together with `songs`, then play the new head with its requester | high; not executed | `SkipCommand.SkipAsWrittenBreaksQueue` | `SkipCommand.Skip` |

## Left out

- Discord and voice library calls are not modelled beyond the statuses they set. This covers `joinVoiceChannel`, `createAudioPlayer`, `createAudioResource`, `subscribe`, `rejoin`, `destroy`, `voice.channel.join` and `connection.play`. Their own bookkeeping is library code.
- The library re-emits events from inside handler calls. Examples are the Idle transition that `audioPlayer.stop(true)` emits, the Buffering/Playing transitions of `play`, and the Destroyed transition of `destroy`. The model does not feed these back into the listeners. Each event is delivered by a separate call to `OnPlayerStateChange` or `OnConnectionStateChange`.
- `MusicPlayback.MusicPlaybackHandler.Stop` promises an idle player and an empty queue. It does not promise what happens when `audioPlayer.stop(true)` emits its Idle transition synchronously to the player listener, before the lock and the queue are cleared. If the library delivers that event this way, the listener's `processQueue` can start the next queued entry, so a stopped handler would keep playing.
- `VoiceEvents.LastOfBudgetDestroys` counts only the handler's own `rejoinAttempts++`. The library's `rejoin()` also increments `voiceConnection.rejoinAttempts`, and reaching Ready resets it. With that bookkeeping the budget is spent sooner, and it is renewed after every successful reconnection.
- `entersState` waits (20 s and 5 s) are `WaitOutcome` parameters, not clocks. The errors that the async `stateChange` listeners rethrow become unhandled promise rejections.
- The `error` listeners of the connection and the player are plain functions. Their `throw` escapes synchronously from wherever the library emits the error, and outside any caller's `try` it is an uncaught exception that can end the process, with every queue in it. This library and runtime behaviour is not modelled.
- `MAX_VOICE_CONNECTION_JOIN_ATTEMPTS`: its value is configuration that is not part of this model. It is the `maxJoinAttempts` parameter.
- The now-playing message is reduced to the `announce` flag. The source announces the entry captured by the listener's closure and then clears it. Listeners pile up, because one set is registered on every `setAudioBroadcast` call. Neither the closure nor the repeated registration is modelled.
- `downloadTrack`, `getTrackInfo`, `getTrack`, `yts`, `ytdl`, `axios.get`, `parseSpotifyResponse`, `isValidURL` and `getImagePaletteColors` are network lookups or code that is not part of this model. Their results are parameters: `TrackData`, `isYouTubeUrl`, `SpotifyPage`.
- The Spotify page scraping (`substring`/`indexOf`, `JSON.parse`) depends on an external page format. `SpotifyPage` carries its result.
- The playlist branch's searches and timers are not modelled, and `Plan` ends at `LoadPlaylist`. Every item's search starts at once. After 60 s the first item is queued, and one loop starts a 5 s timer for each other found item, all together. Items are therefore queued in the order their searches finished, and an item whose search had not finished at 60 s is never queued.
- `PlayCommand.MusicBot.HandlePlaySong` takes a resolved song. The playlist path can pass an undefined song when the search for the first item failed.
- `PlayCommand.MusicBot.SetSong`: `dropBotQueueConnection` is not part of this model. It is taken to do what its name says: the guild's queue is removed.
- The legacy queue record is one shared JavaScript object that commands mutate in place. The model stores it as a value in `MusicBot.queues` and reassigns that entry. The finish handler's closure over a record that was already deleted is not modelled, so `OnFinish` requires the guild's queue to exist.
- Embeds, colours, thumbnails, reply wording and `formatSecondsToTime` are presentation only. The model keeps integer milliseconds and seconds, not floating-point formatting.
- The `setTimeout` that delivers a reminder is left out. The model stops at the `Reminder` value.
- `SetReminder.ToNumber`: only strings of decimal digits (the empty one included) are read as numbers, and anything else is NaN. JavaScript's `Number` coercion also accepts surrounding whitespace, signs, fractions, exponents, hexadecimal and `Infinity`.
- `SetReminder.ToNumber` is exact, while a JavaScript number is a double. Digit strings beyond 2^53 lose precision, and very long ones become `Infinity`. The scaled delay has the same limits.
- `Text.UpperCase` maps only ASCII letters. `toUpperCase` also maps other letters, some of them to several characters.
- The queue lock is treated as a sequential flag. The interleaving of asynchronous handlers is not modelled.
- src/commands/dev/RestartBot.ts (login and destroy around a timer) and src/commands/user/music/Pause.ts (a one-line guard that delegates to the dispatcher) are not modelled.
