# Music queue bookkeeping of the LaiStang Discord bot

The bot keeps one record per guild in the global dict `music_queues`. Each
record holds the guild's pending tracks and a `playing` flag. The commands
change it as follows:

- `ensure_queue` creates the record lazily.
- `play` appends a resolved track and starts playback when the guild was idle.
- `play_next` takes the head of the list off and hands it to the voice client.
  The client's "finished" callback runs `play_next` again.
- `stop` clears the list and the flag.
- `leave` drops the record.
- `queue` renders a numbered listing of the pending tracks.
- Before resolving a query, `play` rewrites a Spotify track link into "name
  artist".

This project models that bookkeeping in Dafny:

- `sessions.dfy` (module `Sessions`): the record (`Session`), the tracks
  (`Track`, reduced to a title) and the pure transitions (`Registered`,
  `Enqueue`, `Advance`, `PlayStep`). It also holds the FIFO lemmas: for
  successive play-next steps, and for any mix of requests and completions.
- `registry.dfy` (module `Registry`): class `MusicQueues`, whose field
  `sessions: map<GuildId, Session>` is the registry. There is one method per
  command. `EnsureQueue`, `Play`, `PlayNext`, `Complete` and `Queue` are
  proved against the transitions and the listing function. `Leave` and `Stop`
  state their new map directly. The class invariant `Valid()` says that a
  guild that is not playing has nothing pending. Every command keeps it.
- `listing.dfy` (module `Listing`): the text sent by the `queue` command.
- `query.dfy` (module `SpotifyQuery`): the Spotify link rewrite. The catalogue
  lookup result is an input.
- `text.dfy` (module `Text`): the string operations written out. These are
  substring test, newline join and split, and decimal rendering with its
  inverse.

Whether a guild's voice client is connected is Discord state. Each command
reads it, and the model passes it in as the parameter `voiceConnected`. Two
code paths crash instead of handling an error. The model states each as a
precondition:

- `stop` indexes the record without creating it, so it requires "the guild
  has a record when a voice client exists".
- `play_next` calls the voice client without a None check, so it requires
  "the voice client is connected when a track is about to start".

## Model

| member | source | states |
|---|---|---|
| `Registry.MusicQueues.constructor` | bot.py:28 | the registry starts as an empty map and satisfies the invariant |
| `Sessions.Registered` | bot.py:66-68 | the guild gains the record `{queue: [], playing: false}` only if it had none; an existing record and every other guild's record are unchanged; the key set grows by exactly the guild |
| `Sessions.RegisteredIdempotent` | bot.py:66-68 | calling `ensure_queue` twice gives the same registry as calling it once |
| `Registry.MusicQueues.EnsureQueue` | bot.py:66-68 | the new registry is the lazily extended one, and the invariant is kept |
| `Registry.MusicQueues.Leave` | bot.py:79-84 | with a voice client the guild's record is removed and no other; an absent guild is a no-op; without a voice client nothing changes |
| `Sessions.Enqueue` | bot.py:97 | the list grows by one; the old tracks keep their positions and the new track is last; the flag is untouched |
| `Sessions.Advance` | bot.py:104-111 | playing afterwards exactly when the list was non-empty; on an empty list nothing is started and the list stays empty; otherwise the old list is exactly the started track followed by the new list; the result satisfies the idle-means-empty invariant |
| `Sessions.PlayStep` | bot.py:96-102 | a track is started exactly when the guild was not playing; if it was playing, the track is only appended; on an idle guild that satisfies the invariant, the new track itself is started and nothing is left pending |
| `Registry.MusicQueues.Play` | bot.py:86-102 | creates the record if needed, appends the track and runs `play_next` exactly when the guild was not playing; an idle guild starts the new track at once; a playing guild only gains it at the tail |
| `Registry.MusicQueues.PlayNext` | bot.py:104-112 | the registry changes only in this guild's record, by the play-next step; on an empty list the flag is cleared and nothing starts; otherwise the former head is returned, the former tail is what remains and the flag is set; the invariant is restored for the guild |
| `Registry.MusicQueues.Complete` | bot.py:112 | the voice client's finished callback performs exactly one play-next step on the guild |
| `Sessions.CompletionAfterStop` | bot.py:104-108 | a play-next step on the cleared record `{queue: [], playing: false}` starts nothing and leaves it cleared |
| `Registry.StopThenComplete` | bot.py:104-112 | if no `play` ran since `stop`, the finished callback of the track `stop` cut short starts nothing, and the guild stays as `stop` left it; no other guild changes |
| `Registry.StaleCompletionAfterReplay` | bot.py:101-112 | after `stop`, a `play` of `b` starts `b`; the late callback of the stopped track then clears the flag while `b` is still playing, so a following `play` of `c` starts `c` at once instead of queueing it |
| `Sessions.EnqueueAllAppends` | bot.py:97 | appending several tracks in turn leaves the old list followed by the new tracks in request order |
| `Sessions.AdvanceTimesIsFifo` | bot.py:110-112 | `k` successive play-next steps start exactly the first `k` pending tracks in order and leave exactly the rest, still playing |
| `Sessions.AdvanceTimesExhausts` | bot.py:105-108 | more play-next steps than pending tracks start all of them in order and then leave the guild idle with an empty list |
| `Sessions.FifoLaw` | bot.py:96-112 | tracks appended one by one are started by successive play-next steps in exactly insertion order |
| `Sessions.ApplyKeepsOrder` | bot.py:96-112 | one request or completion keeps the order: the track it starts, followed by the pending list afterwards, equals the pending list before followed by the track it requested |
| `Sessions.FifoTrace` | bot.py:96-112 | for any sequence of requests and completions, the tracks started followed by the tracks still pending equal the tracks pending at the start followed by the requested tracks in request order; nothing is lost, duplicated or reordered |
| `Registry.MusicQueues.Stop` | bot.py:149-157 | with a voice client the guild's list is empty and the flag false, and no other guild changes; without one nothing changes |
| `Registry.MusicQueues.Queue` | bot.py:139-147 | creates the record if needed, leaves the pending list as it was, and returns the listing of that list |
| `Listing.QueueMessage` | bot.py:143-147 | the message is "Queue is empty." exactly when nothing is pending |
| `Listing.QueueMessageLines` | bot.py:144-145 | a non-empty listing is the header line followed by exactly one line per pending track; line `i+1` reads `i+1`, a dot, a space and the title of the track at position `i` (when no title contains a newline) |
| `Listing.NumberedLineIsOneLine` | bot.py:144 | a numbered entry spans one line when its title does |
| `Text.NatToString` | bot.py:144 | the entry number is rendered as non-empty decimal digits with no leading zero |
| `Text.DecimalRoundTrip` | bot.py:144 | reading the rendered number back gives the number |
| `Text.SplitJoin` | bot.py:144 | splitting the newline-joined entries on newlines gives back the entries, as long as none contains a newline |
| `Text.OccursAt` | bot.py:91 | the substring test `pat in s` holds exactly when `pat` appears at some position of `s` |
| `SpotifyQuery.EffectiveQuery` | bot.py:90-93 | a query that contains "spotify.com/track" at some position becomes the looked-up track name, a space and its first artist's name; any other query is unchanged |

## Left out

- Discord I/O is not modelled. This covers every `ctx.send` message except the
  `queue` listing, `channel.connect` and `voice_client.disconnect`. The
  `join` command only connects the voice client and never touches the
  registry.
- `skip`, `pause` and `resume` (bot.py:115-137) act only on the voice client
  and never touch the registry. `skip`'s effect on the queue comes through the
  finished callback, which is the `Complete` event.
- Track resolution through yt-dlp (`YTDLSource.from_url`, bot.py:45-58) is
  foreign code. `Play` receives the already resolved track. This includes the
  `entries[0]` pick and the FFmpeg source.
- Registry.MusicQueues.Play: only the path where the query resolves is
  modelled. A failed catalogue lookup (bot.py:92) or a failed extraction
  (bot.py:96, including the `entries[0]` pick at bot.py:57) raises and aborts
  `play` after `ensure_queue` (bot.py:88). The registry then changes as by
  `EnsureQueue` alone, and nothing is queued.
  Likewise, a failing `ctx.send` at bot.py:99 runs after the append and before
  the flag check. It aborts `play` and leaves the track pending with the flag
  false. The invariant `Valid()` and this method's contract do not cover that
  state.
- A title comes from `data.get('title')`, which can be None in Python. Such a
  title would render as "None". A track's title is always a string here.
- The Spotify lookup `sp.track` is a network call. Its result is the
  `found` parameter of `EffectiveQuery`. The source indexes `artists[0]`
  without a check, so the model requires at least one artist for a link.
- `asyncio.run_coroutine_threadsafe` is cross-thread marshalling. Only its
  effect is modelled: one `Complete` event that runs the play-next step. The
  source has no check that the finished track is still current, and neither
  does the model.
- Registry.MusicQueues.Complete: the callback does not know which track it
  belongs to. If a `play` runs between `stop` and the stopped track's
  callback, that callback clears the new track's flag while the new track is
  still playing. The model reproduces this (`StaleCompletionAfterReplay`). It
  does not model the voice client, which already holds a track at that point.
- A completion that arrives after `leave` raises a KeyError in the source,
  because the record is gone. `Complete` requires the guild to have a record.
- Registry.MusicQueues.PlayNext: when the voice client is missing, the
  source has already set the flag and popped the head before it crashes.
  This leaves the flag stuck at true and the track lost. The model excludes
  that path by its precondition and does not describe the state it leaves.
- Registry.MusicQueues.Stop: stopping a guild with a voice client but no
  record raises a KeyError in the source. The model excludes it by its
  precondition.
- Interleaving at `await` points is not modelled. Each command runs as one
  atomic step. In the source, `play` awaits between the append and the flag
  check (bot.py:97-102), so other commands or callbacks may run in that gap.
- Volume (0.5), environment and token loading, and `bot.run` are not
  modelled. They are floating-point audio and configuration.
- bot.py has no idle auto-leave timer, no Paused state or now-playing slot,
  no interactive search and selection flow, no URL-then-search fallback, no
  display cap on the listing, and no handling of a failed playback start. The
  model has none of them.
