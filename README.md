# belley-bot playback queue, modelled in Dafny

belley-bot is a chat bot that plays audio from a video site into a guild's
voice channel. Its only structured part is the per-guild playback queue in
`src/index.ts`: a process-wide map from guild id to a `Queue` record (text
and voice channel, voice connection, songs, volume, playing flag), changed
by the `play`, `skip` and `stop` commands and by the end-of-track `finish`
callback. This project models that queue and the two pure string
computations around it: command dispatch and search-query extraction.

- `commands.dfy`, module `Commands`: `Classify` (the ordered `startsWith`
  dispatch), JavaScript's `split(' ')` and `join` as `Split`/`Join`, the
  comma-to-space replacement, and `Query`, the text handed to the search.
- `playback.dfy`, module `Playback`: the queue as values (`Song`, `Queue`,
  `Store = map<GuildId, Queue>`), the outside world as a list of `Effect`s
  (chat replies as a `Reply` enumeration, the search request, the attempt
  to join the voice channel, streaming, disconnecting, leaving the voice
  channel), and one function per
  transition: `Execute`, `Skip`, `Stop`, `Play`, `Finish`, `Dispatch`.
  `Drain` runs finish events until the guild's entry is gone. `EnqueueAll`
  runs a sequence of play commands (`PlayRequest`: message, permissions,
  resolved song), each on the map the previous one left. The lemmas state the queue's promises:
  FIFO order, deletion when empty, nothing changes when a guard fails, and
  a failed join leaves the map as it was.
- `queue_store.dfy`, module `Bot`: class `QueueStore` with the field
  `queues`. Its methods change the map step by step, as the handlers do.
  Each method's postcondition equates the new map and the effects with
  the matching `Playback` function, so every `Playback` lemma also holds
  for the methods. `Valid()` is the store invariant: every stored queue
  has volume 6, `playing` set and a connection.

Inputs that come from outside the code are parameters. These are the
issuer's voice channel, the bot's CONNECT/SPEAK permissions, the song that
the search and metadata lookups resolve, and the result of joining the
voice channel (`Some(connection)` or `None` when the join throws). The
join attempt itself is the `JoinVoice` effect, and a disconnect is an
effect too. The library's resulting `finish` event is the
separate `Finish`/`OnFinish` transition.

Points where the code's behaviour is easy to misread:
- `stop` does not delete the guild's entry. It empties `songs` in place and
  disconnects. The entry goes only when the following `finish` event calls
  `play` with no song. Between the two, a stored queue has no songs but
  still holds its connection.
- `skip` never touches `songs`. It only disconnects, and the song comes off
  in the `finish` handler.
- Any prefixed text that starts with `play` is a play command (`!playskip`
  included), because `play` is tested first.
- The query is everything after the first space, with commas turned into
  spaces. Several spaces in a row survive, because `split(' ')` keeps empty
  tokens.

## Model

| member | source | states |
|---|---|---|
| `Commands.Classify` | src/index.ts:154-168 | bot authors and unprefixed texts are ignored; a text is play iff it starts with prefix+`play`, skip iff it starts with prefix+`skip` but not prefix+`play`, stop iff it starts with prefix+`stop` and neither earlier word |
| `Commands.PlayShadowsLaterTests` | src/index.ts:160-161 | prefix+`play` followed by anything is a play command |
| `Commands.ClassifyStableUnderExtension` | src/index.ts:156-165 | a recognised command stays the same command when more text is appended |
| `Commands.Split` | src/index.ts:90 | `split(' ')` yields at least one token and no token contains the separator |
| `Commands.JoinSplit` | src/index.ts:90 | joining the tokens of a split with the same separator gives back the text |
| `Commands.SplitAtFirst` | src/index.ts:90 | the tokens of `head sep rest` are `head` followed by the tokens of `rest` |
| `Commands.SplitWithoutSeparator` | src/index.ts:90 | a text without the separator is one token |
| `Commands.Join` | src/index.ts:108 | `join`/`toString()` of a non-empty array starts with its first element |
| `Commands.SplitJoin` | src/index.ts:90-108 | pieces free of the separator, joined with it and split again, come back unchanged |
| `Commands.ReplaceCommas` | src/index.ts:82 | `replace(/,/g, ' ')` keeps the length, turns every comma into a space and changes no other character |
| `Commands.Query` | src/index.ts:82-108 | the text handed to the search contains no comma |
| `Commands.ReplaceCommasJoin` | src/index.ts:108 | joining with `,` (as `toString()` does) or `' '` and then replacing commas equals replacing commas in every token and joining with single spaces |
| `Commands.QueryIsLaterTokens` | src/index.ts:105-108 | the search query is the tokens after the first, commas replaced, separated by single spaces |
| `Commands.QueryIsRestOfLine` | src/index.ts:78-108 | the search query is the text after the first space with commas turned into spaces, and empty when there is no space |
| `Playback.Play` | src/index.ts:59-76 | `play` touches no other guild's entry and keeps the store invariant |
| `Playback.Finish` | src/index.ts:69-72 | the finish handler touches no other guild's entry and keeps the store invariant |
| `Playback.Execute` | src/index.ts:89-142 | the play command touches no other guild's entry and keeps the store invariant |
| `Playback.Stop` | src/index.ts:45-57 | `stop` touches no other guild's entry and keeps the store invariant |
| `Playback.Skip` | src/index.ts:31-43 | skip has at most one effect, and it is a reply or a disconnect; it changes no queue |
| `Playback.Shift` | src/index.ts:70 | `songs.shift()` removes exactly the first song, and does nothing on an empty queue |
| `Playback.Head` | src/index.ts:71 | `songs[0]` is a song exactly when the queue is not empty, and then it is the first one |
| `Playback.Drain` | src/index.ts:59-72 | finish events, each calling `play` again, end with the guild's entry removed and every other entry as it was |
| `Playback.SongsOf` | src/index.ts:110-141 | the songs of a run of play commands are the commands' resolved songs, one each, in call order |
| `Playback.EnqueueAll` | src/index.ts:89-142 | a run of play commands, each on the map the previous one left, keeps the store invariant |
| `Playback.Dispatch` | src/index.ts:154-169 | the message handler touches no guild but the message's and keeps the store invariant |
| `Playback.ExecuteGuards` | src/index.ts:92-103 | without a voice channel, or without CONNECT and SPEAK, the play command leaves the map unchanged and only sends the matching reply |
| `Playback.ExecuteCreates` | src/index.ts:115-132 | on a guild with no entry and a successful join: exactly one new key; the entry holds the message's channels, the connection, songs `[song]`, volume 6 and playing; the effects are the search, the join attempt, then streaming and announcing the song |
| `Playback.ExecuteJoinFailureRestores` | src/index.ts:129-137 | when the join fails after a first enqueue, the map is exactly as before the command; the effects are the search, the join attempt and the join error reply |
| `Playback.ExecuteAppends` | src/index.ts:138-141 | on a guild with a queue, the song is appended at the end and the record is otherwise unchanged; the reply is "added to the queue" |
| `Playback.EnqueueAllKeepsCallOrder` | src/index.ts:115-141 | play commands on a fresh guild, possibly with different texts and text channels, all from that guild and past the guards, leave one entry with the first command's channels whose songs are the resolved songs in call order; only the first is streamed |
| `Playback.EnqueueOneMore` | src/index.ts:138-140 | one more play command from the same guild, on the queue built so far, appends its song, keeps the first command's channels and streams nothing |
| `Playback.FinishAdvances` | src/index.ts:59-72 | a finish event removes exactly the head; if a song remains, the new head is streamed and announced and nothing else in the record changes; otherwise the entry is deleted and the voice channel left |
| `Playback.DrainPlaysRestInOrder` | src/index.ts:59-72 | finish events until the end stream the songs behind the current one in queue order, then remove the guild's entry and nothing else |
| `Playback.EnqueuedSongsPlayInCallOrder` | src/index.ts:59-142 | the songs of play commands on a fresh guild (any texts, all admitted) are streamed each once, in call order, after which the map is as it was before the first command |
| `Playback.SkipAndStopGuards` | src/index.ts:31-50 | outside a voice channel, skip and stop change nothing and only send their reply |
| `Playback.SkipDisconnectsActiveQueue` | src/index.ts:31-43 | skip has exactly one effect: a disconnect of the guild's connection iff the issuer is in a voice channel and the guild has a queue, and otherwise the "must be in a voice channel" or "no songs to skip" reply to the message's channel |
| `Playback.SkipThenFinishAdvancesOne` | src/index.ts:38-42 | skip only disconnects; the finish event it causes advances the queue by exactly one song |
| `Playback.StopClearsThenFinishRemoves` | src/index.ts:45-64 | stop empties the songs but keeps the entry and its other fields and disconnects; the next finish event removes the entry, and nothing more is streamed |
| `Playback.DispatchIgnores` | src/index.ts:154-156 | messages from bots or without the prefix have no effect at all |
| `Playback.DispatchPlayFirst` | src/index.ts:160-161 | a user's text starting with prefix+`play` runs the play command |
| `Playback.DispatchSkip` | src/index.ts:162-163 | a user's text starting with prefix+`skip` and not prefix+`play` runs skip and leaves the map as it was |
| `Playback.DispatchStop` | src/index.ts:164-165 | a user's text starting with prefix+`stop` and with neither earlier word runs stop |
| `Playback.DispatchUnknownReplies` | src/index.ts:166-167 | a user's prefixed text naming none of play, skip or stop changes nothing and only replies that the command is invalid |
| `Bot.QueueStore.constructor` | src/index.ts:29 | the store starts empty and valid |
| `Bot.QueueStore.Play` | src/index.ts:59-76 | the new map and the effects are those of `Playback.Play`; validity is kept |
| `Bot.QueueStore.OnFinish` | src/index.ts:69-72 | the shift-and-play callback has the effect of `Playback.Finish` |
| `Bot.QueueStore.Execute` | src/index.ts:89-142 | the step-by-step play command (create, push, join, play or delete; or push) has the effect of `Playback.Execute` |
| `Bot.QueueStore.Skip` | src/index.ts:31-43 | skip changes no state (no modifies clause); its effects are those of `Playback.Skip` |
| `Bot.QueueStore.Stop` | src/index.ts:45-57 | the in-place clear and disconnect have the effect of `Playback.Stop` |
| `Bot.QueueStore.OnMessage` | src/index.ts:154-169 | the message handler has the effect of `Playback.Dispatch` |

## Left out

- The chat client, sending messages, joining and leaving voice channels,
  disconnecting, and the audio stream are I/O. Each appears only as an
  `Effect` value, and the join's outcome is the `join` parameter. Replies are `Reply` constructors, not their Portuguese
  texts. The join error's raw text is the single constructor `JoinError`.
- The video search and `ytdl.getInfo` are external lookups with no logic
  in this code. The resolved `Song` is an input, and the search is the
  `Search(query)` effect. A failing lookup is an unhandled rejection in the
  source and is not modelled.
- `setVolumeLogarithmic(volume / 5)` is floating point handled by the
  library. The model keeps `volume` (6) but not the gain.
- The stream's `error` handler only logs.
- Login, configuration loading, the `ready`/`disconnect` logs and every
  `console.log` are left out.
- Asynchronous interleaving is left out. Each command and each finish
  event is atomic, so two racing first enqueues for one guild are not
  modelled. The record with no connection yet exists only inside
  `Bot.QueueStore.Execute`, between `queue.set` and the join.
- Queue records are values in the map rather than shared objects. The
  `serverQueue` snapshot and the record captured by the `finish` closure
  are the map's entry at the moment each atomic step runs, so in-place
  mutation through those aliases is modelled by replacing the entry.
- `Bot.QueueStore.Stop` and `Playback.Stop` require the guild's entry when
  the issuer is in a voice channel. Without one, the source throws a
  TypeError at line 54, and no recovery is modelled.
- `Playback.Finish` and `Bot.QueueStore.OnFinish` require the guild's
  entry and its connection. A finish event comes only from a dispatcher
  started on that connection. If the entry were gone, `play` would read
  `undefined` for the queue and throw: at line 67 when the record the
  `finish` closure holds still has a song, at line 62 when it has none.
- Messages outside a guild (`message.guild` undefined) are not modelled.
  Every message carries a guild id.
- `Playback.Execute` and `Bot.QueueStore.Execute`: the `try` at
  src/index.ts:129-137 also covers the call to `play` at line 132. If
  that call throws after a successful join (the stream cannot start), the
  source deletes the guild's entry and replies the error, but it stays in
  the voice channel. The model treats `play` after a successful join as
  always succeeding, so it does not capture that path.
- `Playback.EnqueueAll` gives every join the same outcome. Only the
  first command on a fresh guild joins, so the FIFO lemmas cover a
  successful first join. A failed first join is
  `ExecuteJoinFailureRestores`.
- Whether the voice library really emits `finish` after a disconnect is
  not modelled. It is an assumption, and `Drain` and
  `SkipThenFinishAdvancesOne` show what follows from it.
