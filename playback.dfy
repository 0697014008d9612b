/** The per-guild playback queue of src/index.ts as a state machine over
    values: the process-wide map from guild to Queue record, and what each
    command and each end-of-track event does to it. Every transition yields
    the new map and the effects it has on the outside world (chat replies,
    the search request, streaming, disconnecting, leaving the channel). */
module Playback {
  import Commands

  datatype Option<T> = None | Some(value: T)

  type GuildId = string
  /** Opaque handles to platform objects: text and voice channels, and the
      voice connection obtained by joining a channel. */
  type ChannelId = nat
  type ConnectionId = nat

  /** A resolved track: its title and its canonical media URL. */
  datatype Song = Song(title: string, url: string)

  /** One guild's queue record. */
  datatype Queue = Queue(
    textChannel: ChannelId,
    voiceChannel: ChannelId,
    connection: Option<ConnectionId>,
    songs: seq<Song>,
    volume: int,
    playing: bool)

  /** The `queue` map: at most one record per guild, by construction. */
  type Store = map<GuildId, Queue>

  /** The volume every queue is created with. */
  const DEFAULT_VOLUME := 6

  /** The chat replies of the bot (their Portuguese texts are fixed strings
      in the source; each constructor stands for one of them). */
  datatype Reply =
    | MustBeInVoiceToSkip
    | NoSongsToSkip
    | MustBeInVoiceToStop
    | MustBeInVoice
    | NoVoicePermission
    | NowPlaying(title: string)
    | AddedToQueue(title: string)
    | JoinError
    | InvalidCommand

  /** What a transition asks of the outside world, in order. */
  datatype Effect =
    | Send(channel: ChannelId, reply: Reply)
    | Search(query: string)
    | PlayStream(connection: ConnectionId, url: string)
    | JoinVoice(channel: ChannelId)
    | Disconnect(connection: ConnectionId)
    | LeaveVoice(channel: ChannelId)

  /** An inbound chat message: its guild, whether a bot wrote it, its text,
      the channel it was posted in, and the voice channel its author is in. */
  datatype Message = Message(
    guild: GuildId,
    fromBot: bool,
    content: string,
    textChannel: ChannelId,
    voiceChannel: Option<ChannelId>)

  /** The bot's CONNECT and SPEAK rights on the author's voice channel (a
      missing permission object has neither). */
  datatype Permissions = Permissions(connect: bool, speak: bool)

  /** The result of a transition: the new map and the effects, in order. */
  datatype Outcome = Outcome(store: Store, effects: seq<Effect>)

  /** Every queue in the map was created with volume 6 and `playing` set, and
      holds the connection of a successful join (commands are atomic, so the
      record with no connection yet is never seen between two events). */
  ghost predicate Wellformed(s: Store)
  {
    forall g :: g in s ==> s[g].connection.Some? && s[g].volume == DEFAULT_VOLUME && s[g].playing
  }

  /** `Array.prototype.shift`: drops the first element, a no-op when empty. */
  function Shift(songs: seq<Song>): (rest: seq<Song>)
    ensures songs == [] ==> rest == []
    ensures songs != [] ==> [songs[0]] + rest == songs
  {
    if songs == [] then songs else songs[1..]
  }

  /** The first element, or `undefined` (None) for an empty sequence. */
  function Head(songs: seq<Song>): (head: Option<Song>)
    ensures head.Some? <==> songs != []
    ensures head.Some? ==> head.value == songs[0]
  {
    if songs == [] then None else Some(songs[0])
  }

  /** `play(guild, song)`: with no song, leave the voice channel and delete
      the guild's entry; otherwise stream the song over the guild's
      connection and announce it in the queue's text channel. */
  function Play(s: Store, g: GuildId, song: Option<Song>): (o: Outcome)
    requires g in s && (song.Some? ==> s[g].connection.Some?)
    ensures o.store - {g} == s - {g}
    ensures Wellformed(s) ==> Wellformed(o.store)
  {
    match song
    case None => Outcome(s - {g}, [LeaveVoice(s[g].voiceChannel)])
    case Some(next) =>
      Outcome(s, [PlayStream(s[g].connection.value, next.url), Send(s[g].textChannel, NowPlaying(next.title))])
  }

  /** The `finish` handler installed by `play`: shift the finished song off
      the guild's queue and play the new head. */
  function Finish(s: Store, g: GuildId): (o: Outcome)
    requires g in s && s[g].connection.Some?
    ensures o.store - {g} == s - {g}
    ensures Wellformed(s) ==> Wellformed(o.store)
  {
    var q := s[g].(songs := Shift(s[g].songs));
    Play(s[g := q], g, Head(q.songs))
  }

  /** `execute`, the play command: the voice-channel and permission guards,
      then the search for the query, then either a new queue (joined and
      played, or removed again when the join fails) or an append. The
      resolved song and the join's result are inputs. */
  function Execute(s: Store, m: Message, perms: Permissions, song: Song, join: Option<ConnectionId>): (o: Outcome)
    ensures o.store - {m.guild} == s - {m.guild}
    ensures Wellformed(s) ==> Wellformed(o.store)
  {
    if m.voiceChannel.None? then Outcome(s, [Send(m.textChannel, MustBeInVoice)])
    else if !perms.connect || !perms.speak then Outcome(s, [Send(m.textChannel, NoVoicePermission)])
    else
      var g := m.guild;
      var search := Search(Commands.Query(m.content));
      if g !in s then
        var created := Queue(m.textChannel, m.voiceChannel.value, None, [song], DEFAULT_VOLUME, true);
        var joining := JoinVoice(m.voiceChannel.value);
        match join
        case Some(c) =>
          var played := Play(s[g := created.(connection := join)], g, Some(song));
          Outcome(played.store, [search, joining] + played.effects)
        case None =>
          Outcome(s[g := created] - {g}, [search, joining, Send(m.textChannel, JoinError)])
      else
        Outcome(s[g := s[g].(songs := s[g].songs + [song])], [search, Send(m.textChannel, AddedToQueue(song.title))])
  }

  /** `skip`: the voice-channel guard, the no-queue guard, then disconnect
      the guild's connection if it has one. It never touches the map, so it
      yields effects only: at most one, a reply or a disconnect. */
  function Skip(s: Store, m: Message): (effects: seq<Effect>)
    ensures |effects| <= 1
    ensures forall i :: 0 <= i < |effects| ==> effects[i].Send? || effects[i].Disconnect?
  {
    if m.voiceChannel.None? then [Send(m.textChannel, MustBeInVoiceToSkip)]
    else if m.guild !in s then [Send(m.textChannel, NoSongsToSkip)]
    else match s[m.guild].connection
      case Some(c) => [Disconnect(c)]
      case None => []
  }

  /** `stop`: the voice-channel guard, then empty the guild's songs in place
      and disconnect. The source dereferences the queue without checking it,
      so past the guard the guild must have one. */
  function Stop(s: Store, m: Message): (o: Outcome)
    requires m.voiceChannel.Some? ==> m.guild in s
    ensures o.store - {m.guild} == s - {m.guild}
    ensures Wellformed(s) ==> Wellformed(o.store)
  {
    if m.voiceChannel.None? then Outcome(s, [Send(m.textChannel, MustBeInVoiceToStop)])
    else
      var g := m.guild;
      var cleared := s[g := s[g].(songs := [])];
      match s[g].connection
      case Some(c) => Outcome(cleared, [Disconnect(c)])
      case None => Outcome(cleared, [])
  }

  /** The `message` handler: classify the text and run the chosen command
      on the current map. */
  function Dispatch(s: Store, prefix: string, m: Message, perms: Permissions, song: Song, join: Option<ConnectionId>): (o: Outcome)
    requires Commands.Classify(prefix, m.fromBot, m.content) == Commands.Stop && m.voiceChannel.Some? ==> m.guild in s
    ensures o.store - {m.guild} == s - {m.guild}
    ensures Wellformed(s) ==> Wellformed(o.store)
  {
    match Commands.Classify(prefix, m.fromBot, m.content)
    case Ignored => Outcome(s, [])
    case Play => Execute(s, m, perms, song, join)
    case Skip => Outcome(s, Skip(s, m))
    case Stop => Stop(s, m)
    case Unknown => Outcome(s, [Send(m.textChannel, InvalidCommand)])
  }

  // ---------------------------------------------------------------------
  // Runs of events

  /** Finish events for guild g, one after another, until its entry is gone:
      the chain that the `finish` handler forms by calling `play` again. */
  function Drain(s: Store, g: GuildId): (o: Outcome)
    requires Wellformed(s)
    ensures o.store == s - {g}
    decreases if g in s then |s[g].songs| + 1 else 0
  {
    if g !in s then Outcome(s, [])
    else
      var step := Finish(s, g);
      var rest := Drain(step.store, g);
      Outcome(rest.store, step.effects + rest.effects)
  }

  /** One play command as the handler sees it: the message, the bot's
      permissions on its author's voice channel, and the song its query
      resolves to. */
  datatype PlayRequest = PlayRequest(msg: Message, perms: Permissions, song: Song)

  /** The resolved songs of a run of play commands, in call order. */
  function SongsOf(reqs: seq<PlayRequest>): (songs: seq<Song>)
    ensures |songs| == |reqs|
    ensures forall i :: 0 <= i < |reqs| ==> songs[i] == reqs[i].song
  {
    if reqs == [] then [] else SongsOf(reqs[..|reqs| - 1]) + [reqs[|reqs| - 1].song]
  }

  /** Play commands run one after another, each on the map the previous
      one left; a join, when one happens, has the outcome `join`. */
  function EnqueueAll(s: Store, reqs: seq<PlayRequest>, join: Option<ConnectionId>): (o: Outcome)
    ensures Wellformed(s) ==> Wellformed(o.store)
    decreases |reqs|
  {
    if reqs == [] then Outcome(s, [])
    else
      var before := EnqueueAll(s, reqs[..|reqs| - 1], join);
      var r := reqs[|reqs| - 1];
      var last := Execute(before.store, r.msg, r.perms, r.song, join);
      Outcome(last.store, before.effects + last.effects)
  }

  /** Play commands that all come from guild g and all pass the guards. */
  ghost predicate Admitted(reqs: seq<PlayRequest>, g: GuildId)
  {
    forall i :: 0 <= i < |reqs| ==>
      reqs[i].msg.guild == g && reqs[i].msg.voiceChannel.Some? && reqs[i].perms.connect && reqs[i].perms.speak
  }

  /** The record the first play command on a guild creates, holding songs. */
  function Created(first: Message, c: ConnectionId, songs: seq<Song>): Queue
    requires first.voiceChannel.Some?
  {
    Queue(first.textChannel, first.voiceChannel.value, Some(c), songs, DEFAULT_VOLUME, true)
  }

  /** The URLs streamed by a run of effects, in order. */
  function Streamed(effects: seq<Effect>): seq<string>
  {
    if effects == [] then []
    else (if effects[0].PlayStream? then [effects[0].url] else []) + Streamed(effects[1..])
  }

  /** The URLs of a sequence of songs. */
  function Urls(songs: seq<Song>): seq<string>
  {
    if songs == [] then [] else [songs[0].url] + Urls(songs[1..])
  }

  lemma {:induction false} StreamedAppend(a: seq<Effect>, b: seq<Effect>)
    ensures Streamed(a + b) == Streamed(a) + Streamed(b)
  {
    if a == [] {
      assert a + b == b;
    } else {
      assert (a + b)[0] == a[0];
      assert (a + b)[1..] == a[1..] + b;
      StreamedAppend(a[1..], b);
    }
  }

  lemma StreamedOne(e: Effect)
    ensures Streamed([e]) == if e.PlayStream? then [e.url] else []
  {
    assert [e][1..] == [];
  }

  // ---------------------------------------------------------------------
  // Enqueue

  /** The guards: outside a voice channel, or without CONNECT and SPEAK,
      the play command leaves the map as it was and only replies. */
  lemma ExecuteGuards(s: Store, m: Message, perms: Permissions, song: Song, join: Option<ConnectionId>)
    requires m.voiceChannel.None? || !perms.connect || !perms.speak
    ensures Execute(s, m, perms, song, join).store == s
    ensures Execute(s, m, perms, song, join).effects
         == [Send(m.textChannel, if m.voiceChannel.None? then MustBeInVoice else NoVoicePermission)]
  {
  }

  /** Enqueue on a guild with no entry and a successful join: exactly one
      new entry, holding just the song, volume 6, playing, with the new
      connection; the song is searched, streamed and announced. */
  lemma {:induction false} ExecuteCreates(s: Store, m: Message, perms: Permissions, song: Song, c: ConnectionId)
    requires m.voiceChannel.Some? && perms.connect && perms.speak && m.guild !in s
    ensures var o := Execute(s, m, perms, song, Some(c));
      && o.store.Keys == s.Keys + {m.guild}
      && o.store[m.guild] == Queue(m.textChannel, m.voiceChannel.value, Some(c), [song], DEFAULT_VOLUME, true)
      && o.effects == [Search(Commands.Query(m.content)), JoinVoice(m.voiceChannel.value),
                       PlayStream(c, song.url), Send(m.textChannel, NowPlaying(song.title))]
  {
  }

  /** A failed join after a first enqueue removes the entry again: the map is
      as it was before the command, and the raw error is replied. */
  lemma {:induction false} ExecuteJoinFailureRestores(s: Store, m: Message, perms: Permissions, song: Song)
    requires m.voiceChannel.Some? && perms.connect && perms.speak && m.guild !in s
    ensures Execute(s, m, perms, song, None).store == s
    ensures Execute(s, m, perms, song, None).effects
         == [Search(Commands.Query(m.content)), JoinVoice(m.voiceChannel.value), Send(m.textChannel, JoinError)]
  {
  }

  /** Enqueue on a guild that has a queue appends the song at the end and
      changes nothing else of the record; playback is not touched. */
  lemma {:induction false} ExecuteAppends(s: Store, m: Message, perms: Permissions, song: Song, join: Option<ConnectionId>)
    requires m.voiceChannel.Some? && perms.connect && perms.speak && m.guild in s
    ensures var o := Execute(s, m, perms, song, join);
      && o.store == s[m.guild := s[m.guild].(songs := s[m.guild].songs + [song])]
      && o.effects == [Search(Commands.Query(m.content)), Send(m.textChannel, AddedToQueue(song.title))]
  {
  }

  /** FIFO: play commands on a guild with no entry, all passing the guards
      and the first joining successfully, leave one queue with the first
      command's channels whose songs are the resolved songs in call order;
      only the first song is streamed. */
  lemma {:induction false} EnqueueAllKeepsCallOrder(s: Store, g: GuildId, reqs: seq<PlayRequest>, c: ConnectionId)
    requires Admitted(reqs, g) && g !in s && reqs != []
    ensures var o := EnqueueAll(s, reqs, Some(c));
      && o.store == s[g := Created(reqs[0].msg, c, SongsOf(reqs))]
      && Streamed(o.effects) == [reqs[0].song.url]
    decreases |reqs|
  {
    var init := reqs[..|reqs| - 1];
    var last := reqs[|reqs| - 1];
    var before := EnqueueAll(s, init, Some(c));
    var step := Execute(before.store, last.msg, last.perms, last.song, Some(c));
    StreamedAppend(before.effects, step.effects);
    if |reqs| == 1 {
      assert before == Outcome(s, []);
      assert reqs == [last] && SongsOf(reqs) == [last.song];
      EnqueueFirst(s, last.msg, last.perms, last.song, c);
    } else {
      EnqueueAllKeepsCallOrder(s, g, init, c);
      EnqueueOneMore(s, reqs[0].msg, last.msg, last.perms, SongsOf(init), last.song, c);
    }
  }

  /** The first play command on a fresh guild creates the queue with its
      song and streams exactly that song. */
  lemma {:induction false} EnqueueFirst(s: Store, m: Message, perms: Permissions, song: Song, c: ConnectionId)
    requires m.voiceChannel.Some? && perms.connect && perms.speak && m.guild !in s
    ensures Execute(s, m, perms, song, Some(c)).store == s[m.guild := Created(m, c, [song])]
    ensures Streamed(Execute(s, m, perms, song, Some(c)).effects) == [song.url]
  {
    ExecuteCreates(s, m, perms, song, c);
    var search, joining := Search(Commands.Query(m.content)), JoinVoice(m.voiceChannel.value);
    var stream, notice := PlayStream(c, song.url), Send(m.textChannel, NowPlaying(song.title));
    assert [search, joining, stream, notice] == [search] + [joining] + [stream] + [notice];
    StreamedOne(search);
    StreamedOne(joining);
    StreamedOne(stream);
    StreamedOne(notice);
    StreamedAppend([search], [joining]);
    StreamedAppend([search] + [joining], [stream]);
    StreamedAppend([search] + [joining] + [stream], [notice]);
  }

  /** One more play command from the same guild, on the queue built so far,
      appends its song, keeps the first command's channels, and streams
      nothing. */
  lemma {:induction false} EnqueueOneMore(s: Store, first: Message, m: Message, perms: Permissions, init: seq<Song>, last: Song, c: ConnectionId)
    requires first.voiceChannel.Some? && m.guild == first.guild && first.guild !in s
    requires m.voiceChannel.Some? && perms.connect && perms.speak
    ensures var built := s[m.guild := Created(first, c, init)];
      && Execute(built, m, perms, last, Some(c)).store == s[m.guild := Created(first, c, init + [last])]
      && Streamed(Execute(built, m, perms, last, Some(c)).effects) == []
  {
    var built := s[m.guild := Created(first, c, init)];
    ExecuteAppends(built, m, perms, last, Some(c));
    var search, notice := Search(Commands.Query(m.content)), Send(m.textChannel, AddedToQueue(last.title));
    StreamedOne(search);
    StreamedOne(notice);
    StreamedAppend([search], [notice]);
  }

  // ---------------------------------------------------------------------
  // Finish, skip and stop

  /** A finish event removes exactly the head: with another song left, the
      queue keeps its other fields and the new head is streamed and
      announced; otherwise the entry is deleted and the channel left. */
  lemma {:induction false} FinishAdvances(s: Store, g: GuildId)
    requires g in s && s[g].connection.Some?
    ensures var o := Finish(s, g);
      if |s[g].songs| >= 2 then
        && o.store == s[g := s[g].(songs := s[g].songs[1..])]
        && o.effects == [PlayStream(s[g].connection.value, s[g].songs[1].url),
                         Send(s[g].textChannel, NowPlaying(s[g].songs[1].title))]
      else
        && o.store == s - {g}
        && o.effects == [LeaveVoice(s[g].voiceChannel)]
  {
  }

  /** Letting every track end in turn plays the songs behind the current
      one in queue order and then removes the guild's entry. */
  lemma {:induction false} DrainPlaysRestInOrder(s: Store, g: GuildId)
    requires Wellformed(s) && g in s
    ensures Drain(s, g).store == s - {g}
    ensures Streamed(Drain(s, g).effects) == Urls(Shift(s[g].songs))
    decreases |s[g].songs|
  {
    var step := Finish(s, g);
    FinishAdvances(s, g);
    var rest := Drain(step.store, g);
    StreamedAppend(step.effects, rest.effects);
    if |s[g].songs| >= 2 {
      DrainPlaysRestInOrder(step.store, g);
      assert step.store - {g} == s - {g};
      assert Streamed(step.effects) == [s[g].songs[1].url];
      assert Urls(s[g].songs[1..]) == [s[g].songs[1].url] + Urls(s[g].songs[2..]);
    } else {
      assert Drain(step.store, g) == Outcome(step.store, []);
      assert Shift(s[g].songs) == [];
    }
  }

  /** End to end: play commands on a fresh guild, all admitted, stream
      their songs exactly once each, in call order, as the tracks end, after
      which the guild's entry is gone and the map is as before. */
  lemma {:induction false} EnqueuedSongsPlayInCallOrder(s: Store, g: GuildId, reqs: seq<PlayRequest>, c: ConnectionId)
    requires Wellformed(s)
    requires Admitted(reqs, g) && g !in s && reqs != []
    ensures var enq := EnqueueAll(s, reqs, Some(c));
      && Wellformed(enq.store)
      && Drain(enq.store, g).store == s
      && Streamed(enq.effects + Drain(enq.store, g).effects) == Urls(SongsOf(reqs))
  {
    var enq := EnqueueAll(s, reqs, Some(c));
    EnqueueAllKeepsCallOrder(s, g, reqs, c);
    DrainFreshQueue(s, g, Created(reqs[0].msg, c, SongsOf(reqs)));
    StreamedAppend(enq.effects, Drain(enq.store, g).effects);
  }

  /** Draining a queue that was added to a store gives back the store and
      streams every song behind the first. */
  lemma {:induction false} DrainFreshQueue(s: Store, g: GuildId, q: Queue)
    requires Wellformed(s) && g !in s
    requires q.connection.Some? && q.volume == DEFAULT_VOLUME && q.playing && q.songs != []
    ensures Wellformed(s[g := q])
    ensures Drain(s[g := q], g).store == s
    ensures Urls(q.songs) == [q.songs[0].url] + Streamed(Drain(s[g := q], g).effects)
  {
    WellformedInsert(s, g, q);
    DrainPlaysRestInOrder(s[g := q], g);
    assert s[g := q] - {g} == s;
  }

  /** Adding a queue created the way the play command creates one keeps the
      store invariant. */
  lemma WellformedInsert(s: Store, g: GuildId, q: Queue)
    requires Wellformed(s)
    requires q.connection.Some? && q.volume == DEFAULT_VOLUME && q.playing
    ensures Wellformed(s[g := q])
  {
  }

  /** Outside a voice channel, skip and stop leave the map as it was and
      only reply. */
  lemma SkipAndStopGuards(s: Store, m: Message)
    requires m.voiceChannel.None?
    ensures Skip(s, m) == [Send(m.textChannel, MustBeInVoiceToSkip)]
    ensures Stop(s, m) == Outcome(s, [Send(m.textChannel, MustBeInVoiceToStop)])
  {
  }

  /** On a well-formed map, skip disconnects exactly when its issuer is in
      a voice channel and the guild has a queue; otherwise it replies, to
      the message's channel, why it cannot skip. It
      never removes a song itself: the disconnect's finish event does. */
  lemma SkipDisconnectsActiveQueue(s: Store, m: Message)
    requires Wellformed(s)
    ensures |Skip(s, m)| == 1
    ensures Skip(s, m)[0].Disconnect? <==> m.voiceChannel.Some? && m.guild in s
    ensures Skip(s, m)[0].Disconnect? ==> Skip(s, m)[0].connection == s[m.guild].connection.value
    ensures !Skip(s, m)[0].Disconnect? ==>
      Skip(s, m)[0] == Send(m.textChannel, if m.voiceChannel.None? then MustBeInVoiceToSkip else NoSongsToSkip)
  {
  }

  /** Skip followed by the finish event its disconnect causes advances the
      queue by exactly one song, as a natural end of track does. */
  lemma {:induction false} SkipThenFinishAdvancesOne(s: Store, m: Message)
    requires Wellformed(s) && m.voiceChannel.Some? && m.guild in s && |s[m.guild].songs| >= 2
    ensures Skip(s, m) == [Disconnect(s[m.guild].connection.value)]
    ensures Finish(s, m.guild).store[m.guild].songs == s[m.guild].songs[1..]
  {
  }

  /** Stop empties the guild's songs but keeps its entry and every other
      field; the entry goes only with the following finish event, which
      plays nothing more. */
  lemma {:induction false} StopClearsThenFinishRemoves(s: Store, m: Message)
    requires Wellformed(s) && m.voiceChannel.Some? && m.guild in s
    ensures var stopped := Stop(s, m);
      && stopped.store == s[m.guild := s[m.guild].(songs := [])]
      && stopped.effects == [Disconnect(s[m.guild].connection.value)]
      && Finish(stopped.store, m.guild).store == s - {m.guild}
      && Streamed(Drain(stopped.store, m.guild).effects) == []
  {
  }

  // ---------------------------------------------------------------------
  // Dispatch

  /** Bot authors and unprefixed texts have no effect at all. */
  lemma DispatchIgnores(s: Store, prefix: string, m: Message, perms: Permissions, song: Song, join: Option<ConnectionId>)
    requires m.fromBot || !(prefix <= m.content)
    ensures Dispatch(s, prefix, m, perms, song, join) == Outcome(s, [])
  {
  }

  /** A prefixed text from a user that starts with `play` runs the play
      command, whatever follows. */
  lemma DispatchPlayFirst(s: Store, prefix: string, m: Message, perms: Permissions, song: Song, join: Option<ConnectionId>)
    requires !m.fromBot && prefix + "play" <= m.content
    ensures Dispatch(s, prefix, m, perms, song, join) == Execute(s, m, perms, song, join)
  {
  }

  /** A user's text starting with prefix+`skip` but not prefix+`play` runs
      skip on the current map, which it leaves as it was. */
  lemma DispatchSkip(s: Store, prefix: string, m: Message, perms: Permissions, song: Song, join: Option<ConnectionId>)
    requires !m.fromBot && prefix + "skip" <= m.content && !(prefix + "play" <= m.content)
    ensures Dispatch(s, prefix, m, perms, song, join) == Outcome(s, Skip(s, m))
  {
  }

  /** A user's text starting with prefix+`stop`, and with neither earlier
      command word, runs stop. */
  lemma DispatchStop(s: Store, prefix: string, m: Message, perms: Permissions, song: Song, join: Option<ConnectionId>)
    requires !m.fromBot && prefix + "stop" <= m.content
    requires !(prefix + "play" <= m.content) && !(prefix + "skip" <= m.content)
    requires m.voiceChannel.Some? ==> m.guild in s
    ensures Dispatch(s, prefix, m, perms, song, join) == Stop(s, m)
  {
  }

  /** A prefixed text from a user that names none of the three commands
      changes nothing and only replies that the command is invalid. */
  lemma DispatchUnknownReplies(s: Store, prefix: string, m: Message, perms: Permissions, song: Song, join: Option<ConnectionId>)
    requires !m.fromBot && prefix <= m.content
    requires !(prefix + "play" <= m.content) && !(prefix + "skip" <= m.content) && !(prefix + "stop" <= m.content)
    ensures Dispatch(s, prefix, m, perms, song, join) == Outcome(s, [Send(m.textChannel, InvalidCommand)])
  {
  }
}
