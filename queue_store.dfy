/** The bot's queue store as an object: the module-level `queue` map of
    src/index.ts becomes the field `queues`, and the command handlers and
    the `finish` callback become methods that change it step by step as the
    source does. Each method is proved to do what the corresponding
    transition of module Playback says, so every lemma proved there holds
    of these methods. */
module Bot {
  import Commands
  import opened Playback

  class QueueStore {
    /** Guild id to that guild's queue record. */
    var queues: Store

    ghost predicate Valid()
      reads this
    {
      Wellformed(queues)
    }

    /** The store starts empty when the process starts. */
    constructor ()
      ensures Valid() && queues == map[]
    {
      queues := map[];
    }

    /** `play(guild, song)`: with no song, leave the voice channel and drop
        the guild's entry; otherwise stream it and announce it. */
    method Play(g: GuildId, song: Option<Song>) returns (effects: seq<Effect>)
      requires Valid() && g in queues
      modifies this
      ensures Valid()
      ensures Outcome(queues, effects) == Playback.Play(old(queues), g, song)
    {
      var serverQueue := queues[g];
      if song.None? {
        effects := [LeaveVoice(serverQueue.voiceChannel)];
        queues := queues - {g};
        return;
      }
      effects := [PlayStream(serverQueue.connection.value, song.value.url)];
      effects := effects + [Send(serverQueue.textChannel, NowPlaying(song.value.title))];
    }

    /** The `finish` callback: shift the finished song off and play the
        new head (none when the queue has run out). */
    method OnFinish(g: GuildId) returns (effects: seq<Effect>)
      requires Valid() && g in queues
      modifies this
      ensures Valid()
      ensures Outcome(queues, effects) == Playback.Finish(old(queues), g)
    {
      var serverQueue := queues[g];
      serverQueue := serverQueue.(songs := Shift(serverQueue.songs));
      queues := queues[g := serverQueue];
      effects := Play(g, Head(serverQueue.songs));
    }

    /** `execute`, the play command. The search and metadata lookups have
        already produced `song`; `join` is the outcome of joining the voice
        channel (None when it threw). */
    method Execute(m: Message, perms: Permissions, song: Song, join: Option<ConnectionId>) returns (effects: seq<Effect>)
      requires Valid()
      modifies this
      ensures Valid()
      ensures Outcome(queues, effects) == Playback.Execute(old(queues), m, perms, song, join)
    {
      if m.voiceChannel.None? {
        effects := [Send(m.textChannel, MustBeInVoice)];
        return;
      }
      if !perms.connect || !perms.speak {
        effects := [Send(m.textChannel, NoVoicePermission)];
        return;
      }
      var voiceChannel := m.voiceChannel.value;
      effects := [Search(Commands.Query(m.content))];
      var g := m.guild;
      if g !in queues {
        var queueConstruct := Queue(m.textChannel, voiceChannel, None, [], DEFAULT_VOLUME, true);
        queues := queues[g := queueConstruct];
        queues := queues[g := queues[g].(songs := queues[g].songs + [song])];
        assert queues[g].songs == [song];
        effects := effects + [JoinVoice(voiceChannel)];
        if join.Some? {
          queues := queues[g := queues[g].(connection := join)];
          assert queues == old(queues)[g := queueConstruct.(songs := [song], connection := join)];
          var played := Play(g, Some(queues[g].songs[0]));
          effects := effects + played;
        } else {
          queues := queues - {g};
          assert queues == old(queues)[g := queueConstruct.(songs := [song])] - {g};
          effects := effects + [Send(m.textChannel, JoinError)];
        }
      } else {
        queues := queues[g := queues[g].(songs := queues[g].songs + [song])];
        effects := effects + [Send(m.textChannel, AddedToQueue(song.title))];
      }
    }

    /** `skip`: reads the store and changes nothing in it; its only action
        on a queue is to disconnect. */
    method Skip(m: Message) returns (effects: seq<Effect>)
      ensures effects == Playback.Skip(queues, m)
    {
      if m.voiceChannel.None? {
        return [Send(m.textChannel, MustBeInVoiceToSkip)];
      }
      if m.guild !in queues {
        return [Send(m.textChannel, NoSongsToSkip)];
      }
      var serverQueue := queues[m.guild];
      effects := [];
      if serverQueue.connection.Some? {
        effects := [Disconnect(serverQueue.connection.value)];
      }
    }

    /** `stop`: empty the guild's songs in place, then disconnect. */
    method Stop(m: Message) returns (effects: seq<Effect>)
      requires Valid()
      requires m.voiceChannel.Some? ==> m.guild in queues
      modifies this
      ensures Valid()
      ensures Outcome(queues, effects) == Playback.Stop(old(queues), m)
    {
      if m.voiceChannel.None? {
        effects := [Send(m.textChannel, MustBeInVoiceToStop)];
        return;
      }
      var serverQueue := queues[m.guild];
      // `splice(0, length)` empties the array in place
      queues := queues[m.guild := serverQueue.(songs := [])];
      effects := [];
      if serverQueue.connection.Some? {
        effects := [Disconnect(serverQueue.connection.value)];
      }
    }

    /** The `message` handler: ignore bots and unprefixed texts, then try
        play, skip and stop in that order. */
    method OnMessage(prefix: string, m: Message, perms: Permissions, song: Song, join: Option<ConnectionId>)
      returns (effects: seq<Effect>)
      requires Valid()
      requires Commands.Classify(prefix, m.fromBot, m.content) == Commands.Stop && m.voiceChannel.Some? ==> m.guild in queues
      modifies this
      ensures Valid()
      ensures Outcome(queues, effects) == Playback.Dispatch(old(queues), prefix, m, perms, song, join)
    {
      if m.fromBot {
        return [];
      }
      if !(prefix <= m.content) {
        return [];
      }
      if prefix + "play" <= m.content {
        effects := Execute(m, perms, song, join);
      } else if prefix + "skip" <= m.content {
        effects := Skip(m);
      } else if prefix + "stop" <= m.content {
        effects := Stop(m);
      } else {
        effects := [Send(m.textChannel, InvalidCommand)];
      }
    }
  }
}
