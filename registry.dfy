/**
 The bot's global `music_queues` registry, updated in place by the commands.
 Whether the guild's voice client is connected is Discord state read by each
 command; it is passed in as `voiceConnected`.
 */
module Registry {
  import opened Sessions
  import opened Listing

  class MusicQueues {
    /** guild id -> that guild's pending tracks and `playing` flag */
    var sessions: map<GuildId, Session>

    /** Every registered guild that is not playing has nothing pending. */
    ghost predicate Valid()
      reads this
    {
      forall g :: g in sessions ==> Settled(sessions[g])
    }

    /** Every registered guild other than `g` satisfies the invariant; `g` may be mid-command. */
    ghost predicate ValidExcept(g: GuildId)
      reads this
    {
      forall h :: h in sessions && h != g ==> Settled(sessions[h])
    }

    /** The registry starts empty. */
    constructor ()
      ensures Valid() && sessions == map[]
    {
      sessions := map[];
    }

    /** `ensure_queue`: create the guild's record if it has none; any existing record is kept. */
    method EnsureQueue(g: GuildId)
      requires Valid()
      modifies this
      ensures Valid()
      ensures sessions == Registered(old(sessions), g)
    {
      if g !in sessions {
        sessions := sessions[g := Session([], false)];
      }
    }

    /**
     `leave`: with a voice client, drop the guild's record (if any) and no
     other; without one, change nothing.
     */
    method Leave(g: GuildId, voiceConnected: bool)
      requires Valid()
      modifies this
      ensures Valid()
      ensures voiceConnected ==> g !in sessions && sessions == old(sessions) - {g}
      ensures !voiceConnected ==> sessions == old(sessions)
    {
      if voiceConnected {
        sessions := sessions - {g};
      }
    }

    /**
     `play_next`: with nothing pending, clear the flag; otherwise set it, take
     the head off the list and return it as the track handed to the voice
     client. The voice client must be connected when there is a track to start.
     It also runs inside `play`, after an append and before the invariant
     holds again for `g`; it re-establishes it.
     */
    method PlayNext(g: GuildId, voiceConnected: bool) returns (started: Option<Track>)
      requires ValidExcept(g)
      requires g in sessions
      requires sessions[g].queue != [] ==> voiceConnected
      modifies this
      ensures Valid()
      ensures started == Advance(old(sessions[g])).started
      ensures sessions == old(sessions)[g := Advance(old(sessions[g])).next]
      ensures started.None? ==> old(sessions[g].queue) == [] && sessions[g] == NewSession
      ensures started.Some? ==> old(sessions[g].queue) == [started.value] + sessions[g].queue
      ensures started.Some? ==> sessions[g].playing
    {
      var queue := sessions[g].queue;
      if queue == [] {
        sessions := sessions[g := sessions[g].(playing := false)];
        return None;
      }
      sessions := sessions[g := sessions[g].(playing := true)];
      started := Some(queue[0]);
      sessions := sessions[g := sessions[g].(queue := queue[1..])];
    }

    /**
     The voice client's "finished" callback for guild `g`: it runs `play_next`
     again. It carries no check that the finished track is still current.
     */
    method Complete(g: GuildId, voiceConnected: bool) returns (started: Option<Track>)
      requires Valid()
      requires g in sessions
      requires sessions[g].queue != [] ==> voiceConnected
      modifies this
      ensures Valid()
      ensures started == Advance(old(sessions[g])).started
      ensures sessions == old(sessions)[g := Advance(old(sessions[g])).next]
    {
      started := PlayNext(g, voiceConnected);
    }

    /**
     `play` once the query is resolved to track `t`: make sure the guild has a
     record, append `t`, and run `play_next` exactly when the guild was not
     playing. On an idle guild `t` is started at once.
     */
    method Play(g: GuildId, t: Track, voiceConnected: bool) returns (started: Option<Track>)
      requires Valid()
      requires (g !in sessions || !sessions[g].playing) ==> voiceConnected
      modifies this
      ensures Valid()
      ensures var before := Registered(old(sessions), g)[g];
        sessions == old(sessions)[g := PlayStep(before, t).next] &&
        started == PlayStep(before, t).started
      ensures started.Some? <==> (g !in old(sessions) || !old(sessions[g].playing))
      ensures started.Some? ==> started == Some(t) && sessions[g] == Session([], true)
      ensures started.None? ==> sessions[g] == Enqueue(old(sessions[g]), t)
    {
      EnsureQueue(g);
      sessions := sessions[g := sessions[g].(queue := sessions[g].queue + [t])];
      if !sessions[g].playing {
        started := PlayNext(g, voiceConnected);
      } else {
        started := None;
      }
    }

    /**
     `stop`: with a voice client, empty the guild's list and clear its flag;
     the guild must already have a record. Without a voice client nothing changes.
     */
    method Stop(g: GuildId, voiceConnected: bool)
      requires Valid()
      requires voiceConnected ==> g in sessions
      modifies this
      ensures Valid()
      ensures voiceConnected ==> sessions == old(sessions)[g := NewSession]
      ensures !voiceConnected ==> sessions == old(sessions)
    {
      if voiceConnected {
        sessions := sessions[g := sessions[g].(queue := [])];
        sessions := sessions[g := sessions[g].(playing := false)];
      }
    }

    /**
     `queue`: make sure the guild has a record and return the listing of its
     pending tracks; the pending list itself is left as it was.
     */
    method Queue(g: GuildId) returns (msg: string)
      requires Valid()
      modifies this
      ensures Valid()
      ensures sessions == Registered(old(sessions), g)
      ensures sessions[g].queue == (if g in old(sessions) then old(sessions[g].queue) else [])
      ensures msg == QueueMessage(sessions[g].queue)
    {
      EnsureQueue(g);
      msg := QueueMessage(sessions[g].queue);
    }
  }

  /**
   `stop` followed by the finished callback of the track it cut short, with no
   `play` in between: the callback starts nothing, and the guild ends as `stop`
   left it.
   */
  method StopThenComplete(reg: MusicQueues, g: GuildId, voiceConnected: bool) returns (started: Option<Track>)
    requires reg.Valid()
    requires g in reg.sessions
    modifies reg
    ensures reg.Valid()
    ensures started == None
    ensures reg.sessions == old(reg.sessions)[g := NewSession]
  {
    reg.Stop(g, true);
    started := reg.Complete(g, voiceConnected);
  }

  /**
   The callback carries no identity of its track. After `stop`, a `play` of `b`
   starts `b`; the late callback of the stopped track then clears the flag
   although `b` is still on the voice client, so a following `play` of `c`
   hands `c` over at once instead of queueing it behind `b`.
   */
  method StaleCompletionAfterReplay(reg: MusicQueues, g: GuildId, b: Track, c: Track)
    returns (first: Option<Track>, stale: Option<Track>, second: Option<Track>)
    requires reg.Valid()
    requires g in reg.sessions
    modifies reg
    ensures reg.Valid()
    ensures first == Some(b)
    ensures stale == None
    ensures second == Some(c)
    ensures reg.sessions == old(reg.sessions)[g := Session([], true)]
  {
    reg.Stop(g, true);
    first := reg.Play(g, b, true);
    stale := reg.Complete(g, true);
    assert !reg.sessions[g].playing;
    second := reg.Play(g, c, true);
  }

  /**
   Three tracks requested on an idle guild, then three completions: the
   tracks start in request order and the guild ends idle with nothing pending.
   */
  method PlaybackScenario(g: GuildId, a: Track, b: Track, c: Track)
  {
    var reg := new MusicQueues();
    var s := reg.Play(g, a, true);
    assert s == Some(a);
    s := reg.Play(g, b, true);
    assert s == None;
    s := reg.Play(g, c, true);
    assert s == None && reg.sessions[g] == Session([b, c], true);
    s := reg.Complete(g, true);
    assert s == Some(b) && reg.sessions[g] == Session([c], true);
    s := reg.Complete(g, true);
    assert s == Some(c) && reg.sessions[g] == Session([], true);
    s := reg.Complete(g, true);
    assert s == None && reg.sessions[g] == NewSession;
    var listing := reg.Queue(g);
    assert listing == EmptyNotice;
  }
}
