/**
 Per-guild playback state of the music bot and the pure transitions the
 commands apply to it. A guild's record holds the list of pending tracks and
 the `playing` flag; the registry maps guild ids to these records.
 */
module Sessions {

  datatype Option<T> = None | Some(value: T)

  /** A Discord guild id (a snowflake integer). */
  type GuildId = int

  /** A resolved audio source; only its title matters to the queue bookkeeping. */
  datatype Track = Track(title: string)

  /** A guild's record: pending tracks in play order and whether playback is under way. */
  datatype Session = Session(queue: seq<Track>, playing: bool)

  /** The record created for a guild seen for the first time. */
  const NewSession: Session := Session([], false)

  /** The invariant every command keeps: a guild that is not playing has nothing pending. */
  predicate Settled(s: Session)
  {
    !s.playing ==> s.queue == []
  }

  /** The lazily created registry entry: a fresh record for an unknown guild, nothing else touched. */
  function Registered(m: map<GuildId, Session>, g: GuildId): (r: map<GuildId, Session>)
    ensures r.Keys == m.Keys + {g}
    ensures r[g] == if g in m then m[g] else NewSession
    ensures forall h :: h in m ==> r[h] == m[h]
  {
    if g in m then m else m[g := NewSession]
  }

  /** Creating the entry is idempotent: a second call finds the guild and changes nothing. */
  lemma RegisteredIdempotent(m: map<GuildId, Session>, g: GuildId)
    ensures Registered(Registered(m, g), g) == Registered(m, g)
  {
  }

  /** Appending a track at the tail of a guild's pending list. */
  function Enqueue(s: Session, t: Track): (r: Session)
    ensures |r.queue| == |s.queue| + 1
    ensures r.queue[..|s.queue|] == s.queue && r.queue[|s.queue|] == t
    ensures r.playing == s.playing
  {
    s.(queue := s.queue + [t])
  }

  /** The result of a play-next step: the new record and the track handed to the voice client, if any. */
  datatype Step = Step(next: Session, started: Option<Track>)

  /**
   The play-next step: with nothing pending the guild goes idle; otherwise the
   head of the list is taken off and started, and the guild is playing.
   */
  function Advance(s: Session): (r: Step)
    ensures r.next.playing <==> s.queue != []
    ensures r.started.None? <==> s.queue == []
    ensures r.started.None? ==> r.next.queue == []
    ensures r.started.Some? ==> s.queue == [r.started.value] + r.next.queue
    ensures Settled(r.next)
  {
    if s.queue == [] then Step(s.(playing := false), None)
    else Step(Session(s.queue[1..], true), Some(s.queue[0]))
  }

  /**
   The queue part of the `play` command once the track is resolved: append the
   track, then run the play-next step exactly when the guild was not playing.
   */
  function PlayStep(s: Session, t: Track): (r: Step)
    ensures r.started.Some? <==> !s.playing
    ensures s.playing ==> r.next == Enqueue(s, t)
    ensures Settled(s) && !s.playing ==> r == Step(Session([], true), Some(t))
    ensures Settled(s) ==> Settled(r.next)
  {
    var queued := Enqueue(s, t);
    if queued.playing then Step(queued, None) else Advance(queued)
  }

  /** A play-next step on a cleared record starts nothing and keeps it cleared. */
  lemma CompletionAfterStop()
    ensures Advance(NewSession) == Step(NewSession, None)
  {
  }

  /** Appending several tracks one after another. */
  function EnqueueAll(s: Session, ts: seq<Track>): (r: Session)
    decreases |ts|
  {
    if ts == [] then s else EnqueueAll(Enqueue(s, ts[0]), ts[1..])
  }

  /** Appending several tracks keeps the tracks already pending first, then the new ones in order. */
  lemma {:induction false} EnqueueAllAppends(s: Session, ts: seq<Track>)
    ensures EnqueueAll(s, ts).queue == s.queue + ts
    ensures EnqueueAll(s, ts).playing == s.playing
    decreases |ts|
  {
    if ts != [] {
      EnqueueAllAppends(Enqueue(s, ts[0]), ts[1..]);
      assert s.queue + [ts[0]] + ts[1..] == s.queue + ts;
    }
  }

  /** `k` play-next steps in a row (each one the completion of the track before): final record and tracks started. */
  function AdvanceTimes(s: Session, k: nat): (r: (Session, seq<Track>))
    decreases k
  {
    if k == 0 then (s, [])
    else
      var step := Advance(s);
      var rest := AdvanceTimes(step.next, k - 1);
      (rest.0, (if step.started.Some? then [step.started.value] else []) + rest.1)
  }

  /** FIFO: `k` play-next steps start the first `k` pending tracks in order and leave exactly the rest. */
  lemma {:induction false} AdvanceTimesIsFifo(s: Session, k: nat)
    requires k <= |s.queue|
    ensures AdvanceTimes(s, k).1 == s.queue[..k]
    ensures AdvanceTimes(s, k).0.queue == s.queue[k..]
    ensures k > 0 ==> AdvanceTimes(s, k).0.playing
    decreases k
  {
    if k > 0 {
      var step := Advance(s);
      AdvanceTimesIsFifo(step.next, k - 1);
      assert step.next.queue == s.queue[1..];
      assert [s.queue[0]] + s.queue[1..][..k - 1] == s.queue[..k];
      assert s.queue[1..][k - 1..] == s.queue[k..];
    }
  }

  /** Once the pending list is used up, further play-next steps start nothing and leave the guild idle. */
  lemma {:induction false} AdvanceTimesExhausts(s: Session, k: nat)
    requires k > |s.queue|
    ensures AdvanceTimes(s, k).1 == s.queue
    ensures AdvanceTimes(s, k).0 == NewSession
    decreases k
  {
    if s.queue == [] {
      var step := Advance(s);
      assert step.next == NewSession;
      if k > 1 {
        AdvanceTimesExhausts(step.next, k - 1);
      }
    } else {
      var step := Advance(s);
      AdvanceTimesExhausts(step.next, k - 1);
      assert [s.queue[0]] + s.queue[1..] == s.queue;
    }
  }

  /** The FIFO law: tracks appended one by one are started, by successive play-next steps, in exactly that order. */
  lemma {:induction false} FifoLaw(s: Session, ts: seq<Track>)
    ensures AdvanceTimes(EnqueueAll(s, ts), |s.queue| + |ts|).1 == s.queue + ts
  {
    var all := EnqueueAll(s, ts);
    EnqueueAllAppends(s, ts);
    AdvanceTimesIsFifo(all, |all.queue|);
    assert all.queue[..|all.queue|] == all.queue;
  }

  /** A guild's queue-relevant event: a `play` request for a resolved track, or the finished callback. */
  datatype Cmd = Request(t: Track) | Finished

  /** The tracks a started-slot contributes to the play order. */
  function StartedTracks(o: Option<Track>): (ts: seq<Track>)
  {
    if o.Some? then [o.value] else []
  }

  /** One event applied to a guild's record. */
  function Apply(s: Session, c: Cmd): (r: Step)
  {
    match c
    case Request(t) => PlayStep(s, t)
    case Finished => Advance(s)
  }

  /** The tracks requested by a sequence of events, in request order. */
  function Requested(cs: seq<Cmd>): (ts: seq<Track>)
  {
    if cs == [] then []
    else (if cs[0].Request? then [cs[0].t] else []) + Requested(cs[1..])
  }

  /** A sequence of events applied in turn: the final record and the tracks started, in order. */
  function Run(s: Session, cs: seq<Cmd>): (r: (Session, seq<Track>))
    decreases |cs|
  {
    if cs == [] then (s, [])
    else
      var step := Apply(s, cs[0]);
      var rest := Run(step.next, cs[1..]);
      (rest.0, StartedTracks(step.started) + rest.1)
  }

  /** One event keeps the order: what it starts followed by what stays pending is the old list plus what it requested. */
  lemma ApplyKeepsOrder(s: Session, c: Cmd)
    ensures StartedTracks(Apply(s, c).started) + Apply(s, c).next.queue == s.queue + Requested([c])
  {
  }

  /** The requests of a non-empty event sequence: those of its first event, then those of the rest. */
  lemma RequestedCons(cs: seq<Cmd>)
    requires cs != []
    ensures Requested(cs) == Requested([cs[0]]) + Requested(cs[1..])
  {
  }

  /** Regrouping two order-keeping facts about consecutive stretches into one. */
  lemma Regroup(started: seq<Track>, later: seq<Track>, left: seq<Track>, mid: seq<Track>,
                before: seq<Track>, first: seq<Track>, rest: seq<Track>)
    requires later + left == mid + rest
    requires started + mid == before + first
    ensures started + later + left == before + first + rest
  {
    calc {
      started + later + left;
      started + (later + left);
      started + (mid + rest);
      (started + mid) + rest;
    }
  }

  /**
   The FIFO law over any mix of requests and completions: the tracks started so
   far, followed by the tracks still pending, are exactly the tracks pending at
   the start followed by the tracks requested, in request order. Nothing is
   lost, duplicated or reordered.
   */
  lemma {:induction false} FifoTrace(s: Session, cs: seq<Cmd>)
    ensures Run(s, cs).1 + Run(s, cs).0.queue == s.queue + Requested(cs)
    decreases |cs|
  {
    if cs != [] {
      var step := Apply(s, cs[0]);
      var rest := Run(step.next, cs[1..]);
      FifoTrace(step.next, cs[1..]);
      ApplyKeepsOrder(s, cs[0]);
      RequestedCons(cs);
      Regroup(StartedTracks(step.started), rest.1, rest.0.queue, step.next.queue,
              s.queue, Requested([cs[0]]), Requested(cs[1..]));
    }
  }
}
