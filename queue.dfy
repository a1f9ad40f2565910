/**
 * The music queue (discord-bot.py, class `MusicQueue`): a FIFO of pending
 * tracks, the slot of the track being played and the repeat flag.
 *
 * `QState` is the queue as a value, with the pure counterparts of
 * `get_next_track` and `skip_track`; `MusicQueue` is the mutable object, whose
 * methods are proved against them.
 */
module Queue {
  import opened Wrappers
  import opened Tracks

  datatype QState = QState(pending: seq<Track>, current: Option<Track>, repeat: bool)

  /** What one call of `get_next_track` or `skip_track` returns, and the queue after it. */
  datatype Step = Step(next: Option<Track>, after: QState)

  /** `is_empty`: no pending track and no current track. */
  predicate IsIdle(q: QState)
  {
    q.pending == [] && q.current.None?
  }

  /** Whether `get_next_track` replays the current track instead of popping. */
  predicate Replays(q: QState)
  {
    q.repeat && q.current.Some?
  }

  /**
   * `get_next_track`. With repeat on and a current track it returns that
   * track and touches nothing; otherwise it pops the head into the current
   * slot, or returns nothing and changes nothing when no track is pending.
   */
  function Advance(q: QState): (r: Step)
    ensures Replays(q) ==> r.next == q.current && r.after == q
    ensures !Replays(q) ==> (r.next.Some? <==> q.pending != [])
    ensures r.next.None? ==> r.after == q
    ensures r.next.Some? ==> r.after.current == r.next && r.after.repeat == q.repeat
    ensures !Replays(q) && q.pending != [] ==>
      r.next == Some(q.pending[0]) && r.after == q.(pending := q.pending[1..], current := Some(q.pending[0]))
  {
    if Replays(q) then Step(q.current, q)
    else PopHead(q)
  }

  /**
   * `skip_track`: like `get_next_track` but ignoring the repeat flag.
   */
  function Skip(q: QState): (r: Step)
    ensures r.next.Some? <==> q.pending != []
    ensures r.next.None? ==> r.after == q
    ensures q.pending != [] ==>
      r.next == Some(q.pending[0]) && r.after.current == r.next &&
      r.after.pending == q.pending[1..] && r.after.repeat == q.repeat
  {
    PopHead(q)
  }

  /** The shared branch of both: pop the head into the current slot. */
  function PopHead(q: QState): Step
  {
    if q.pending != [] then Step(Some(q.pending[0]), q.(pending := q.pending[1..], current := Some(q.pending[0])))
    else Step(None, q)
  }

  /** The tracks returned by `n` successive calls of `get_next_track`, and the final queue. */
  function AdvanceMany(q: QState, n: nat): (Step, seq<Option<Track>>)
    decreases n
  {
    if n == 0 then (Step(None, q), [])
    else
      var s := Advance(q);
      var (last, rest) := AdvanceMany(s.after, n - 1);
      (last, [s.next] + rest)
  }

  /** Lifts a sequence of tracks into the results `get_next_track` would give for them. */
  function Somes(ts: seq<Track>): (r: seq<Option<Track>>)
    ensures |r| == |ts| && forall i :: 0 <= i < |ts| ==> r[i] == Some(ts[i])
  {
    if ts == [] then [] else [Some(ts[0])] + Somes(ts[1..])
  }

  /**
   * FIFO order: with repeat off, `n` successive calls of `get_next_track`
   * return the first `n` pending tracks in insertion order and leave the rest
   * pending, the last one returned being the current track.
   */
  lemma {:induction false} AdvanceIsFifo(q: QState, n: nat)
    requires !q.repeat && n <= |q.pending|
    ensures AdvanceMany(q, n).1 == Somes(q.pending[..n])
    ensures AdvanceMany(q, n).0.after.pending == q.pending[n..]
    ensures n > 0 ==> AdvanceMany(q, n).0.after.current == Some(q.pending[n - 1])
    decreases n
  {
    if n > 0 {
      var s := Advance(q);
      assert s.after.pending == q.pending[1..] && !s.after.repeat;
      AdvanceIsFifo(s.after, n - 1);
      assert q.pending[..n] == [q.pending[0]] + q.pending[1..][..n - 1];
      assert q.pending[1..][n - 1..] == q.pending[n..];
      if n > 1 {
        assert q.pending[1..][n - 2] == q.pending[n - 1];
      }
    }
  }

  /**
   * Enqueueing tracks on an idle queue and then advancing once per track
   * yields exactly those tracks, in the order they were added.
   */
  lemma EnqueueThenAdvance(q: QState, ts: seq<Track>)
    requires IsIdle(q) && !q.repeat
    ensures AdvanceMany(q.(pending := q.pending + ts), |ts|).1 == Somes(ts)
    ensures AdvanceMany(q.(pending := q.pending + ts), |ts|).0.after.pending == []
  {
    var q' := q.(pending := q.pending + ts);
    assert q'.pending == ts;
    AdvanceIsFifo(q', |ts|);
    assert ts[..|ts|] == ts;
  }

  /**
   * Repeat: with repeat on and a current track, any number of calls of
   * `get_next_track` all return that track and never touch the queue.
   */
  lemma {:induction false} RepeatReplaysForever(q: QState, n: nat)
    requires Replays(q)
    ensures AdvanceMany(q, n).1 == seq(n, _ => q.current)
    ensures n > 0 ==> AdvanceMany(q, n).0.after == q
    decreases n
  {
    if n > 0 {
      RepeatReplaysForever(q, n - 1);
      assert [q.current] + seq(n - 1, _ => q.current) == seq(n, _ => q.current);
    }
  }

  /**
   * The queue object. The source's `deque` is the sequence `pending`,
   * mutated in place by `append`, `extend`, `popleft` and `clear`.
   */
  class MusicQueue {
    var pending: seq<Track>
    var current: Option<Track>
    var repeatMode: bool
    var shuffleMode: bool   // reserved: nothing in the source reads it

    ghost function Value(): QState
      reads this
    {
      QState(pending, current, repeatMode)
    }

    constructor ()
      ensures IsIdle(Value()) && !repeatMode && !shuffleMode
    {
      pending := [];
      current := None;
      repeatMode := false;
      shuffleMode := false;
    }

    /** `add_track`: exactly one more track, at the tail. */
    method AddTrack(t: Track)
      modifies this
      ensures pending == old(pending) + [t]
      ensures current == old(current) && repeatMode == old(repeatMode) && shuffleMode == old(shuffleMode)
    {
      pending := pending + [t];
    }

    /** `add_playlist`: the tracks appended at the tail in their given order. */
    method AddPlaylist(ts: seq<Track>)
      modifies this
      ensures pending == old(pending) + ts
      ensures current == old(current) && repeatMode == old(repeatMode) && shuffleMode == old(shuffleMode)
    {
      pending := pending + ts;
    }

    /** `get_next_track`. */
    method GetNextTrack() returns (r: Option<Track>)
      modifies this
      ensures Step(r, Value()) == Advance(old(Value()))
      ensures shuffleMode == old(shuffleMode)
    {
      if repeatMode && current.Some? {
        return current;
      }
      if pending != [] {
        current := Some(pending[0]);
        pending := pending[1..];
        return current;
      }
      return None;
    }

    /** `skip_track`. */
    method SkipTrack() returns (r: Option<Track>)
      modifies this
      ensures Step(r, Value()) == Skip(old(Value()))
      ensures shuffleMode == old(shuffleMode)
    {
      if pending != [] {
        current := Some(pending[0]);
        pending := pending[1..];
        return current;
      }
      return None;
    }

    /** `clear`: both the pending tracks and the current slot reset together. */
    method Clear()
      modifies this
      ensures IsIdle(Value())
      ensures repeatMode == old(repeatMode) && shuffleMode == old(shuffleMode)
    {
      pending := [];
      current := None;
    }

    /** `get_queue_info`: a snapshot of the pending tracks, without the current one. */
    method GetQueueInfo() returns (r: seq<Track>)
      ensures r == pending
    {
      r := pending;
    }

    /** `is_empty`. */
    method IsEmpty() returns (b: bool)
      ensures b <==> pending == [] && current.None?
    {
      b := |pending| == 0 && current == None;
    }
  }
}
