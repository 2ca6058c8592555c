/**
 * The plugin's behaviour on plain values: the queue of media still to be
 * played on the current slide, together with the part of the page the
 * plugin changes (each media element's playback position and the calls
 * made to `play`). The class in media_control.dfy is proved against these
 * functions.
 */
module MediaQueue {

  /** The identity of one media element on the page. */
  type MediaId = nat

  /**
   * `queue` is the plugin's list of unplayed media, front first;
   * `positions` maps each media element to its `currentTime`;
   * `playLog` lists the elements `play` was called on, oldest first.
   */
  datatype State = State(queue: seq<MediaId>, positions: map<MediaId, real>, playLog: seq<MediaId>)

  /** The outcome of one `next` event: the new state, and whether the event was cancelled. */
  datatype Step = Step(after: State, cancelled: bool)

  /** A run of `next` events: the final state and, per event, whether it was cancelled. */
  datatype Trace = Trace(final: State, cancelled: seq<bool>)

  /** Positions after setting `currentTime = 0` on each of `media` in turn. */
  function Rewound(positions: map<MediaId, real>, media: seq<MediaId>): (r: map<MediaId, real>)
    ensures r.Keys == positions.Keys + set m | m in media
    ensures forall m :: m in media ==> r[m] == 0.0
    ensures forall m :: m in positions && m !in media ==> r[m] == positions[m]
    decreases |media|
  {
    if media == [] then positions
    else
      var last := media[|media| - 1];
      assert forall m :: m in media <==> m in media[..|media| - 1] || m == last;
      Rewound(positions, media[..|media| - 1])[last := 0.0]
  }

  /**
   * The `activate` handler. Outside slide mode nothing changes. In slide
   * mode a slide with media rewinds each of them and appends them to the
   * queue in document order; a slide without media empties the queue.
   */
  function Activate(s: State, slideMode: bool, media: seq<MediaId>): (r: State)
    ensures !slideMode ==> r == s
    ensures slideMode && media != [] ==> r.queue == s.queue + media
    ensures slideMode && media == [] ==> r.queue == []
    ensures slideMode ==> r.positions.Keys == s.positions.Keys + set m | m in media
    ensures slideMode ==> forall m :: m in media ==> r.positions[m] == 0.0
    ensures forall m :: m in s.positions && m !in media ==> m in r.positions && r.positions[m] == s.positions[m]
    ensures r.playLog == s.playLog
  {
    if !slideMode then s
    else if |media| > 0 then s.(queue := s.queue + media, positions := Rewound(s.positions, media))
    else s.(queue := [])
  }

  /** `_playNextMedia`: take the front of the queue and call `play` on it. */
  function PlayFront(s: State): (r: State)
    requires s.queue != []
    ensures |r.playLog| == |s.playLog| + 1 && r.playLog[..|s.playLog|] == s.playLog
    ensures [r.playLog[|s.playLog|]] + r.queue == s.queue
    ensures r.positions == s.positions
  {
    s.(queue := s.queue[1..], playLog := s.playLog + [s.queue[0]])
  }

  /**
   * The `next` handler: in slide mode with media queued the event is
   * cancelled and the front element played; otherwise nothing happens.
   */
  function Next(s: State, slideMode: bool): (r: Step)
    ensures r.cancelled <==> slideMode && s.queue != []
    ensures r.cancelled ==> r.after == PlayFront(s)
    ensures !r.cancelled ==> r.after == s
  {
    if slideMode && |s.queue| > 0 then
      var after := PlayFront(s);
      assert s.queue == [s.queue[0]] + after.queue;
      assert after.playLog == s.playLog + [s.queue[0]];
      Step(after, true)
    else Step(s, false)
  }

  /** A `next` event loses nothing: an element leaves the queue only by being played. */
  lemma NextConserves(s: State, slideMode: bool)
    ensures var r := Next(s, slideMode).after;
      multiset(r.queue) + multiset(r.playLog) == multiset(s.queue) + multiset(s.playLog)
  {
    if slideMode && s.queue != [] {
      assert s.queue == [s.queue[0]] + s.queue[1..];
    }
  }

  /** `k` consecutive `next` events, all in the same mode. */
  function Run(s: State, slideMode: bool, k: nat): (r: Trace)
    ensures |r.cancelled| == k
    decreases k
  {
    if k == 0 then Trace(s, [])
    else
      var step := Next(s, slideMode);
      var rest := Run(step.after, slideMode, k - 1);
      Trace(rest.final, [step.cancelled] + rest.cancelled)
  }

  /** One `next` event followed by `k - 1` more. */
  lemma RunUnfold(s: State, slideMode: bool, k: nat)
    requires k > 0
    ensures var step := Next(s, slideMode);
      var rest := Run(step.after, slideMode, k - 1);
      Run(s, slideMode, k).final == rest.final
      && Run(s, slideMode, k).cancelled == [step.cancelled] + rest.cancelled
  {
  }

  /** The fields of the state after the front of the queue is played. */
  lemma PlayFrontFields(s: State)
    requires s.queue != []
    ensures PlayFront(s).queue == s.queue[1..]
    ensures PlayFront(s).playLog == s.playLog + [s.queue[0]]
    ensures PlayFront(s).positions == s.positions
  {
  }

  /** Taking the head first and then `k - 1` more is taking `k`. */
  lemma TakeAfterHead(q: seq<MediaId>, log: seq<MediaId>, k: nat)
    requires 0 < k <= |q|
    ensures q[1..][k - 1..] == q[k..]
    ensures log + [q[0]] + q[1..][..k - 1] == log + q[..k]
  {
    assert q[..k] == [q[0]] + q[1..][..k - 1];
  }

  /**
   * While `k` media are still queued, `k` events in slide mode are all
   * cancelled and play the first `k` of the queue in order.
   */
  lemma {:induction false} Drain(s: State, k: nat)
    requires k <= |s.queue|
    ensures var t := Run(s, true, k);
      (forall i :: 0 <= i < k ==> t.cancelled[i])
      && t.final.queue == s.queue[k..]
      && t.final.playLog == s.playLog + s.queue[..k]
      && t.final.positions == s.positions
    decreases k
  {
    if k == 0 {
      assert s.queue[0..] == s.queue;
      assert s.playLog + s.queue[..0] == s.playLog;
    } else {
      var after := PlayFront(s);
      PlayFrontFields(s);
      RunUnfold(s, true, k);
      Drain(after, k - 1);
      TakeAfterHead(s.queue, s.playLog, k);
    }
  }

  /** `|queue|` events in slide mode are all cancelled and play the whole queue in order. */
  lemma DrainAll(s: State)
    ensures var t := Run(s, true, |s.queue|);
      (forall i :: 0 <= i < |s.queue| ==> t.cancelled[i])
      && t.final.queue == [] && t.final.playLog == s.playLog + s.queue
      && t.final.positions == s.positions
  {
    Drain(s, |s.queue|);
    assert s.queue[..|s.queue|] == s.queue;
  }

  /** With nothing queued, or outside slide mode, no event is cancelled and nothing changes. */
  lemma {:induction false} IdleRun(s: State, slideMode: bool, k: nat)
    requires s.queue == [] || !slideMode
    ensures var t := Run(s, slideMode, k);
      t.final == s && forall i :: 0 <= i < k ==> !t.cancelled[i]
    decreases k
  {
    if k > 0 {
      RunUnfold(s, slideMode, k);
      IdleRun(s, slideMode, k - 1);
    }
  }

  /**
   * After the queue is played out, one more event is let through: `|queue| + 1`
   * events in slide mode cancel all but the last and play the whole queue.
   */
  lemma DrainThenPass(s: State)
    ensures var t := Run(s, true, |s.queue| + 1);
      (forall i :: 0 <= i < |s.queue| ==> t.cancelled[i])
      && !t.cancelled[|s.queue|]
      && t.final.queue == [] && t.final.playLog == s.playLog + s.queue
      && t.final.positions == s.positions
  {
    var n := |s.queue|;
    DrainAll(s);
    var first := Run(s, true, n);
    IdleRun(first.final, true, 1);
    RunAppend(s, true, n, 1);
  }

  /** Running `j` events and then `k` more is running `j + k` events. */
  lemma {:induction false} RunAppend(s: State, slideMode: bool, j: nat, k: nat)
    ensures var first := Run(s, slideMode, j);
      var second := Run(first.final, slideMode, k);
      Run(s, slideMode, j + k).final == second.final
      && Run(s, slideMode, j + k).cancelled == first.cancelled + second.cancelled
    decreases j
  {
    if j > 0 {
      var step := Next(s, slideMode);
      RunUnfold(s, slideMode, j);
      RunUnfold(s, slideMode, j + k);
      RunAppend(step.after, slideMode, j - 1, k);
      var first := Run(step.after, slideMode, j - 1);
      var second := Run(first.final, slideMode, k);
      assert [step.cancelled] + (first.cancelled + second.cancelled)
          == ([step.cancelled] + first.cancelled) + second.cancelled;
    }
  }

  /**
   * Sequential consumption: activating a slide with media m1..mk in slide
   * mode with nothing queued, the next k events are each cancelled and play
   * m1..mk in order, and event k+1 is let through.
   */
  lemma SequentialConsumption(s: State, media: seq<MediaId>)
    requires s.queue == []
    ensures var a := Activate(s, true, media);
      var t := Run(a, true, |a.queue| + 1);
      a.queue == media
      && (forall i :: 0 <= i < |media| ==> t.cancelled[i])
      && !t.cancelled[|media|]
      && t.final.queue == []
      && t.final.playLog == s.playLog + media
  {
    DrainThenPass(Activate(s, true, media));
  }

  /**
   * Activation appends rather than replaces: media still queued from an
   * earlier slide are played before the new slide's media.
   */
  lemma ActivateAppends(s: State, media: seq<MediaId>)
    requires media != []
    ensures var a := Activate(s, true, media);
      var t := Run(a, true, |a.queue|);
      |a.queue| == |s.queue| + |media|
      && (forall i :: 0 <= i < |a.queue| ==> t.cancelled[i])
      && t.final.queue == []
      && t.final.playLog == s.playLog + (s.queue + media)
  {
    DrainAll(Activate(s, true, media));
  }

  /**
   * Re-entering a slide without media after unplayed media were queued
   * leaves nothing queued: every later event is let through and plays nothing.
   */
  lemma ResetOnEmptySlide(s: State, k: nat)
    ensures var t := Run(Activate(s, true, []), true, k);
      t.final.queue == [] && t.final.playLog == s.playLog
      && forall i :: 0 <= i < k ==> !t.cancelled[i]
  {
    IdleRun(Activate(s, true, []), true, k);
  }
}
