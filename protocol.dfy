/** The dispatch protocol of the state aggregator and its table of handlers,
    as pure functions: what snapshot results from one inbound event and which
    events are emitted on the way. The class in module Aggregator performs the
    same steps on its mutable fields and is proved against these functions. */
module Protocol {
  import opened PlaybackState
  import opened Transitions

  /** The inbound events the aggregator subscribes to, with the part of their
      data that its handlers read. */
  datatype Event =
    | OnReady
    | OnPlayerPlay
    | OnAdBreakPlay
    | OnPlayerPlaying
    | OnAdBreakPlaying
    | OnPlayerPause
    | OnAdBreakPause
    | OnPlayerTimeUpdate(currentTime: real)
    | OnPlayerDurationChange(duration: real)
    | OnAdBreakTimeUpdate(currentTime: real)
    | OnPlayerWaiting
    | OnAdBreaks(adBreaks: seq<AdBreak>)
    | OnAdBreakStarted(adBreak: AdBreak)
    | OnAdBreakEnded(adBreak: AdBreak)
    | OnAdStarted(ad: Ad)
    | OnAdEnded
    | OnPlayerEnded
    | OnPlayerBufferedChange(percentage: real)
    | OnError(error: PlayerError)
    | OnPlayerVolumeChange(volume: real)
    | OnFullscreenSupported
    | OnFullscreenChange(fullscreen: bool)
    | OnPipChange(pip: bool)

  /** The specific events the aggregator emits, one per group of fields. */
  datatype StateEvent =
    | StateReady
    | StatePlayRequested
    | StatePlaying
    | StatePaused
    | StateCurrentTimeChange
    | StateDurationChange
    | StateBuffering
    | StateAdBreaks
    | StateAdBreakStarted
    | StateAdBreakEnded
    | StateAdStarted
    | StateAdEnded
    | StateEnded
    | StateBufferedChange
    | StateError
    | StateVolumeChange
    | StateFullscreenSupported
    | StateFullscreenChange
    | StatePipChange

  /** An emitted event name: a specific one, or the generic state change. */
  datatype Topic = Specific(event: StateEvent) | StateChange

  /** One emitted event with its payload: the new snapshot and the previous
      one (absent only for the announcement made at construction). */
  datatype Emission = Emission(topic: Topic, state: State, prevState: Option<State>)

  /** The snapshot after handling an event, and what was emitted meanwhile. */
  datatype Reaction = Reaction(state: State, emitted: seq<Emission>)

  /** `log` is what a sequence of effective dispatches emits while moving the
      snapshot from `s0` to `s1`: pairs of a specific event followed by the
      generic state change, both carrying the same new snapshot, which differs
      from the one before it, and the one before it as `prevState`. */
  predicate Chained(s0: State, log: seq<Emission>, s1: State)
    decreases |log|
  {
    if log == [] then s0 == s1
    else
      && |log| >= 2
      && log[0].topic.Specific?
      && log[1].topic == StateChange
      && log[0].state == log[1].state != s0
      && log[0].prevState == log[1].prevState == Some(s0)
      && Chained(log[0].state, log[2..], s1)
  }

  /** Two chains that meet form one chain. */
  lemma {:induction false} ChainedAppend(s0: State, l1: seq<Emission>, s1: State, l2: seq<Emission>, s2: State)
    requires Chained(s0, l1, s1) && Chained(s1, l2, s2)
    ensures Chained(s0, l1 + l2, s2)
    decreases |l1|
  {
    if l1 != [] {
      ChainedAppend(l1[0].state, l1[2..], s1, l2, s2);
      var l := l1 + l2;
      assert l[0] == l1[0] && l[1] == l1[1];
      assert l[2..] == l1[2..] + l2;
    } else {
      assert l1 + l2 == l2;
    }
  }

  /** The last event of a non-empty chain is the generic state change, and it
      carries the snapshot the chain ends in: a subscriber to the generic
      event always last heard of the current snapshot. */
  lemma {:induction false} ChainedEndsWithCurrent(s0: State, log: seq<Emission>, s1: State)
    requires Chained(s0, log, s1) && log != []
    ensures log[|log| - 1].topic == StateChange && log[|log| - 1].state == s1
    decreases |log|
  {
    if |log| > 2 {
      ChainedEndsWithCurrent(log[0].state, log[2..], s1);
      assert log[2..][|log[2..]| - 1] == log[|log| - 1];
    }
  }

  /** One call of a function built by `dispatch`: the transition produced
      `next` from the snapshot `s`. An unchanged snapshot emits nothing;
      otherwise `next` becomes the snapshot and two events are emitted, the
      specific one first and then the generic state change, both carrying
      `next` and `s`. */
  function Commit(s: State, next: State, event: StateEvent): (r: Reaction)
    ensures r.state == next
    ensures |r.emitted| == if next == s then 0 else 2
    ensures r.emitted != [] ==> r.emitted[0].topic == Specific(event)
    ensures Chained(s, r.emitted, next)
  {
    if next == s then Reaction(s, [])
    else
      Reaction(next, [Emission(Specific(event), next, Some(s)), Emission(StateChange, next, Some(s))])
  }

  /** The first scheduled ad break of type POSTROLL, if any. */
  function FindPostroll(adBreaks: seq<AdBreak>): (r: Option<AdBreak>)
    ensures r.None? <==> forall i :: 0 <= i < |adBreaks| ==> adBreaks[i].breakType != Postroll
    ensures r.Some? ==> r.value in adBreaks && r.value.breakType == Postroll
  {
    if adBreaks == [] then None
    else if adBreaks[0].breakType == Postroll then Some(adBreaks[0])
    else
      var rest := FindPostroll(adBreaks[1..]);
      assert forall i :: 1 <= i < |adBreaks| ==> adBreaks[i] == adBreaks[1..][i - 1];
      rest
  }

  /** The function built by `dispatch` that the first handler subscribed to
      `e` calls: the snapshot its transition produces from `s`, and the
      specific event it emits. `canAutoplay` is what the autoplay probe
      answers when the handler runs. */
  function Bound(s: State, e: Event, canAutoplay: bool): (r: (State, StateEvent))
    ensures Consistent(s) ==> Consistent(r.0)
    ensures Monotone(s, r.0)
  {
    match e
    case OnReady => (SetReady(s, canAutoplay), StateReady)
    case OnPlayerPlay => (SetPlayRequested(s), StatePlayRequested)
    case OnAdBreakPlay => (SetPlayRequested(s), StatePlayRequested)
    case OnPlayerPlaying => (SetPlaying(s), StatePlaying)
    case OnAdBreakPlaying => (SetPlaying(s), StatePlaying)
    case OnPlayerPause => (SetPaused(s), StatePaused)
    case OnAdBreakPause => (SetPaused(s), StatePaused)
    case OnPlayerTimeUpdate(t) => (SetCurrentTime(s, t), StateCurrentTimeChange)
    case OnPlayerDurationChange(d) => (SetDuration(s, d), StateDurationChange)
    case OnAdBreakTimeUpdate(t) => (SetAdBreakCurrentTime(s, t), StateCurrentTimeChange)
    case OnPlayerWaiting => (SetBuffering(s), StateBuffering)
    case OnAdBreaks(bs) => (SetAdBreaks(s, bs), StateAdBreaks)
    case OnAdBreakStarted(b) => (SetAdBreak(s, b), StateAdBreakStarted)
    case OnAdBreakEnded(b) => (ResetAdBreak(s), StateAdBreakEnded)
    case OnAdStarted(a) => (SetAd(s, a), StateAdStarted)
    case OnAdEnded => (ResetAd(s), StateAdEnded)
    case OnPlayerEnded => (SetEnded(s), StateEnded)
    case OnPlayerBufferedChange(p) => (SetBufferedPercentage(s, p), StateBufferedChange)
    case OnError(err) => (SetError(s, err), StateError)
    case OnPlayerVolumeChange(v) => (SetVolume(s, v), StateVolumeChange)
    case OnFullscreenSupported => (SetFullscreenSupported(s), StateFullscreenSupported)
    case OnFullscreenChange(f) => (SetFullscreenChanged(s, f), StateFullscreenChange)
    case OnPipChange(p) => (SetPipChanged(s, p), StatePipChange)
  }

  /** The guards: a pause of the media is ignored while an ad break is
      active, and the end of the media while a POSTROLL ad break is listed. */
  predicate Suppressed(s: State, e: Event)
  {
    || (e.OnPlayerPause? && s.adBreak.Some?)
    || (e.OnPlayerEnded? && FindPostroll(s.adBreaks).Some?)
  }

  /** All handlers subscribed to `e`, run in the order they were registered:
      unless a guard suppresses it, the first calls its dispatch-built
      function; for an ended ad break a second handler then ends the content
      if the break was a POSTROLL. */
  function React(s: State, e: Event, canAutoplay: bool): (r: Reaction)
    // Every handler keeps the playback flags consistent, never clears a
    // one-way flag, and emits a well-formed chain of change events.
    ensures Consistent(s) ==> Consistent(r.state)
    ensures Monotone(s, r.state)
    ensures Chained(s, r.emitted, r.state)
  {
    if Suppressed(s, e) then Reaction(s, [])
    else
      var (next, event) := Bound(s, e, canAutoplay);
      var first := Commit(s, next, event);
      if e.OnAdBreakEnded? && e.adBreak.breakType == Postroll then
        var second := Commit(first.state, SetEnded(first.state), StateEnded);
        ChainedAppend(s, first.emitted, first.state, second.emitted, second.state);
        Reaction(second.state, first.emitted + second.emitted)
      else first
  }

  /** A pause of the media is ignored while an ad break is active; otherwise,
      and for a pause of the ad break itself, the content is paused and
      neither playing nor requested to play. */
  lemma PauseGuard(s: State, e: Event, canAutoplay: bool)
    requires e.OnPlayerPause? || e.OnAdBreakPause?
    ensures e.OnPlayerPause? && s.adBreak.Some? ==> React(s, e, canAutoplay) == Reaction(s, [])
    ensures e.OnAdBreakPause? || s.adBreak.None? ==>
              var r := React(s, e, canAutoplay).state;
              r.paused && !r.playing && !r.playRequested
  {
  }

  /** The end of the media is ignored while a POSTROLL ad break is listed;
      otherwise the content ends and is no longer started, requested or
      playing. */
  lemma EndedGuard(s: State, canAutoplay: bool)
    ensures FindPostroll(s.adBreaks).Some? ==> React(s, OnPlayerEnded, canAutoplay) == Reaction(s, [])
    ensures FindPostroll(s.adBreaks).None? ==>
              var r := React(s, OnPlayerEnded, canAutoplay).state;
              r.ended && !r.started && !r.playing && !r.playRequested
  {
  }

  /** An ended ad break clears the active break and the position inside it;
      the content is ended afterwards exactly when it was before or the break
      was a POSTROLL. */
  lemma AdBreakEndedClears(s: State, adBreak: AdBreak, canAutoplay: bool)
    ensures var r := React(s, OnAdBreakEnded(adBreak), canAutoplay).state;
            && r.adBreak == None && r.adBreakCurrentTime == None
            && (r.ended <==> s.ended || adBreak.breakType == Postroll)
            && (adBreak.breakType == Postroll ==> !r.started && !r.playing && !r.playRequested)
  {
  }

  /** The handlers for an ended POSTROLL ad break run in the order they were
      registered: when an ad break was active and the content had not ended,
      the pair announcing the end of the ad break comes first and carries a
      snapshot without an active ad break that is not yet ended; the pair
      announcing the end of the content follows. */
  lemma PostrollEndOrder(s: State, adBreak: AdBreak, canAutoplay: bool)
    requires adBreak.breakType == Postroll
    requires s.adBreak.Some? && !s.ended
    ensures var em := React(s, OnAdBreakEnded(adBreak), canAutoplay).emitted;
            && |em| == 4
            && em[0].topic == Specific(StateAdBreakEnded)
            && em[0].state.adBreak == None && !em[0].state.ended
            && em[2].topic == Specific(StateEnded)
            && em[2].state.ended
  {
    var e := OnAdBreakEnded(adBreak);
    assert !Suppressed(s, e);
    assert Bound(s, e, canAutoplay) == (ResetAdBreak(s), StateAdBreakEnded);
    var first := Commit(s, ResetAdBreak(s), StateAdBreakEnded);
    var second := Commit(first.state, SetEnded(first.state), StateEnded);
    assert React(s, e, canAutoplay) == Reaction(second.state, first.emitted + second.emitted);
  }

  /** A handler emits nothing exactly when it leaves the snapshot as it was. */
  lemma QuietIffUnchanged(s: State, e: Event, canAutoplay: bool)
    ensures React(s, e, canAutoplay).emitted == [] <==> React(s, e, canAutoplay).state == s
  {
    if !Suppressed(s, e) {
      if e.OnAdBreakEnded? && e.adBreak.breakType == Postroll {
        PostrollEndQuietIffUnchanged(s, e.adBreak, canAutoplay);
      } else {
        var (next, event) := Bound(s, e, canAutoplay);
        assert React(s, e, canAutoplay) == Commit(s, next, event);
      }
    }
  }

  /** For an ended POSTROLL ad break two dispatches run; the second cannot
      undo the first, since ending the content keeps the cleared ad break. */
  lemma PostrollEndQuietIffUnchanged(s: State, adBreak: AdBreak, canAutoplay: bool)
    requires adBreak.breakType == Postroll
    ensures React(s, OnAdBreakEnded(adBreak), canAutoplay).emitted == []
            <==> React(s, OnAdBreakEnded(adBreak), canAutoplay).state == s
  {
    var e := OnAdBreakEnded(adBreak);
    assert !Suppressed(s, e);
    assert Bound(s, e, canAutoplay) == (ResetAdBreak(s), StateAdBreakEnded);
    var first := Commit(s, ResetAdBreak(s), StateAdBreakEnded);
    var second := Commit(first.state, SetEnded(first.state), StateEnded);
    assert React(s, OnAdBreakEnded(adBreak), canAutoplay) == Reaction(second.state, first.emitted + second.emitted);
    if second.state == s {
      assert first.state.adBreak == s.adBreak;
      assert first.state.adBreakCurrentTime == s.adBreakCurrentTime;
      assert ResetAdBreak(s) == s;
    }
  }
}
