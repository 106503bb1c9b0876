/** Sequences of inbound events handled one after the other, and the
    properties that hold of every such sequence: the playback flags stay
    consistent, the one-way flags stay set, and the emitted events form one
    chain of snapshots. */
module Runs {
  import opened PlaybackState
  import opened Protocol

  /** An inbound event together with what the autoplay probe answers while
      its handler runs. */
  datatype Input = Input(event: Event, canAutoplay: bool)

  /** Handles `inputs` in order, starting from snapshot `s`. */
  function Run(s: State, inputs: seq<Input>): (r: Reaction)
    decreases |inputs|
  {
    if inputs == [] then Reaction(s, [])
    else
      var first := React(s, inputs[0].event, inputs[0].canAutoplay);
      var rest := Run(first.state, inputs[1..]);
      Reaction(rest.state, first.emitted + rest.emitted)
  }

  /** Playing is never combined with paused or buffering, and implies that
      play was requested and the content started. */
  lemma {:induction false} RunKeepsConsistent(s: State, inputs: seq<Input>)
    requires Consistent(s)
    ensures Consistent(Run(s, inputs).state)
    decreases |inputs|
  {
    if inputs != [] {
      RunKeepsConsistent(React(s, inputs[0].event, inputs[0].canAutoplay).state, inputs[1..]);
    }
  }

  /** `ready`, `videoSessionStarted`, `fullscreenSupported` and `ended` are
      never set back to false. */
  lemma {:induction false} RunMonotone(s: State, inputs: seq<Input>)
    ensures Monotone(s, Run(s, inputs).state)
    decreases |inputs|
  {
    if inputs != [] {
      var mid := React(s, inputs[0].event, inputs[0].canAutoplay).state;
      RunMonotone(mid, inputs[1..]);
      MonotoneTransitive(s, mid, Run(s, inputs).state);
    }
  }

  /** Everything a run emits is a chain of (specific, generic) pairs from the
      starting snapshot to the final one. */
  lemma {:induction false} RunChained(s: State, inputs: seq<Input>)
    ensures Chained(s, Run(s, inputs).emitted, Run(s, inputs).state)
    decreases |inputs|
  {
    if inputs != [] {
      var first := React(s, inputs[0].event, inputs[0].canAutoplay);
      RunChained(first.state, inputs[1..]);
      var rest := Run(first.state, inputs[1..]);
      ChainedAppend(s, first.emitted, first.state, rest.emitted, rest.state);
    }
  }

  /** From construction on, every snapshot any run reaches satisfies the
      invariants: the initial snapshot does, and every run keeps them. */
  lemma RunFromInitial(inputs: seq<Input>)
    ensures Consistent(Run(Initial(), inputs).state)
    ensures Chained(Initial(), Run(Initial(), inputs).emitted, Run(Initial(), inputs).state)
  {
    RunKeepsConsistent(Initial(), inputs);
    RunChained(Initial(), inputs);
  }

  /** With a POSTROLL ad break listed, the end of the content does not end the
      session; the end of that POSTROLL ad break does. */
  lemma PostrollDefersEnd(s: State, postroll: AdBreak, probe1: bool, probe2: bool)
    requires postroll in s.adBreaks && postroll.breakType == Postroll
    requires !s.ended
    ensures !React(s, OnPlayerEnded, probe1).state.ended
    ensures React(React(s, OnPlayerEnded, probe1).state, OnAdBreakEnded(postroll), probe2).state.ended
  {
    var i :| 0 <= i < |s.adBreaks| && s.adBreaks[i] == postroll;
    assert FindPostroll(s.adBreaks).Some?;
  }

  /** The end of the media is ignored for as long as a POSTROLL ad break is
      listed, even after that ad break has played and ended: ending an ad
      break does not remove it from the list. */
  lemma PostrollGuardStaysOn(s: State, postroll: AdBreak, probe1: bool, probe2: bool)
    requires postroll in s.adBreaks && postroll.breakType == Postroll
    ensures var after := React(s, OnAdBreakEnded(postroll), probe1).state;
            React(after, OnPlayerEnded, probe2) == Reaction(after, [])
  {
    var after := React(s, OnAdBreakEnded(postroll), probe1).state;
    assert after.adBreaks == s.adBreaks;
    var i :| 0 <= i < |s.adBreaks| && s.adBreaks[i] == postroll;
    assert FindPostroll(after.adBreaks).Some?;
  }

  /** The start of a session: after ready with autoplay allowed, a play
      request and playing, the session is ready, not waiting for the user,
      started and playing, and not paused. */
  lemma SessionStart()
    ensures var s := Run(Initial(), [Input(OnReady, true), Input(OnPlayerPlay, true), Input(OnPlayerPlaying, true)]).state;
            && s.ready && !s.waitingForUser && s.videoSessionStarted
            && s.playRequested && s.playing && s.started && !s.paused
  {
    var inputs := [Input(OnReady, true), Input(OnPlayerPlay, true), Input(OnPlayerPlaying, true)];
    var s1 := React(Initial(), OnReady, true).state;
    var s2 := React(s1, OnPlayerPlay, true).state;
    var s3 := React(s2, OnPlayerPlaying, true).state;
    assert inputs[1..][1..][1..] == [];
    assert Run(s2, inputs[1..][1..]).state == s3;
    assert Run(s1, inputs[1..]).state == s3;
  }

  /** Once an ad break has started, a pause of the media right after it
      leaves the playback flags as they were before the ad break. */
  lemma AdBreakMasksPause(s: State, adBreak: AdBreak, probe1: bool, probe2: bool)
    ensures var r := Run(s, [Input(OnAdBreakStarted(adBreak), probe1), Input(OnPlayerPause, probe2)]).state;
            && r.paused == s.paused && r.playing == s.playing
            && r.playRequested == s.playRequested
  {
    var masked := [Input(OnAdBreakStarted(adBreak), probe1), Input(OnPlayerPause, probe2)];
    var s1 := React(s, OnAdBreakStarted(adBreak), probe1).state;
    assert s1.adBreak.Some?;
    assert masked[1..][1..] == [];
    assert Run(s1, masked[1..]).state == s1;
  }
}
