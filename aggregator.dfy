/** The state aggregator as the object it is: a module that holds the current
    snapshot in a mutable field and reassigns it on every effective dispatch.
    Emitting an event is modelled as appending it to `log`, the sequence of
    everything the aggregator has emitted, oldest first. */
module Aggregator {
  import opened PlaybackState
  import opened Transitions
  import opened Protocol

  class StateExtension {
    var state: State
    var log: seq<Emission>

    /** The log starts with the announcement made at construction and goes on
        as one chain of change events ending in the current snapshot, which
        keeps the playback flags consistent. */
    ghost predicate Valid()
      reads this
    {
      && |log| >= 1
      && log[0] == Emission(StateChange, Initial(), None)
      && Chained(Initial(), log[1..], state)
      && Consistent(state)
    }

    /** Starts from the initial snapshot and announces it once, as a generic
        state change with no previous snapshot. */
    constructor ()
      ensures Valid()
      ensures state == Initial()
      ensures log == [Emission(StateChange, Initial(), None)]
    {
      state := Initial();
      log := [Emission(StateChange, Initial(), None)];
    }

    /** One call of a function built by `dispatch(fn, event)`, where `next`
        is what `fn` produced on a draft copy of the current snapshot. An
        unchanged snapshot changes nothing; otherwise `next` replaces it and
        the specific event, then the generic state change, are emitted, both
        carrying the new and the previous snapshot. */
    method Dispatch(next: State, event: StateEvent)
      modifies this
      ensures next == old(state) ==> state == old(state) && log == old(log)
      ensures next != old(state) ==>
                && state == next
                && log == old(log) + [Emission(Specific(event), next, Some(old(state))),
                                      Emission(StateChange, next, Some(old(state)))]
    {
      if next == state {
        return;
      }
      var prevState := state;
      state := next;
      log := log + [Emission(Specific(event), state, Some(prevState))];
      log := log + [Emission(StateChange, state, Some(prevState))];
    }

    /** Delivers `e` to the aggregator, as the event bus does: its handlers
        run and the object invariant is kept. */
    method Handle(e: Event, canAutoplay: bool)
      requires Valid()
      modifies this
      ensures Valid()
      ensures state == React(old(state), e, canAutoplay).state
      ensures log == old(log) + React(old(state), e, canAutoplay).emitted
    {
      RunHandlers(e, canAutoplay);
      LogExtends(old(log), old(state), React(old(state), e, canAutoplay));
    }

    /** Runs the handlers subscribed to `e`, in the order they were
        registered; `canAutoplay` is what the autoplay probe answers while
        they run. */
    method RunHandlers(e: Event, canAutoplay: bool)
      modifies this
      ensures state == React(old(state), e, canAutoplay).state
      ensures log == old(log) + React(old(state), e, canAutoplay).emitted
    {
      // A guarded handler returns before dispatching.
      if Suppressed(state, e) {
        return;
      }
      var (next, event) := Bound(state, e, canAutoplay);
      Dispatch(next, event);
      ghost var first := Commit(old(state), next, event);
      assert state == first.state && log == old(log) + first.emitted;
      // The second handler subscribed to the end of an ad break.
      if e.OnAdBreakEnded? && e.adBreak.breakType == Postroll {
        Dispatch(SetEnded(state), StateEnded);
        ghost var second := Commit(first.state, SetEnded(first.state), StateEnded);
        assert log == old(log) + first.emitted + second.emitted;
        assert old(log) + first.emitted + second.emitted == old(log) + (first.emitted + second.emitted);
      }
    }
  }

  /** Appending the events of one reaction to a valid log keeps it one chain. */
  lemma LogExtends(log: seq<Emission>, s: State, r: Reaction)
    requires |log| >= 1 && Chained(Initial(), log[1..], s)
    requires Chained(s, r.emitted, r.state)
    ensures Chained(Initial(), (log + r.emitted)[1..], r.state)
  {
    ChainedAppend(Initial(), log[1..], s, r.emitted, r.state);
    assert (log + r.emitted)[1..] == log[1..] + r.emitted;
  }

  /** A client of the class: with a POSTROLL ad break listed, the end of the
      media changes nothing and emits nothing; the end of that ad break ends
      the content, and the last event emitted announces the ended snapshot. */
  method PostrollClient(postroll: AdBreak)
    requires postroll.breakType == Postroll
  {
    var x := new StateExtension();
    x.Handle(OnAdBreaks([postroll]), true);
    assert x.state.adBreaks == [postroll] && !x.state.ended;
    var before := x.log;
    x.Handle(OnPlayerEnded, true);
    assert !x.state.ended && x.log == before;
    x.Handle(OnAdBreakEnded(postroll), true);
    assert x.state.ended;
    ChainedEndsWithCurrent(Initial(), x.log[1..], x.state);
    assert x.log[|x.log| - 1].state.ended;
  }
}
