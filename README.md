# indigo-player state aggregator, modelled in Dafny

The player's `StateExtension` module listens to the low-level events raised
by the player, the ad framework and the UI, and folds them into one playback
snapshot. The snapshot records whether the player is ready, playing, paused,
buffering or ended, its position and duration, the scheduled and active ad
breaks, and the volume, fullscreen and picture-in-picture flags. Each
inbound event runs a named transition. When the transition changes the
snapshot, the module emits a specific event (`STATE_PLAYING`,
`STATE_ENDED`, ...) followed by the generic `STATE_CHANGE`. Both carry the
new and the previous snapshot.

The model has five modules:

- `PlaybackState` (`playback_state.dfy`): the snapshot record `State`, its
  initial value, and two invariants. `Consistent` says that a playing
  medium is neither paused nor buffering and has been requested and
  started. `Monotone` says that `ready`, `videoSessionStarted`,
  `fullscreenSupported` and `ended` never go back to false.
- `Transitions` (`transitions.dfy`): the twenty record updates passed to
  `dispatch`, as pure functions. Each contract states which fields may
  change (`r == s.(f := r.f, ...)`), the values they take, and that the
  update keeps both invariants.
- `Protocol` (`protocol.dfy`): the inbound events, the emitted events, and
  the handler table with its two guards and the second handler for an ended
  ad break. The predicate `Suppressed` holds the two guard conditions: a
  pause of the media while an ad break is active, and the end of the media
  while a POSTROLL ad break is listed. It also defines `Commit`, the pure meaning of one call of a
  dispatch-built function, and `Chained`, which says what a well-formed
  sequence of emitted events is.
- `Runs` (`runs.dfy`): sequences of inbound events, with lemmas by
  induction that the invariants and the chain shape hold after any
  sequence.
- `Aggregator` (`aggregator.dfy`): the module as the object it is. The
  class `StateExtension` has a mutable `state` field and a `log` of
  everything emitted. Its methods `Dispatch`, `Handle` and `RunHandlers`
  reassign these fields. `Dispatch` states directly the new snapshot and
  the two events it appends. `RunHandlers` and `Handle` are tied to
  `Protocol.React`, and only `Handle`, the entry point for an inbound
  event, is proved to keep the class invariant `Valid`. `PostrollClient`
  is a client example of the class, not a model of a source function: it
  checks by assertions that a listed POSTROLL ad break defers the end of
  the content until that ad break ends.

Two behaviours of the code that a reader might not expect, both of which
the model follows:

- `adBreak` and `adBreakCurrentTime` are not kept paired. Starting an ad
  break sets only `adBreak`, and the ad-break position can be set while no
  ad break is active.
- The guard on the end of the media tests whether a POSTROLL ad break is
  present in the list at all. It does not ask whether that ad break is
  still pending, so the guard stays on after the POSTROLL has played.

## Model

| member | source | states |
|---|---|---|
| PlaybackState.Initial | src/extensions/StateExtension/StateExtension.ts:43-72 | the initial snapshot has every flag false, no ad breaks, nothing buffered, volume 1, and every nullable field absent |
| Transitions.SetReady | src/extensions/StateExtension/StateExtension.ts:77-81 | only `ready` and `waitingForUser` change; the player is ready and waits for the user exactly when autoplay is refused; both invariants are kept |
| Transitions.SetPlayRequested | src/extensions/StateExtension/StateExtension.ts:83-90 | only the four listed fields change; play is requested, the session has started, and the player neither waits for the user nor is paused; both invariants are kept |
| Transitions.SetPlaying | src/extensions/StateExtension/StateExtension.ts:92-100 | only the five listed fields change; the content is started, playing and requested, and neither buffering nor paused; both invariants are kept |
| Transitions.SetPaused | src/extensions/StateExtension/StateExtension.ts:102-106 | only `playRequested`, `playing` and `paused` change; the content is paused and neither playing nor requested; both invariants are kept |
| Transitions.SetCurrentTime | src/extensions/StateExtension/StateExtension.ts:116-119 | only `currentTime` changes, to the reported position; both invariants are kept |
| Transitions.SetDuration | src/extensions/StateExtension/StateExtension.ts:121-124 | only `duration` changes, to the reported duration; both invariants are kept |
| Transitions.SetAdBreakCurrentTime | src/extensions/StateExtension/StateExtension.ts:126-129 | only `adBreakCurrentTime` changes, whether or not an ad break is active; both invariants are kept |
| Transitions.SetBuffering | src/extensions/StateExtension/StateExtension.ts:131-135 | only `playing` and `buffering` change; the medium is buffering and not playing; both invariants are kept |
| Transitions.SetAdBreaks | src/extensions/StateExtension/StateExtension.ts:137-140 | only the ad-break list changes, to the delivered list; both invariants are kept |
| Transitions.SetAdBreak | src/extensions/StateExtension/StateExtension.ts:142-145 | only the active ad break changes; the position inside it is left as it was; both invariants are kept |
| Transitions.ResetAdBreak | src/extensions/StateExtension/StateExtension.ts:147-151 | only the active ad break and the position inside it change, and both become absent; both invariants are kept |
| Transitions.SetAd | src/extensions/StateExtension/StateExtension.ts:153-156 | only the active ad changes, to the started ad; both invariants are kept |
| Transitions.ResetAd | src/extensions/StateExtension/StateExtension.ts:158-161 | only the active ad changes, and it becomes absent; both invariants are kept |
| Transitions.SetEnded | src/extensions/StateExtension/StateExtension.ts:163-168 | only the four listed fields change; the content is ended and no longer started, requested or playing; both invariants are kept |
| Transitions.SetBufferedPercentage | src/extensions/StateExtension/StateExtension.ts:183-186 | only the buffered fraction changes, to the reported value; both invariants are kept |
| Transitions.SetError | src/extensions/StateExtension/StateExtension.ts:188-191 | only `error` changes, to the reported error; both invariants are kept |
| Transitions.SetVolume | src/extensions/StateExtension/StateExtension.ts:193-196 | only `volume` changes, to the reported volume; both invariants are kept |
| Transitions.SetFullscreenSupported | src/extensions/StateExtension/StateExtension.ts:198-201 | only `fullscreenSupported` changes, and it becomes true; both invariants are kept |
| Transitions.SetFullscreenChanged | src/extensions/StateExtension/StateExtension.ts:203-206 | only `fullscreen` changes, to the reported value; both invariants are kept |
| Transitions.SetPipChanged | src/extensions/StateExtension/StateExtension.ts:208-211 | only `pip` changes, to the reported value; both invariants are kept |
| Protocol.Commit | src/extensions/StateExtension/StateExtension.ts:219-254 | an unchanged snapshot emits nothing; a changed one becomes current and emits exactly two events, the specific one first, forming a well-formed chain from the old snapshot to the new one |
| Protocol.ChainedAppend | src/extensions/StateExtension/StateExtension.ts:244-252 | two well-formed chains that meet at a snapshot concatenate into one well-formed chain |
| Protocol.ChainedEndsWithCurrent | src/extensions/StateExtension/StateExtension.ts:249-252 | the last event of a non-empty chain is the generic state change and carries the snapshot the chain ends in |
| Protocol.FindPostroll | src/extensions/StateExtension/StateExtension.ts:171-171 | no result exactly when no listed ad break is a POSTROLL; a result is a listed POSTROLL ad break |
| Protocol.Bound | src/extensions/StateExtension/StateExtension.ts:77-211 | the transition wired to each inbound event keeps both invariants |
| Protocol.React | src/extensions/StateExtension/StateExtension.ts:77-217 | every handler, guards and the second handler for an ended ad break included, keeps both invariants and emits a well-formed chain from the old snapshot to the new one |
| Protocol.PauseGuard | src/extensions/StateExtension/StateExtension.ts:102-114 | a pause of the media while an ad break is active changes nothing and emits nothing; otherwise, and always for a pause of the ad break, the content is paused and neither playing nor requested |
| Protocol.EndedGuard | src/extensions/StateExtension/StateExtension.ts:163-176 | the end of the media while a POSTROLL ad break is listed changes nothing and emits nothing; otherwise the content is ended and no longer started, playing or requested |
| Protocol.AdBreakEndedClears | src/extensions/StateExtension/StateExtension.ts:147-181 | after an ad break ends, no ad break is active and its position is absent; the content is ended exactly when it was before or the break was a POSTROLL, and after a POSTROLL it is no longer started, playing or requested |
| Protocol.PostrollEndOrder | src/extensions/StateExtension/StateExtension.ts:147-181 | when an active POSTROLL ad break ends before the content has ended, four events are emitted: first the ad-break-ended pair, carrying a snapshot with no active ad break that is not yet ended, then the ended pair, carrying the ended snapshot |
| Protocol.QuietIffUnchanged | src/extensions/StateExtension/StateExtension.ts:226-252 | a handler emits nothing exactly when it leaves the snapshot as it was |
| Protocol.PostrollEndQuietIffUnchanged | src/extensions/StateExtension/StateExtension.ts:147-181 | the two dispatches for an ended POSTROLL ad break emit nothing exactly when together they leave the snapshot as it was |
| Runs.RunKeepsConsistent | src/extensions/StateExtension/StateExtension.ts:77-211 | after any sequence of inbound events, a playing medium is still neither paused nor buffering and has been requested and started |
| Runs.RunMonotone | src/extensions/StateExtension/StateExtension.ts:77-211 | no sequence of inbound events sets `ready`, `videoSessionStarted`, `fullscreenSupported` or `ended` back to false |
| Runs.RunChained | src/extensions/StateExtension/StateExtension.ts:219-254 | everything a sequence of inbound events emits is one chain of (specific, generic) pairs, each carrying the previous pair's snapshot as its previous snapshot |
| Runs.RunFromInitial | src/extensions/StateExtension/StateExtension.ts:43-72 | from the initial snapshot, every sequence of inbound events reaches a consistent snapshot through a well-formed chain |
| Runs.PostrollDefersEnd | src/extensions/StateExtension/StateExtension.ts:169-181 | with a POSTROLL ad break listed, the end of the media does not end the content, and the end of that ad break then does |
| Runs.PostrollGuardStaysOn | src/extensions/StateExtension/StateExtension.ts:169-181 | after a listed POSTROLL ad break has ended, a later end of the media is still ignored: nothing changes and nothing is emitted |
| Runs.SessionStart | src/extensions/StateExtension/StateExtension.ts:77-100 | ready with autoplay allowed, then play and playing, leaves the session ready, not waiting for the user, started, requested, playing and not paused |
| Runs.AdBreakMasksPause | src/extensions/StateExtension/StateExtension.ts:107-113 | a pause of the media right after an ad break starts leaves `paused`, `playing` and `playRequested` as they were |
| Aggregator.StateExtension.constructor | src/extensions/StateExtension/StateExtension.ts:213-216 | the object starts from the initial snapshot and has emitted exactly one generic state change, with no previous snapshot |
| Aggregator.StateExtension.Dispatch | src/extensions/StateExtension/StateExtension.ts:219-254 | an unchanged snapshot leaves state and log untouched; otherwise the new snapshot becomes current and exactly the specific event, then the generic one, are appended, both carrying the new and the previous snapshot |
| Aggregator.StateExtension.RunHandlers | src/extensions/StateExtension/StateExtension.ts:107-181 | running the handlers for an event, guards and the POSTROLL handler included, leaves the state and appends the events that `Protocol.React` defines |
| Aggregator.StateExtension.Handle | src/extensions/StateExtension/StateExtension.ts:74-217 | delivering an event keeps the object invariant: the log begins with the construction announcement, continues as one well-formed chain that ends in the current snapshot, and that snapshot is consistent |
| Aggregator.LogExtends | src/extensions/StateExtension/StateExtension.ts:244-252 | appending the events of one reaction to a well-formed log keeps it one chain |

## Left out

- `src/createAPI.ts` is not part of this model. It only forwards calls to the player instance.
- The event bus, `Module` and `Instance` are not part of this model. `emit` is an append to the `log` field. `on` is the fixed handler table in `Protocol.React`. The model has no other subscribers, no re-entrant dispatch from a listener, and no listener exceptions. The two handlers for an ended ad break run in the order they were registered.
- Protocol.Commit: change detection in the code compares object identity after an immer `produce`. The model compares snapshots by value. The two agree because immer returns the same object exactly when no assignment changed a field's value. Payloads that are equal in value but are different objects count as unchanged here, whereas in the code they count as a change.
- Aggregator.StateExtension.Dispatch: takes the snapshot that the transition produced, not the transition function. The draft copy and its structural sharing are not modelled.
- Numbers (`currentTime`, `duration`, `adBreakCurrentTime`, `bufferedPercentage`, `volume`) are `real`. The code only copies them from event data, so no floating-point arithmetic is involved.
- Event payloads are opaque. An ad break is its type plus an identity, an ad is an identity, and an error is a code.
- The code copies a field from the event data even when that field is missing or null. The model always delivers a value, so it cannot write an absent position, duration or error.
- An ended-ad-break event without an ad break makes the second handler throw in the code. The model's event always carries an ad break.
- `canAutoplay()` is an external probe. It is a boolean parameter, the probe's answer at the moment the handler runs.
- The commented-out debugging diff inside `dispatch` does nothing and is not modelled.
