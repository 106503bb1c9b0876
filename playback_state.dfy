/** The playback snapshot held by the state aggregator: one record with every
    field of the player's observable state, its initial value, and the
    invariants the transitions keep. */
module PlaybackState {

  datatype Option<T> = None | Some(value: T)

  /** Position of an ad break in the content. */
  datatype AdBreakType = Preroll | Midroll | Postroll

  /** An ad break as delivered by the ad framework. Only its type is inspected;
      `id` stands for the rest of the payload. */
  datatype AdBreak = AdBreak(breakType: AdBreakType, id: nat)

  /** An individual ad; the payload is opaque apart from its identity. */
  datatype Ad = Ad(id: nat)

  /** A player error; the payload is opaque apart from its code. */
  datatype PlayerError = PlayerError(code: int)

  /** The snapshot. Nullable numbers and payloads are `Option`s; the
      numeric values themselves are only copied from event data. */
  datatype State = State(
    ready: bool,
    videoSessionStarted: bool,
    waitingForUser: bool,
    playRequested: bool,
    playing: bool,
    paused: bool,
    buffering: bool,
    ended: bool,
    currentTime: Option<real>,
    duration: Option<real>,
    adBreaks: seq<AdBreak>,
    adBreak: Option<AdBreak>,
    adBreakCurrentTime: Option<real>,
    ad: Option<Ad>,
    error: Option<PlayerError>,
    bufferedPercentage: real,
    volume: real,
    fullscreenSupported: bool,
    fullscreen: bool,
    pip: bool,
    started: bool
  )

  /** The snapshot the aggregator starts from: every flag false, no ad breaks,
      nothing buffered, full volume, and every nullable field absent. */
  function Initial(): (s: State)
    ensures !s.ready && !s.videoSessionStarted && !s.waitingForUser
    ensures !s.playRequested && !s.playing && !s.paused && !s.buffering && !s.ended
    ensures !s.fullscreenSupported && !s.fullscreen && !s.pip && !s.started
    ensures s.currentTime == None && s.duration == None
    ensures s.adBreaks == [] && s.adBreak == None && s.adBreakCurrentTime == None
    ensures s.ad == None && s.error == None
    ensures s.bufferedPercentage == 0.0 && s.volume == 1.0
  {
    State(
      ready := false, videoSessionStarted := false, waitingForUser := false,
      playRequested := false, playing := false, paused := false,
      buffering := false, ended := false,
      currentTime := None, duration := None,
      adBreaks := [], adBreak := None, adBreakCurrentTime := None, ad := None,
      error := None,
      bufferedPercentage := 0.0, volume := 1.0,
      fullscreenSupported := false, fullscreen := false, pip := false,
      started := false)
  }

  /** The playback flags that the transitions keep mutually consistent:
      media that is playing is neither paused nor buffering, has been
      requested to play and has started. */
  predicate Consistent(s: State)
  {
    s.playing ==> !s.paused && !s.buffering && s.playRequested && s.started
  }

  /** The flags that only ever go from false to true. */
  predicate Monotone(s: State, t: State)
  {
    && (s.ready ==> t.ready)
    && (s.videoSessionStarted ==> t.videoSessionStarted)
    && (s.fullscreenSupported ==> t.fullscreenSupported)
    && (s.ended ==> t.ended)
  }

  lemma MonotoneTransitive(s: State, t: State, u: State)
    requires Monotone(s, t) && Monotone(t, u)
    ensures Monotone(s, u)
  {
  }
}
