/** The transitions of the state aggregator. Each is a record update on a
    copy of the current snapshot. Each contract states, first, which fields
    the update may change (`r == s.(f := r.f, ...)`: every other field keeps
    its value), then the values those fields hold afterwards, and finally
    that the update keeps the playback flags consistent and clears none of
    the one-way flags. */
module Transitions {
  import opened PlaybackState

  /** The player is set up. Whether it must wait for a user gesture is the
      negation of what the autoplay probe answers at this moment. */
  function SetReady(s: State, canAutoplay: bool): (r: State)
    ensures r == s.(ready := r.ready, waitingForUser := r.waitingForUser)
    ensures r.ready && r.waitingForUser == !canAutoplay
    ensures Consistent(s) ==> Consistent(r)
    ensures Monotone(s, r)
  {
    s.(ready := true, waitingForUser := !canAutoplay)
  }

  /** Play was requested by the player or by an ad break. */
  function SetPlayRequested(s: State): (r: State)
    ensures r == s.(waitingForUser := r.waitingForUser, playRequested := r.playRequested,
                    paused := r.paused, videoSessionStarted := r.videoSessionStarted)
    ensures !r.waitingForUser && r.playRequested && !r.paused && r.videoSessionStarted
    ensures Consistent(s) ==> Consistent(r)
    ensures Monotone(s, r)
  {
    s.(waitingForUser := false, playRequested := true, paused := false,
       videoSessionStarted := true)
  }

  /** The player or an ad break is playing. */
  function SetPlaying(s: State): (r: State)
    ensures r == s.(started := r.started, playing := r.playing, playRequested := r.playRequested,
                    buffering := r.buffering, paused := r.paused)
    ensures r.started && r.playing && r.playRequested && !r.buffering && !r.paused
    ensures Consistent(s) ==> Consistent(r)
    ensures Monotone(s, r)
  {
    s.(started := true, playing := true, playRequested := true,
       buffering := false, paused := false)
  }

  /** The player or an ad break paused. */
  function SetPaused(s: State): (r: State)
    ensures r == s.(playRequested := r.playRequested, playing := r.playing, paused := r.paused)
    ensures !r.playRequested && !r.playing && r.paused
    ensures Consistent(s) ==> Consistent(r)
    ensures Monotone(s, r)
  {
    s.(playRequested := false, playing := false, paused := true)
  }

  /** The content's playback position moved. */
  function SetCurrentTime(s: State, currentTime: real): (r: State)
    ensures r == s.(currentTime := r.currentTime)
    ensures r.currentTime == Some(currentTime)
    ensures Consistent(s) ==> Consistent(r)
    ensures Monotone(s, r)
  {
    s.(currentTime := Some(currentTime))
  }

  /** The content's duration became known or changed. */
  function SetDuration(s: State, duration: real): (r: State)
    ensures r == s.(duration := r.duration)
    ensures r.duration == Some(duration)
    ensures Consistent(s) ==> Consistent(r)
    ensures Monotone(s, r)
  {
    s.(duration := Some(duration))
  }

  /** The position inside the active ad break moved. Whether an ad break is
      active is not consulted. */
  function SetAdBreakCurrentTime(s: State, currentTime: real): (r: State)
    ensures r == s.(adBreakCurrentTime := r.adBreakCurrentTime)
    ensures r.adBreakCurrentTime == Some(currentTime)
    ensures Consistent(s) ==> Consistent(r)
    ensures Monotone(s, r)
  {
    s.(adBreakCurrentTime := Some(currentTime))
  }

  /** The player is waiting for data. */
  function SetBuffering(s: State): (r: State)
    ensures r == s.(playing := r.playing, buffering := r.buffering)
    ensures !r.playing && r.buffering
    ensures Consistent(s) ==> Consistent(r)
    ensures Monotone(s, r)
  {
    s.(playing := false, buffering := true)
  }

  /** The list of scheduled ad breaks arrived. */
  function SetAdBreaks(s: State, adBreaks: seq<AdBreak>): (r: State)
    ensures r == s.(adBreaks := r.adBreaks)
    ensures r.adBreaks == adBreaks
    ensures Consistent(s) ==> Consistent(r)
    ensures Monotone(s, r)
  {
    s.(adBreaks := adBreaks)
  }

  /** An ad break started; its position inside the break is left as it was. */
  function SetAdBreak(s: State, adBreak: AdBreak): (r: State)
    ensures r == s.(adBreak := r.adBreak)
    ensures r.adBreak == Some(adBreak)
    ensures Consistent(s) ==> Consistent(r)
    ensures Monotone(s, r)
  {
    s.(adBreak := Some(adBreak))
  }

  /** The active ad break ended: both it and the position inside it are cleared. */
  function ResetAdBreak(s: State): (r: State)
    ensures r == s.(adBreak := r.adBreak, adBreakCurrentTime := r.adBreakCurrentTime)
    ensures r.adBreak == None && r.adBreakCurrentTime == None
    ensures Consistent(s) ==> Consistent(r)
    ensures Monotone(s, r)
  {
    s.(adBreak := None, adBreakCurrentTime := None)
  }

  /** An individual ad started. */
  function SetAd(s: State, ad: Ad): (r: State)
    ensures r == s.(ad := r.ad)
    ensures r.ad == Some(ad)
    ensures Consistent(s) ==> Consistent(r)
    ensures Monotone(s, r)
  {
    s.(ad := Some(ad))
  }

  /** The individual ad ended. */
  function ResetAd(s: State): (r: State)
    ensures r == s.(ad := r.ad)
    ensures r.ad == None
    ensures Consistent(s) ==> Consistent(r)
    ensures Monotone(s, r)
  {
    s.(ad := None)
  }

  /** The content ended: it is no longer started, requested or playing. */
  function SetEnded(s: State): (r: State)
    ensures r == s.(started := r.started, playRequested := r.playRequested,
                    playing := r.playing, ended := r.ended)
    ensures !r.started && !r.playRequested && !r.playing && r.ended
    ensures Consistent(s) ==> Consistent(r)
    ensures Monotone(s, r)
  {
    s.(started := false, playRequested := false, playing := false, ended := true)
  }

  /** The buffered fraction of the media changed. */
  function SetBufferedPercentage(s: State, percentage: real): (r: State)
    ensures r == s.(bufferedPercentage := r.bufferedPercentage)
    ensures r.bufferedPercentage == percentage
    ensures Consistent(s) ==> Consistent(r)
    ensures Monotone(s, r)
  {
    s.(bufferedPercentage := percentage)
  }

  /** A player error was reported. */
  function SetError(s: State, error: PlayerError): (r: State)
    ensures r == s.(error := r.error)
    ensures r.error == Some(error)
    ensures Consistent(s) ==> Consistent(r)
    ensures Monotone(s, r)
  {
    s.(error := Some(error))
  }

  /** The volume changed. */
  function SetVolume(s: State, volume: real): (r: State)
    ensures r == s.(volume := r.volume)
    ensures r.volume == volume
    ensures Consistent(s) ==> Consistent(r)
    ensures Monotone(s, r)
  {
    s.(volume := volume)
  }

  /** Fullscreen is available. */
  function SetFullscreenSupported(s: State): (r: State)
    ensures r == s.(fullscreenSupported := r.fullscreenSupported)
    ensures r.fullscreenSupported
    ensures Consistent(s) ==> Consistent(r)
    ensures Monotone(s, r)
  {
    s.(fullscreenSupported := true)
  }

  /** Fullscreen was entered or left. */
  function SetFullscreenChanged(s: State, fullscreen: bool): (r: State)
    ensures r == s.(fullscreen := r.fullscreen)
    ensures r.fullscreen == fullscreen
    ensures Consistent(s) ==> Consistent(r)
    ensures Monotone(s, r)
  {
    s.(fullscreen := fullscreen)
  }

  /** Picture-in-picture was entered or left. */
  function SetPipChanged(s: State, pip: bool): (r: State)
    ensures r == s.(pip := r.pip)
    ensures r.pip == pip
    ensures Consistent(s) ==> Consistent(r)
    ensures Monotone(s, r)
  {
    s.(pip := pip)
  }
}
