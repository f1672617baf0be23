/**
 * The screen component (components/Screen.tsx): what is visible for a given display state and error
 * flag, the OSD channel label, and the two effects that react to the channel and the display state —
 * playback (which streaming backend is used, when the error flag is set or cleared, which streaming-
 * library instance is held) and the program guide (program info reset, OSD shown and hidden).
 *
 * The streaming library, the video element and the guide text service are outside the model; what
 * they report back enters as events (`HlsFatalError`, `MediaError`, `GuideReply`, `OsdTimeout`).
 */
module Screen {
  import opened Wrappers
  import opened Types
  import Decimal

  const NO_SIGNAL: string := "NO SIGNAL"
  const TUNING_TEXT: string := "TUNING..."

  /** The properties the controller renders the screen with. */
  datatype Props = Props(channel: Channel, tvState: TVState, volume: int, isMuted: bool)

  /** What the browser offers: `Hls.isSupported()`, and whether `canPlayType` answers a non-empty
      string for the HLS MIME type, application/vnd.apple.mpegurl. */
  datatype Caps = Caps(hlsSupported: bool, nativeHls: bool)

  datatype Backend = HlsJs | NativeHls | Unsupported

  /** A streaming-library instance loaded with `url`; `destroyed` after `destroy()`. */
  datatype HlsInstance = HlsInstance(url: string, destroyed: bool)

  /** The screen's own state: the error flag, the held library instance (`hlsRef`), the video
      element's `src` attribute set by the native path, program info, OSD flag, and whether the
      OSD hide timer is pending. */
  datatype View = View(
    error: bool,
    hls: Option<HlsInstance>,
    videoSrc: Option<string>,
    programInfo: Option<ProgramInfo>,
    showOSD: bool,
    osdTimerArmed: bool)

  /** The state after mounting with the set OFF (the mount-time effects change nothing). */
  function InitialView(): (v: View)
    ensures !v.error && v.hls == None && v.videoSrc == None && v.programInfo == None && !v.showOSD
  {
    View(false, None, None, None, false, false)
  }

  // ---------------------------------------------------------------- rendering

  predicate IsStatic(tv: TVState, error: bool)
  {
    tv == STATIC || tv == TUNING || error
  }

  predicate IsOff(tv: TVState)
  {
    tv == OFF
  }

  /** The topmost picture layer: the video, the noise overlay with its caption, or the black
      turn-off overlay. */
  datatype Layer = Video | Noise(caption: string) | Blank

  /** The volume/mute corner: whether it is drawn solid (full opacity) rather than faded, and
      whether it shows the word MUTE. */
  datatype Corner = Corner(solid: bool, muteText: bool)

  function TopLayer(tv: TVState, error: bool): (l: Layer)
    ensures l == Video <==> tv == PLAYING && !error
    ensures l == Blank <==> tv == OFF
    ensures l.Noise? <==> tv == STATIC || tv == TUNING || (tv == PLAYING && error)
    ensures l.Noise? ==> (l.caption == NO_SIGNAL <==> error) && (l.caption == TUNING_TEXT <==> !error)
  {
    if !(IsStatic(tv, error) || IsOff(tv)) then Video
    else if IsStatic(tv, error) && !IsOff(tv) then Noise(if error then NO_SIGNAL else TUNING_TEXT)
    else Blank
  }

  /** The OSD box is rendered when the set is not OFF and the OSD flag is up. */
  function OsdShown(tv: TVState, showOSD: bool): (b: bool)
    ensures b ==> tv != OFF && showOSD
    ensures tv != OFF && showOSD ==> b
  {
    !IsOff(tv) && showOSD
  }

  /** The volume/mute corner: solid when the set is on and the sound is inaudible (muted or at
      zero volume); the word MUTE only when muted. */
  function MuteCorner(tv: TVState, volume: int, isMuted: bool): (r: Corner)
    ensures r.solid <==> tv != OFF && (isMuted || volume <= 0)
    ensures r.muteText <==> tv != OFF && isMuted
    ensures r.muteText ==> r.solid
  {
    Corner(!IsOff(tv) && !(volume > 0 && !isMuted), !IsOff(tv) && isMuted)
  }

  /** The OSD channel label: "CH " and the id's decimal digits left-padded with '0' to width 2. */
  function ChannelLabel(id: int): (r: string)
    ensures |r| >= 5 && r[..3] == "CH "
    ensures 0 <= id < 10 ==> r == "CH 0" + [Decimal.DigitChar(id)]
    ensures id >= 0 ==> Decimal.AllDigits(r[3..]) && Decimal.DigitsValue(r[3..]) == id
    ensures id >= 10 ==> r[3] != '0' && r == "CH " + Decimal.NatToString(id)
    ensures id < 0 ==> r[3] == '-' && r == "CH -" + Decimal.NatToString(-id)
  {
    var digits := Decimal.IntToString(id);
    var padded := Decimal.PadStart(digits, 2, '0');
    var r := "CH " + padded;
    assert r[3..] == padded;
    if id >= 10 then
      Decimal.NatToStringRoundTrip(id);
      assert digits == Decimal.NatToString(id) && |digits| > 1;
      assert padded == digits;
      r
    else if id >= 0 then
      Decimal.NatToStringRoundTrip(id);
      Decimal.LeadingZerosValue(|padded| - |digits|, digits);
      assert padded == seq(|padded| - |digits|, _ => '0') + digits;
      r
    else
      var n := Decimal.NatToString(-id);
      Decimal.NatToStringRoundTrip(-id);
      assert digits == "-" + n;
      assert padded == digits;
      r
  }

  // ---------------------------------------------------------------- playback effect

  /** Backend choice in PLAYING: the streaming library when supported, else the browser's own
      HLS playback when it accepts the HLS MIME type, else none. */
  function SelectBackend(caps: Caps): (b: Backend)
    ensures b == HlsJs <==> caps.hlsSupported
    ensures b == NativeHls <==> !caps.hlsSupported && caps.nativeHls
    ensures b == Unsupported <==> !caps.hlsSupported && !caps.nativeHls
  {
    if caps.hlsSupported then HlsJs
    else if caps.nativeHls then NativeHls
    else Unsupported
  }

  /** The cleanup the playback effect leaves behind: destroy and drop the held instance. */
  function PlaybackCleanup(v: View): (r: View)
    ensures r.hls == None
    ensures r == v.(hls := None)
  {
    if v.hls.Some? then v.(hls := None) else v
  }

  /** The body of the playback effect for the current channel and display state. */
  function PlaybackEffect(v: View, p: Props, caps: Caps): (r: View)
    ensures p.tvState == OFF ==> r == v.(hls := None, videoSrc := None)
    ensures p.tvState == STATIC || p.tvState == TUNING ==> r == v
    ensures p.tvState == PLAYING ==>
      && (r.error <==> SelectBackend(caps) == Unsupported)
      && (SelectBackend(caps) == HlsJs ==> r.hls == Some(HlsInstance(p.channel.url, false)) && r.videoSrc == v.videoSrc)
      && (SelectBackend(caps) == NativeHls ==> r.videoSrc == Some(p.channel.url) && r.hls == v.hls)
      && (SelectBackend(caps) == Unsupported ==> r.hls == v.hls && r.videoSrc == v.videoSrc)
    ensures r.programInfo == v.programInfo && r.showOSD == v.showOSD && r.osdTimerArmed == v.osdTimerArmed
  {
    match p.tvState
    case OFF => v.(hls := None, videoSrc := None)
    case PLAYING =>
      var cleared := v.(error := false);
      (match SelectBackend(caps)
       case HlsJs => cleared.(hls := Some(HlsInstance(p.channel.url, false)))
       case NativeHls => cleared.(videoSrc := Some(p.channel.url))
       case Unsupported => cleared.(error := true))
    case _ => v
  }

  /** The streaming library reports a fatal error: the flag goes up and the instance is destroyed,
      but the reference to it stays held until the next cleanup. A destroyed instance reports
      nothing more. */
  function HlsFatalError(v: View): (r: View)
    ensures v.hls.Some? && !v.hls.value.destroyed ==> r == v.(error := true, hls := Some(v.hls.value.(destroyed := true)))
    ensures !(v.hls.Some? && !v.hls.value.destroyed) ==> r == v
  {
    match v.hls
    case Some(h) => if h.destroyed then v else v.(error := true, hls := Some(h.(destroyed := true)))
    case None => v
  }

  /** The video element reports an error while the native path has a source on it. */
  function MediaError(v: View): (r: View)
    ensures v.videoSrc.Some? ==> r == v.(error := true)
    ensures v.videoSrc.None? ==> r == v
  {
    if v.videoSrc.Some? then v.(error := true) else v
  }

  // ---------------------------------------------------------------- program-guide effect

  /** The guide effect's cleanup clears the pending OSD hide timer. */
  function GuideCleanup(v: View): View
  {
    v.(osdTimerArmed := false)
  }

  /** Entering PLAYING drops the old program info, shows the OSD and arms its hide timer. */
  function GuideEffect(v: View, p: Props): (r: View)
    ensures p.tvState == PLAYING ==> r == v.(programInfo := None, showOSD := true, osdTimerArmed := true)
    ensures p.tvState != PLAYING ==> r == v
  {
    if p.tvState == PLAYING then v.(programInfo := None, showOSD := true, osdTimerArmed := true) else v
  }

  /** The guide text arrives (whenever its request completes) and is shown as is. */
  function GuideReply(v: View, info: ProgramInfo): (r: View)
    ensures r.programInfo == Some(info) && r == v.(programInfo := r.programInfo)
  {
    v.(programInfo := Some(info))
  }

  /** The OSD hide timer runs, if it is still pending. */
  function OsdTimeout(v: View): (r: View)
    ensures v.osdTimerArmed ==> !r.showOSD && !r.osdTimerArmed
    ensures !v.osdTimerArmed ==> r == v
    ensures r.error == v.error && r.hls == v.hls && r.videoSrc == v.videoSrc && r.programInfo == v.programInfo
  {
    if v.osdTimerArmed then v.(showOSD := false, osdTimerArmed := false) else v
  }

  // ---------------------------------------------------------------- re-rendering

  predicate PlaybackDepsChanged(prev: Props, next: Props)
  {
    prev.channel.url != next.channel.url || prev.tvState != next.tvState
  }

  predicate GuideDepsChanged(prev: Props, next: Props)
  {
    prev.channel != next.channel || prev.tvState != next.tvState
  }

  /** A re-render from `prev` to `next` props: each effect whose dependencies changed runs its
      cleanup and then its body. The two effects touch disjoint parts of the view, so running them
      one after the other equals running all cleanups first. */
  function Commit(v: View, prev: Props, next: Props, caps: Caps): (r: View)
    ensures !PlaybackDepsChanged(prev, next) && !GuideDepsChanged(prev, next) ==> r == v
    ensures PlaybackDepsChanged(prev, next) && next.tvState != PLAYING ==> r.hls == None
    ensures PlaybackDepsChanged(prev, next) && next.tvState == OFF ==> r.videoSrc == None
    ensures PlaybackDepsChanged(prev, next) && next.tvState == PLAYING ==>
      (r.error <==> SelectBackend(caps) == Unsupported)
    ensures GuideDepsChanged(prev, next) && next.tvState == PLAYING ==>
      r.programInfo == None && r.showOSD && r.osdTimerArmed
    ensures GuideDepsChanged(prev, next) && next.tvState != PLAYING ==> !r.osdTimerArmed
  {
    var v1 := if PlaybackDepsChanged(prev, next) then PlaybackEffect(PlaybackCleanup(v), next, caps) else v;
    if GuideDepsChanged(prev, next) then GuideEffect(GuideCleanup(v1), next) else v1
  }

  // ---------------------------------------------------------------- properties

  /** Exactly one layer is on top, and the video is visible only for PLAYING without an error. */
  lemma OneLayerOnTop(tv: TVState, error: bool)
    ensures TopLayer(tv, error) == Video <==> !IsStatic(tv, error) && !IsOff(tv)
    ensures TopLayer(tv, error).Noise? <==> IsStatic(tv, error) && !IsOff(tv)
    ensures TopLayer(tv, error) == Blank <==> IsOff(tv)
  {
  }

  /** Nothing of the OSD or the mute corner is rendered while OFF. */
  lemma NothingOverlaidWhenOff(showOSD: bool, volume: int, isMuted: bool)
    ensures !OsdShown(OFF, showOSD)
    ensures MuteCorner(OFF, volume, isMuted) == Corner(false, false)
  {
  }
}
