/**
 * The whole set: the controller of App.tsx rendering the screen of components/Screen.tsx. Every
 * controller step re-renders the screen with the current channel and display state, running the
 * screen's effects whose dependencies changed; what the streaming backend and the guide service
 * report back arrives as screen events.
 */
module Television {
  import opened Wrappers
  import opened Types
  import Channels
  import App
  import Screen

  datatype Set = Set(tv: App.Tv, view: Screen.View, caps: Screen.Caps)

  datatype SetEvent =
    | Controller(e: App.Event)        // a remote press, time passing, or a controller timer
    | HlsFatal                        // the streaming library reports a fatal error
    | VideoError                      // the video element reports an error
    | Guide(info: ProgramInfo)        // the guide text arrives
    | OsdHide                         // the 8-second OSD timer runs

  /** The props App renders Screen with. */
  function PropsOf(tv: App.Tv): (p: Screen.Props)
    requires App.Valid(tv)
    ensures p.channel == Channels.CHANNELS[tv.channelIndex] && p.tvState == tv.tvState
  {
    Screen.Props(App.CurrentChannel(tv), tv.tvState, tv.volume, tv.isMuted)
  }

  function Init(caps: Screen.Caps): Set
  {
    Set(App.Init(), Screen.InitialView(), caps)
  }

  function SetStep(s: Set, e: SetEvent): (r: Set)
    requires App.Valid(s.tv)
    ensures App.Valid(r.tv) && r.caps == s.caps
  {
    match e
    case Controller(ce) =>
      App.StepPreservesValid(s.tv, ce);
      var tv' := App.Step(s.tv, ce);
      s.(tv := tv', view := Screen.Commit(s.view, PropsOf(s.tv), PropsOf(tv'), s.caps))
    case HlsFatal => s.(view := Screen.HlsFatalError(s.view))
    case VideoError => s.(view := Screen.MediaError(s.view))
    case Guide(info) => s.(view := Screen.GuideReply(s.view, info))
    case OsdHide => s.(view := Screen.OsdTimeout(s.view))
  }

  function SetRun(s: Set, es: seq<SetEvent>): (r: Set)
    requires App.Valid(s.tv)
    ensures App.Valid(r.tv)
    decreases |es|
  {
    if |es| == 0 then s else SetRun(SetStep(s, es[0]), es[1..])
  }

  /** How the screen's playback state follows from the display state, the channel and the
      browser's capabilities. */
  predicate ViewConsistent(s: Set)
    requires App.Valid(s.tv)
  {
    var url := App.CurrentChannel(s.tv).url;
    var v := s.view;
    && (s.tv.tvState != PLAYING ==> v.hls == None && !v.osdTimerArmed)
    && (s.tv.tvState == OFF ==> v.videoSrc == None)
    && (Screen.SelectBackend(s.caps) != Screen.NativeHls ==> v.videoSrc == None)
    && (Screen.SelectBackend(s.caps) != Screen.HlsJs ==> v.hls == None)
    && (s.tv.tvState == PLAYING ==>
         match Screen.SelectBackend(s.caps)
         case HlsJs => v.hls.Some? && v.hls.value.url == url && (v.error <==> v.hls.value.destroyed)
         case NativeHls => v.videoSrc == Some(url)
         case Unsupported => v.error)
  }

  predicate Inv(s: Set)
  {
    App.Valid(s.tv) && ViewConsistent(s)
  }

  lemma InitInv(caps: Screen.Caps)
    ensures Inv(Init(caps))
  {
    App.InitValid();
  }

  lemma ControllerStepKeepsInv(s: Set, ce: App.Event)
    requires Inv(s)
    ensures Inv(SetStep(s, Controller(ce)))
  {
    App.StepPreservesValid(s.tv, ce);
    var tv' := App.Step(s.tv, ce);
    var prev := PropsOf(s.tv);
    var next := PropsOf(tv');
    var r := SetStep(s, Controller(ce));
    assert r.view == Screen.Commit(s.view, prev, next, s.caps);
    if !Screen.PlaybackDepsChanged(prev, next) {
      assert App.CurrentChannel(tv').url == App.CurrentChannel(s.tv).url;
    }
  }

  /** Every event keeps the screen consistent with the controller. */
  lemma SetStepKeepsInv(s: Set, e: SetEvent)
    requires Inv(s)
    ensures Inv(SetStep(s, e))
  {
    if e.Controller? {
      ControllerStepKeepsInv(s, e.e);
    }
  }

  lemma {:induction false} SetRunKeepsInv(s: Set, es: seq<SetEvent>)
    requires Inv(s)
    ensures Inv(SetRun(s, es))
    decreases |es|
  {
    if |es| > 0 {
      SetStepKeepsInv(s, es[0]);
      SetRunKeepsInv(SetStep(s, es[0]), es[1..]);
    }
  }

  /** In every reachable state: no streaming-library instance is held unless the set is PLAYING,
      none and no video source while OFF; while PLAYING the error flag is up exactly when the
      chosen backend failed — never, when the streaming library is in use, without its instance
      having been destroyed by a fatal error. */
  lemma Reachable(caps: Screen.Caps, es: seq<SetEvent>)
    ensures var s := SetRun(Init(caps), es);
      && (s.tv.tvState != PLAYING ==> s.view.hls == None)
      && (s.tv.tvState == OFF ==> s.view.videoSrc == None)
      && (s.tv.tvState == PLAYING && caps.hlsSupported ==>
            s.view.hls.Some? && (s.view.error <==> s.view.hls.value.destroyed))
      && (s.tv.tvState == PLAYING && !caps.hlsSupported && !caps.nativeHls ==> s.view.error)
  {
    InitInv(caps);
    SetRunKeepsInv(Init(caps), es);
    var s := SetRun(Init(caps), es);
    assert s.caps == caps by { RunKeepsCaps(Init(caps), es); }
    var b := Screen.SelectBackend(caps);
    assert caps.hlsSupported ==> b == Screen.HlsJs;
  }

  lemma {:induction false} RunKeepsCaps(s: Set, es: seq<SetEvent>)
    requires App.Valid(s.tv)
    ensures SetRun(s, es).caps == s.caps
    decreases |es|
  {
    if |es| > 0 {
      RunKeepsCaps(SetStep(s, es[0]), es[1..]);
    }
  }

  lemma SetRunCons(s: Set, e: SetEvent, es: seq<SetEvent>)
    requires App.Valid(s.tv)
    ensures SetRun(s, [e] + es) == SetRun(SetStep(s, e), es)
  {
    assert ([e] + es)[1..] == es;
  }

  /** Running four events is stepping through them one after the other. */
  lemma RunFour(s0: Set, e0: SetEvent, e1: SetEvent, e2: SetEvent, e3: SetEvent)
    requires App.Valid(s0.tv)
    ensures SetRun(s0, [e0, e1, e2, e3]) == SetStep(SetStep(SetStep(SetStep(s0, e0), e1), e2), e3)
  {
    var s1 := SetStep(s0, e0);
    var s2 := SetStep(s1, e1);
    var s3 := SetStep(s2, e2);
    SetRunCons(s0, e0, [e1, e2, e3]);
    assert [e0] + [e1, e2, e3] == [e0, e1, e2, e3];
    SetRunCons(s1, e1, [e2, e3]);
    assert [e1] + [e2, e3] == [e1, e2, e3];
    SetRunCons(s2, e2, [e3]);
    assert [e2] + [e3] == [e2, e3];
    SetRunCons(s3, e3, []);
    assert [e3] + [] == [e3];
  }

  /** The controller side of the off-during-warm-up run, step by step. */
  lemma OffDuringWarmUpController()
    ensures var a := App.Step(App.Init(), App.Press(App.Power));
      var b := App.Step(a, App.Press(App.Power));
      var c := App.Step(b, App.Fire);
      var d := App.Step(c, App.Fire);
      && a.tvState == STATIC && a.channelIndex == 0
      && b.tvState == OFF && b.channelIndex == 0
      && c.tvState == TUNING && c.channelIndex == 0
      && !d.powerOn && d.tvState == PLAYING && d.channelIndex == 0
  {
    var a := App.Step(App.Init(), App.Press(App.Power));
    var b := App.Step(a, App.Press(App.Power));
    App.FireOnlyOne(b);
    var c := App.Step(b, App.Fire);
    App.FireOnlyOne(c);
  }

  /** As written, a set switched off during its warm-up goes on to play the stream: after power
      on, power off and both controller timers, the power is off, yet the display state is PLAYING,
      a live streaming-library instance is held and the video layer is on top. */
  lemma StreamPlaysWhileOff()
    ensures var s := SetRun(Init(Screen.Caps(true, false)),
                            [Controller(App.Press(App.Power)), Controller(App.Press(App.Power)),
                             Controller(App.Fire), Controller(App.Fire)]);
      && !s.tv.powerOn
      && s.view.hls == Some(Screen.HlsInstance(Channels.CHANNELS[0].url, false))
      && Screen.TopLayer(s.tv.tvState, s.view.error) == Screen.Video
  {
    var s0 := Init(Screen.Caps(true, false));
    var e0 := Controller(App.Press(App.Power));
    var e2 := Controller(App.Fire);
    RunFour(s0, e0, e0, e2, e2);
    OffDuringWarmUpController();
    var s3 := SetStep(SetStep(SetStep(s0, e0), e0), e2);
    InitInv(s0.caps);
    SetStepKeepsInv(s0, e0);
    SetStepKeepsInv(SetStep(s0, e0), e0);
    SetStepKeepsInv(SetStep(SetStep(s0, e0), e0), e2);
    assert s3.tv.tvState == TUNING && s3.view.hls == None;
  }

  /** Each entry to PLAYING clears the error flag unless no backend is available, drops the old
      program info and shows the OSD with its hide timer armed. */
  lemma EnteringPlaying(s: Set, ce: App.Event)
    requires Inv(s) && s.tv.tvState != PLAYING
    requires App.Step(s.tv, ce).tvState == PLAYING
    ensures var r := SetStep(s, Controller(ce));
      && (r.view.error <==> !s.caps.hlsSupported && !s.caps.nativeHls)
      && r.view.programInfo == None && r.view.showOSD && r.view.osdTimerArmed
      && Screen.OsdShown(r.tv.tvState, r.view.showOSD)
  {
  }

  /** The error flag outlives the picture: after a fatal stream error, a channel change shows the
      noise overlay captioned NO SIGNAL rather than TUNING... until the next picture appears. */
  lemma NoSignalDuringRetune(s: Set)
    requires Inv(s) && s.tv.powerOn && s.tv.tvState == PLAYING && s.view.error
    ensures var r := SetStep(s, Controller(App.Press(App.ChannelUp)));
      Screen.TopLayer(r.tv.tvState, r.view.error) == Screen.Noise(Screen.NO_SIGNAL)
  {
  }
}
