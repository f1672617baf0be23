/**
 * The television controller of App.tsx: a record of power, channel position, display state, volume and
 * mute flag, driven by remote-control presses and by the `setTimeout` callbacks those presses schedule.
 *
 * Real time is replaced by a clock `now` (milliseconds) and an explicit list of pending timers in the
 * order they were set. `Fire` runs the timer with the earliest deadline (equal deadlines in the order
 * they were set: the order browsers use, which the HTML standard guarantees only for timers set at
 * the same instant with the same delay); `Elapse` lets time pass up to, but never
 * beyond, the next deadline. A nested `setTimeout` is queued only when its outer callback runs.
 */
module App {
  import opened Wrappers
  import opened Types
  import Channels

  const INITIAL_VOLUME: int := 50
  const VOLUME_STEP: int := 10
  const MAX_VOLUME: int := 100
  /** Power-on: STATIC for 1000 ms, then TUNING for 1500 ms, then PLAYING. */
  const WARM_UP_MS: nat := 1000
  const TUNING_MS: nat := 1500
  /** Channel change: STATIC, the index moves after 400 ms, PLAYING 600 ms later. */
  const SWAP_MS: nat := 400
  const SETTLE_MS: nat := 600

  /** What a timer callback does when it runs. */
  datatype TimerAction =
    | SetTuning          // warm-up done: show TUNING, then schedule SetPlaying
    | SetIndex(index: int) // channel swap: move the index, then schedule SetPlaying
    | SetPlaying         // show the picture

  datatype Timer = Timer(due: nat, action: TimerAction)

  datatype Tv = Tv(
    powerOn: bool,
    channelIndex: int,
    tvState: TVState,
    volume: int,
    isMuted: bool,
    now: nat,
    pending: seq<Timer>)

  /** The remote's buttons; `Number` carries the digit pressed. */
  datatype Button = Power | ChannelUp | ChannelDown | Number(num: int) | VolumeUp | VolumeDown | Mute

  datatype Event =
    | Press(button: Button) // a remote press at the current instant
    | Elapse(ms: nat)       // time passes, stopping at the next deadline
    | Fire                  // the timer with the earliest deadline runs

  function Min(a: int, b: int): int { if a <= b then a else b }
  function Max(a: int, b: int): int { if a >= b then a else b }

  /** The state the component mounts with: off, first channel, volume 50, not muted, no timers. */
  function Init(): (s: Tv)
    ensures !s.powerOn && s.tvState == OFF && s.pending == []
    ensures s.channelIndex == 0 && s.volume == INITIAL_VOLUME && !s.isMuted
  {
    Tv(false, 0, OFF, INITIAL_VOLUME, false, 0, [])
  }

  /** Reachable-state invariant: volume in [0, 100] on the 10-grid, a valid channel position,
      and every pending timer due no earlier than now and targeting a valid position. */
  predicate TimerOk(now: nat, t: Timer)
  {
    now <= t.due && (t.action.SetIndex? ==> 0 <= t.action.index < Channels.COUNT)
  }

  predicate Valid(s: Tv)
  {
    && 0 <= s.volume <= MAX_VOLUME
    && s.volume % VOLUME_STEP == 0
    && 0 <= s.channelIndex < Channels.COUNT
    && (s.powerOn ==> s.tvState != OFF)
    && (forall t :: t in s.pending ==> TimerOk(s.now, t))
  }

  /** The channel shown (`CHANNELS[channelIndex]`). */
  function CurrentChannel(s: Tv): Channel
    requires Valid(s)
  {
    Channels.TableShape();
    Channels.CHANNELS[s.channelIndex]
  }

  // ---------------------------------------------------------------- timers

  /** Position of the timer that runs next: the least deadline, the earliest set among equals. */
  function Earliest(p: seq<Timer>): (k: nat)
    requires |p| > 0
    ensures k < |p|
    ensures forall j :: 0 <= j < |p| ==> p[k].due <= p[j].due
    ensures forall j :: 0 <= j < k ==> p[k].due < p[j].due
  {
    if |p| == 1 then 0
    else
      var k' := Earliest(p[1..]);
      if p[0].due <= p[k' + 1].due then 0 else k' + 1
  }

  /** `p` without its `k`-th timer, the others in their order. */
  function RemoveAt(p: seq<Timer>, k: nat): (r: seq<Timer>)
    requires k < |p|
    ensures |r| == |p| - 1
    ensures forall t :: t in r ==> t in p
  {
    p[..k] + p[k + 1..]
  }

  /** Set a timer `delay` ms from now. */
  function Schedule(s: Tv, delay: nat, a: TimerAction): Tv
  {
    s.(pending := s.pending + [Timer(s.now + delay, a)])
  }

  /** Run one timer callback at its deadline `t.due`. The first-stage callbacks (warm-up done,
      channel swap) each set the nested SetPlaying timer when they run; SetPlaying sets none. */
  function RunTimer(s: Tv, t: Timer): (r: Tv)
    ensures r.now == t.due
    ensures r.powerOn == s.powerOn && r.volume == s.volume && r.isMuted == s.isMuted
    ensures t.action.SetTuning? ==>
      && r.tvState == TUNING && r.channelIndex == s.channelIndex
      && r.pending == s.pending + [Timer(t.due + TUNING_MS, SetPlaying)]
    ensures t.action.SetIndex? ==>
      && r.channelIndex == t.action.index && r.tvState == s.tvState
      && r.pending == s.pending + [Timer(t.due + SETTLE_MS, SetPlaying)]
    ensures t.action.SetPlaying? ==>
      && r.tvState == PLAYING && r.channelIndex == s.channelIndex && r.pending == s.pending
  {
    var s1 := s.(now := t.due);
    match t.action
    case SetTuning => Schedule(s1.(tvState := TUNING), TUNING_MS, SetPlaying)
    case SetIndex(i) => Schedule(s1.(channelIndex := i), SETTLE_MS, SetPlaying)
    case SetPlaying => s1.(tvState := PLAYING)
  }

  /** The next timer runs (`FireNextRunsEarliest` says which and what it does); with no timer
      pending nothing happens. */
  function FireNext(s: Tv): (r: Tv)
    ensures s.pending == [] ==> r == s
    ensures s.pending != [] ==> |r.pending| <= |s.pending|
    ensures r.powerOn == s.powerOn && r.volume == s.volume && r.isMuted == s.isMuted
  {
    if s.pending == [] then s
    else
      var k := Earliest(s.pending);
      RunTimer(s.(pending := RemoveAt(s.pending, k)), s.pending[k])
  }

  /** The timer that runs is the one with the least deadline, the earliest set among equals
      (`Earliest`). The clock moves to its deadline, every other timer stays pending in its order,
      and the callback's nested SetPlaying timer, if any, goes to the back. */
  lemma FireNextRunsEarliest(s: Tv)
    requires s.pending != []
    ensures var r := FireNext(s);
      var k := Earliest(s.pending);
      var t := s.pending[k];
      var rest := s.pending[..k] + s.pending[k + 1..];
      && r.now == t.due
      && (t.action.SetTuning? ==>
            r.tvState == TUNING && r.channelIndex == s.channelIndex
            && r.pending == rest + [Timer(t.due + TUNING_MS, SetPlaying)])
      && (t.action.SetIndex? ==>
            r.tvState == s.tvState && r.channelIndex == t.action.index
            && r.pending == rest + [Timer(t.due + SETTLE_MS, SetPlaying)])
      && (t.action.SetPlaying? ==>
            r.tvState == PLAYING && r.channelIndex == s.channelIndex && r.pending == rest)
  {
  }

  /** The deadline of the next timer, if any. */
  function NextDeadline(s: Tv): (d: Option<nat>)
    ensures d.None? <==> s.pending == []
    ensures d.Some? ==> forall t :: t in s.pending ==> d.value <= t.due
    ensures d.Some? ==> exists t :: t in s.pending && t.due == d.value
  {
    if s.pending == [] then None
    else
      var k := Earliest(s.pending);
      assert s.pending[k] in s.pending;
      Some(s.pending[k].due)
  }

  /** Time passes by `ms`, but stops at the next deadline so that no timer is skipped. */
  function ElapseBy(s: Tv, ms: nat): (r: Tv)
    ensures s.now <= r.now <= s.now + ms
    ensures r.now < s.now + ms ==> NextDeadline(s).Some? && NextDeadline(s).value <= r.now
    ensures forall t :: t in s.pending && s.now <= t.due ==> r.now <= t.due
    ensures r == s.(now := r.now)
  {
    match NextDeadline(s)
    case None => s.(now := s.now + ms)
    case Some(d) => s.(now := Max(s.now, Min(s.now + ms, d)))
  }

  // ---------------------------------------------------------------- remote handlers

  /** `handlePower`: off turns the set off at once and leaves its timers pending; on shows STATIC
      and sets the warm-up timer. */
  function HandlePower(s: Tv): (r: Tv)
    ensures s.powerOn ==> !r.powerOn && r.tvState == OFF && r.pending == s.pending
    ensures !s.powerOn ==>
      r.powerOn && r.tvState == STATIC && r.pending == s.pending + [Timer(s.now + WARM_UP_MS, SetTuning)]
    ensures r.channelIndex == s.channelIndex && r.volume == s.volume && r.isMuted == s.isMuted && r.now == s.now
  {
    if s.powerOn then s.(powerOn := false, tvState := OFF)
    else Schedule(s.(powerOn := true, tvState := STATIC), WARM_UP_MS, SetTuning)
  }

  /** The "validate index loop" of `changeChannel`: below zero becomes the last position,
      at or beyond the end becomes the first. */
  function WrapIndex(newIndex: int): (r: int)
    ensures 0 <= r < Channels.COUNT
    ensures 0 <= newIndex < Channels.COUNT ==> r == newIndex
    ensures newIndex < 0 ==> r == Channels.COUNT - 1
    ensures newIndex >= Channels.COUNT ==> r == 0
  {
    var v := if newIndex < 0 then Channels.COUNT - 1 else newIndex;
    if v >= Channels.COUNT then 0 else v
  }

  /** `changeChannel`: ignored while off; otherwise STATIC at once and a swap timer for the
      wrapped target. The index itself moves only when that timer runs. */
  function ChangeChannel(s: Tv, newIndex: int): (r: Tv)
    ensures !s.powerOn ==> r == s
    ensures s.powerOn ==>
      && r.tvState == STATIC
      && r.pending == s.pending + [Timer(s.now + SWAP_MS, SetIndex(WrapIndex(newIndex)))]
      && r.channelIndex == s.channelIndex
    ensures r.powerOn == s.powerOn && r.volume == s.volume && r.isMuted == s.isMuted && r.now == s.now
  {
    if !s.powerOn then s
    else Schedule(s.(tvState := STATIC), SWAP_MS, SetIndex(WrapIndex(newIndex)))
  }

  /** `handleNumber`: ignored while off; otherwise tunes to the channel whose id is `num`, if any. */
  function HandleNumber(s: Tv, num: int): (r: Tv)
    ensures !s.powerOn || !Channels.HasId(Channels.CHANNELS, num) ==> r == s
    ensures s.powerOn && Channels.HasId(Channels.CHANNELS, num) ==>
      exists k :: 0 <= k < |Channels.CHANNELS| && Channels.CHANNELS[k].id == num && r == ChangeChannel(s, k)
  {
    if !s.powerOn then s
    else
      match Channels.FindIndex(Channels.CHANNELS, num)
      case Some(k) => ChangeChannel(s, k)
      case None => s
  }

  function VolumeUpOf(v: int): int { Min(v + VOLUME_STEP, MAX_VOLUME) }
  function VolumeDownOf(v: int): int { Max(v - VOLUME_STEP, 0) }

  /** One remote press. Channel up/down take their target from the index current at press time. */
  function PressButton(s: Tv, b: Button): Tv
  {
    match b
    case Power => HandlePower(s)
    case ChannelUp => ChangeChannel(s, s.channelIndex + 1)
    case ChannelDown => ChangeChannel(s, s.channelIndex - 1)
    case Number(n) => HandleNumber(s, n)
    case VolumeUp => s.(volume := VolumeUpOf(s.volume))
    case VolumeDown => s.(volume := VolumeDownOf(s.volume))
    case Mute => s.(isMuted := !s.isMuted)
  }

  function Step(s: Tv, e: Event): Tv
  {
    match e
    case Press(b) => PressButton(s, b)
    case Elapse(ms) => ElapseBy(s, ms)
    case Fire => FireNext(s)
  }

  function Run(s: Tv, es: seq<Event>): Tv
    decreases |es|
  {
    if |es| == 0 then s else Run(Step(s, es[0]), es[1..])
  }

  // ---------------------------------------------------------------- properties

  lemma InitValid()
    ensures Valid(Init())
  {
  }

  lemma PressPreservesValid(s: Tv, b: Button)
    requires Valid(s)
    ensures Valid(PressButton(s, b))
  {
    if b.Number? && s.powerOn {
      var f := Channels.FindIndex(Channels.CHANNELS, b.num);
      if f.Some? {
        assert PressButton(s, b) == ChangeChannel(s, f.value);
      }
    }
  }

  lemma FirePreservesValid(s: Tv)
    requires Valid(s)
    ensures Valid(FireNext(s))
  {
    if s.pending != [] {
      var k := Earliest(s.pending);
      var t := s.pending[k];
      var rest := RemoveAt(s.pending, k);
      assert t in s.pending;
      forall u | u in rest ensures t.due <= u.due {
        var j :| 0 <= j < |s.pending| && s.pending[j] == u;
      }
    }
  }

  /** Every event keeps the invariant. */
  lemma StepPreservesValid(s: Tv, e: Event)
    requires Valid(s)
    ensures Valid(Step(s, e))
  {
    match e {
      case Press(b) => PressPreservesValid(s, b);
      case Elapse(ms) =>
      case Fire => FirePreservesValid(s);
    }
  }

  /** Reachable states satisfy the invariant: volume stays in [0, 100] and on the 10-grid, the
      channel position stays valid, whatever the presses and timer firings. */
  lemma {:induction false} RunPreservesValid(s: Tv, es: seq<Event>)
    requires Valid(s)
    ensures Valid(Run(s, es))
    decreases |es|
  {
    if |es| > 0 {
      StepPreservesValid(s, es[0]);
      RunPreservesValid(Step(s, es[0]), es[1..]);
    }
  }

  lemma ReachableValid(es: seq<Event>)
    ensures Valid(Run(Init(), es))
  {
    RunPreservesValid(Init(), es);
  }

  /** Volume presses move by one step, clamped at the ends, and change nothing but the volume —
      powered on or not. */
  lemma VolumePresses(s: Tv)
    requires Valid(s)
    ensures Step(s, Press(VolumeUp)) == s.(volume := if s.volume == MAX_VOLUME then MAX_VOLUME else s.volume + VOLUME_STEP)
    ensures Step(s, Press(VolumeDown)) == s.(volume := if s.volume == 0 then 0 else s.volume - VOLUME_STEP)
  {
  }

  /** Mute is an involution that touches only the mute flag, powered on or not. */
  lemma MuteInvolution(s: Tv)
    ensures Step(s, Press(Mute)).isMuted != s.isMuted
    ensures Step(s, Press(Mute)) == s.(isMuted := Step(s, Press(Mute)).isMuted)
    ensures Step(Step(s, Press(Mute)), Press(Mute)) == s
  {
  }

  /** While off, channel keys and number keys change nothing at all. */
  lemma ChannelKeysIgnoredWhenOff(s: Tv, n: int)
    requires !s.powerOn
    ensures Step(s, Press(ChannelUp)) == s
    ensures Step(s, Press(ChannelDown)) == s
    ensures Step(s, Press(Number(n))) == s
  {
  }

  /** The wrap sends -1 to the last position and COUNT to the first: on [-1, COUNT] it is
      reduction modulo the channel count. */
  lemma WrapIsModular(i: int)
    requires -1 <= i <= Channels.COUNT
    ensures WrapIndex(i) == (i + Channels.COUNT) % Channels.COUNT
  {
    Channels.TableShape();
  }

  /** Channel up from the last channel goes to the first, channel down from the first to the last;
      otherwise they move by one. */
  lemma UpDownTargets(s: Tv)
    requires Valid(s) && s.powerOn
    ensures Step(s, Press(ChannelUp)).pending == s.pending + [Timer(s.now + SWAP_MS, SetIndex((s.channelIndex + 1) % Channels.COUNT))]
    ensures Step(s, Press(ChannelDown)).pending == s.pending + [Timer(s.now + SWAP_MS, SetIndex((s.channelIndex + Channels.COUNT - 1) % Channels.COUNT))]
  {
    WrapIsModular(s.channelIndex + 1);
    WrapIsModular(s.channelIndex - 1);
  }

  /** Number keys: while on, digit d in 1..9 starts a change to position d - 1; every other number,
      the 0 key included, leaves the state unchanged. */
  lemma NumberKeys(s: Tv, d: int)
    requires s.powerOn
    ensures 1 <= d <= 9 ==> HandleNumber(s, d) == ChangeChannel(s, d - 1)
    ensures !(1 <= d <= 9) ==> HandleNumber(s, d) == s
  {
    Channels.DigitLookup(d);
  }

  /** Power-on from a quiet, switched-off set: STATIC at once, TUNING after 1000 ms, PLAYING
      1500 ms later, in that order and with nothing else pending in between. */
  lemma PowerOnSequence(s: Tv)
    requires !s.powerOn && s.pending == []
    ensures var a := Run(s, [Press(Power)]);
      a.powerOn && a.tvState == STATIC && a.now == s.now
    ensures var b := Run(s, [Press(Power), Fire]);
      b.tvState == TUNING && b.now == s.now + WARM_UP_MS && b.pending == [Timer(s.now + WARM_UP_MS + TUNING_MS, SetPlaying)]
    ensures var c := Run(s, [Press(Power), Fire, Fire]);
      c.powerOn && c.tvState == PLAYING && c.now == s.now + WARM_UP_MS + TUNING_MS && c.pending == []
      && c.channelIndex == s.channelIndex
  {
    var a := Step(s, Press(Power));
    var b := Step(a, Fire);
    var c := Step(b, Fire);
    assert Run(s, [Press(Power)]) == a;
    assert Run(s, [Press(Power), Fire]) == Run(a, [Fire]) == b;
    assert Run(s, [Press(Power), Fire, Fire]) == Run(a, [Fire, Fire]) == Run(b, [Fire]) == c;
  }

  /** A channel change on a quiet, powered set: STATIC at once with the old index, the new index
      after 400 ms (still STATIC), PLAYING 600 ms later. */
  lemma ChannelChangeSequence(s: Tv, target: int)
    requires s.powerOn && s.pending == []
    ensures var a := ChangeChannel(s, target);
      a.tvState == STATIC && a.channelIndex == s.channelIndex
    ensures var b := FireNext(ChangeChannel(s, target));
      b.tvState == STATIC && b.channelIndex == WrapIndex(target) && b.now == s.now + SWAP_MS
      && b.pending == [Timer(s.now + SWAP_MS + SETTLE_MS, SetPlaying)]
    ensures var c := FireNext(FireNext(ChangeChannel(s, target)));
      c.tvState == PLAYING && c.channelIndex == WrapIndex(target) && c.now == s.now + SWAP_MS + SETTLE_MS
      && c.pending == []
  {
    var a := ChangeChannel(s, target);
    FireOnlyOne(a);
    var b := FireNext(a);
    FirePlayingOnly(b, s.now + SWAP_MS + SETTLE_MS);
  }

  /** With two timers pending, the first runs unless the second is due strictly earlier. */
  lemma FireFirstOfTwo(s: Tv)
    requires |s.pending| == 2 && s.pending[0].due <= s.pending[1].due
    ensures FireNext(s) == RunTimer(s.(pending := [s.pending[1]]), s.pending[0])
  {
    assert Earliest(s.pending) == 0;
    assert RemoveAt(s.pending, 0) == [s.pending[1]];
  }

  lemma FireOnlyOne(s: Tv)
    requires |s.pending| == 1
    ensures FireNext(s) == RunTimer(s.(pending := []), s.pending[0])
  {
    assert RemoveAt(s.pending, 0) == [];
  }

  lemma PressChannelUp(s: Tv)
    ensures Step(s, Press(ChannelUp)) == ChangeChannel(s, s.channelIndex + 1)
  {
  }


  /** The swap timer at the front runs first when nothing behind it is due earlier. */
  lemma FireSwapFirst(c: Tv, t: nat, w: int, x: Timer)
    requires c.pending == [Timer(t, SetIndex(w)), x] && t <= x.due
    ensures FireNext(c) == c.(now := t, channelIndex := w, pending := [x, Timer(t + SETTLE_MS, SetPlaying)])
  {
    FireFirstOfTwo(c);
  }

  lemma FirePlayingFirst(c: Tv, t: nat, x: Timer)
    requires c.pending == [Timer(t, SetPlaying), x] && t <= x.due
    ensures FireNext(c) == c.(now := t, tvState := PLAYING, pending := [x])
  {
    FireFirstOfTwo(c);
  }

  lemma FirePlayingOnly(c: Tv, t: nat)
    requires c.pending == [Timer(t, SetPlaying)]
    ensures FireNext(c) == c.(now := t, tvState := PLAYING, pending := [])
  {
    FireOnlyOne(c);
  }

  /** Two swap timers to the same place, the second due no later than the first's PLAYING: the
      index moves twice to the same place, and PLAYING follows. */
  lemma TwoSwapsFire(b: Tv, w: int, t0: nat, t1: nat)
    requires b.pending == [Timer(t0, SetIndex(w)), Timer(t1, SetIndex(w))]
    requires t0 <= t1 <= t0 + SETTLE_MS
    ensures var f := FireNext(FireNext(FireNext(FireNext(b))));
      f.channelIndex == w && f.tvState == PLAYING && f.pending == [] && f.now == t1 + SETTLE_MS
  {
    FireSwapFirst(b, t0, w, Timer(t1, SetIndex(w)));
    var c := FireNext(b);
    assert c.pending == [Timer(t1, SetIndex(w)), Timer(t0 + SETTLE_MS, SetPlaying)];
    FireSwapFirst(c, t1, w, Timer(t0 + SETTLE_MS, SetPlaying));
    var d := FireNext(c);
    assert d.pending == [Timer(t0 + SETTLE_MS, SetPlaying), Timer(t1 + SETTLE_MS, SetPlaying)];
    assert d.channelIndex == w;
    TwoPlayingsFire(d, t0 + SETTLE_MS, t1 + SETTLE_MS);
  }

  /** Two PLAYING timers in deadline order both run, and the index stays put. */
  lemma TwoPlayingsFire(d: Tv, u0: nat, u1: nat)
    requires d.pending == [Timer(u0, SetPlaying), Timer(u1, SetPlaying)] && u0 <= u1
    ensures var f := FireNext(FireNext(d));
      f.channelIndex == d.channelIndex && f.tvState == PLAYING && f.pending == [] && f.now == u1
  {
    FirePlayingFirst(d, u0, Timer(u1, SetPlaying));
    var e := FireNext(d);
    FirePlayingOnly(e, u1);
  }

  /** Time passing short of the only deadline just advances the clock. */
  lemma ElapseBeforeOnly(a: Tv, d: nat)
    requires |a.pending| == 1 && a.now + d <= a.pending[0].due
    ensures ElapseBy(a, d) == a.(now := a.now + d)
  {
    assert Earliest(a.pending) == 0;
  }

  /** Channel up pressed twice, `d` ms apart, before the first swap timer runs: the second press
      still reads the old index, so the SAME target is queued twice; once the timers have run the
      set has moved by one channel only. A channel-up press is `ChangeChannel(s, s.channelIndex + 1)`
      (`PressChannelUp`). */
  lemma DoubleChannelUpMovesOnce(s: Tv, d: nat)
    requires s.powerOn && s.pending == [] && d < SWAP_MS
    ensures var w := WrapIndex(s.channelIndex + 1);
      var a := ElapseBy(ChangeChannel(s, s.channelIndex + 1), d);
      var b := ChangeChannel(a, a.channelIndex + 1);
      var r := FireNext(FireNext(FireNext(FireNext(b))));
      && b.pending == [Timer(s.now + SWAP_MS, SetIndex(w)), Timer(s.now + d + SWAP_MS, SetIndex(w))]
      && r.channelIndex == w && r.tvState == PLAYING && r.pending == []
      && r.now == s.now + d + SWAP_MS + SETTLE_MS
  {
    var w := WrapIndex(s.channelIndex + 1);
    var a0 := ChangeChannel(s, s.channelIndex + 1);
    assert a0.powerOn && a0.channelIndex == s.channelIndex && a0.now == s.now;
    assert a0.pending == [Timer(s.now + SWAP_MS, SetIndex(w))];
    ElapseBeforeOnly(a0, d);
    var a := ElapseBy(a0, d);
    assert a == a0.(now := s.now + d);
    var b := ChangeChannel(a, a.channelIndex + 1);
    assert b.pending == [Timer(s.now + SWAP_MS, SetIndex(w)), Timer(s.now + d + SWAP_MS, SetIndex(w))];
    TwoSwapsFire(b, w, s.now + SWAP_MS, s.now + d + SWAP_MS);
  }

  /** A channel change started while the warm-up's PLAYING timer is still pending is cut short: that
      timer runs before the swap, so the set shows PLAYING on the OLD channel straight after STATIC,
      and the index moves later while PLAYING. `changeChannel` cancels no timer. */
  lemma TuningCutsChannelChangeShort(s: Tv, target: int, t: nat)
    requires s.powerOn && s.pending == [Timer(t, SetPlaying)] && t <= s.now + SWAP_MS
    ensures var a := ChangeChannel(s, target);
      var b := FireNext(a);
      var c := FireNext(b);
      && a.tvState == STATIC
      && b.tvState == PLAYING && b.channelIndex == s.channelIndex
      && b.pending == [Timer(s.now + SWAP_MS, SetIndex(WrapIndex(target)))]
      && c.tvState == PLAYING && c.channelIndex == WrapIndex(target)
      && c.pending == [Timer(s.now + SWAP_MS + SETTLE_MS, SetPlaying)]
  {
    var w := WrapIndex(target);
    var a := ChangeChannel(s, target);
    assert a.pending == [Timer(t, SetPlaying), Timer(s.now + SWAP_MS, SetIndex(w))];
    FirePlayingFirst(a, t, Timer(s.now + SWAP_MS, SetIndex(w)));
    var b := FireNext(a);
    assert b.pending == [Timer(s.now + SWAP_MS, SetIndex(w))];
    FireOnlyOne(b);
  }

  lemma RunTwo(s: Tv, e1: Event, e2: Event, es: seq<Event>)
    ensures Run(s, [e1, e2] + es) == Run(Step(Step(s, e1), e2), es)
  {
    RunSteps(s, e1, [e2] + es);
    assert [e1, e2] + es == [e1] + ([e2] + es);
    RunSteps(Step(s, e1), e2, es);
  }

  lemma RunSteps(s: Tv, e: Event, es: seq<Event>)
    ensures Run(s, [e] + es) == Run(Step(s, e), es)
  {
    assert ([e] + es)[1..] == es;
  }

  /** Remote presses never queue SetPlaying directly: each adds at most one timer, and that timer is
      a first stage (SetTuning or SetIndex). So every SetPlaying timer is set by a warm-up or swap
      callback. (That does not make PLAYING follow the swap on screen: see
      `TuningCutsChannelChangeShort`.) */
  lemma PressQueuesOnlyFirstStages(s: Tv, b: Button)
    ensures var r := Step(s, Press(b));
      r.pending == s.pending
      || (|r.pending| == |s.pending| + 1 && r.pending[..|s.pending|] == s.pending
          && !r.pending[|s.pending|].action.SetPlaying?)
  {
    if b.Number? {
      match Channels.FindIndex(Channels.CHANNELS, b.num) {
        case Some(k) =>
        case None =>
      }
    }
  }

  /** While on, the set is never OFF. */
  lemma PoweredSetIsNotOff(es: seq<Event>)
    ensures Run(Init(), es).powerOn ==> Run(Init(), es).tvState != OFF
  {
    ReachableValid(es);
  }

  // ---------------------------------------------------------------- power-off and pending timers

  /** As written, power-off cancels no timer: a warm-up started just before is still pending, and
      when it runs the set shows TUNING, and then PLAYING, while the power is off. */
  lemma OffIsNotStable()
    ensures var r := Run(Init(), [Press(Power), Press(Power), Fire]);
      !r.powerOn && r.tvState == TUNING
    ensures var r := Run(Init(), [Press(Power), Press(Power), Fire, Fire]);
      !r.powerOn && r.tvState == PLAYING && r.pending == []
  {
    var a := Step(Init(), Press(Power));
    var b := Step(a, Press(Power));
    assert b.pending == [Timer(WARM_UP_MS, SetTuning)] && !b.powerOn && b.tvState == OFF;
    var c := Step(b, Fire);
    FireOnlyOne(b);
    assert c.pending == [Timer(WARM_UP_MS + TUNING_MS, SetPlaying)] && !c.powerOn && c.tvState == TUNING;
    var d := Step(c, Fire);
    FireOnlyOne(c);
    RunTwo(Init(), Press(Power), Press(Power), [Fire]);
    RunTwo(Init(), Press(Power), Press(Power), [Fire, Fire]);
    RunSteps(b, Fire, []);
    RunSteps(b, Fire, [Fire]);
    RunSteps(c, Fire, []);
  }

  /** The same off-then-on sequence moves the channel while the set is off: a swap timer set just
      before power-off still runs. */
  lemma SwapRunsWhileOff(s: Tv)
    requires Valid(s) && s.powerOn && s.pending == []
    ensures var r := FireNext(HandlePower(ChangeChannel(s, s.channelIndex + 1)));
      !r.powerOn && r.channelIndex == WrapIndex(s.channelIndex + 1)
  {
    var a := HandlePower(ChangeChannel(s, s.channelIndex + 1));
    FireOnlyOne(a);
  }

  /** The controller with power-off also clearing every pending timer (`clearTimeout` on the
      warm-up, tuning, swap and settle timers). */
  function StepCancelling(s: Tv, e: Event): (r: Tv)
    ensures e == Press(Power) && s.powerOn ==> !r.powerOn && r.tvState == OFF && r.pending == []
    ensures !(e == Press(Power) && s.powerOn) ==> r == Step(s, e)
  {
    if e == Press(Power) && s.powerOn then HandlePower(s).(pending := []) else Step(s, e)
  }

  function RunCancelling(s: Tv, es: seq<Event>): Tv
    decreases |es|
  {
    if |es| == 0 then s else RunCancelling(StepCancelling(s, es[0]), es[1..])
  }

  /** A switched-off set is dark and has nothing pending. */
  predicate OffIsQuiet(s: Tv)
  {
    !s.powerOn ==> s.tvState == OFF && s.pending == []
  }

  lemma CancellingStepKeepsOffQuiet(s: Tv, e: Event)
    requires OffIsQuiet(s)
    ensures OffIsQuiet(StepCancelling(s, e))
  {
    if !(e == Press(Power) && s.powerOn) {
      match e {
        case Press(b) =>
          if !s.powerOn && b.Number? {
            assert HandleNumber(s, b.num) == s;
          }
        case Elapse(ms) =>
        case Fire =>
      }
    }
  }

  /** With cancelling power-off, OFF is stable: whatever happens, a set whose power is off shows
      OFF and has no timer left that could change that. */
  lemma {:induction false} CancellingRunKeepsOffQuiet(s: Tv, es: seq<Event>)
    requires OffIsQuiet(s)
    ensures OffIsQuiet(RunCancelling(s, es))
    decreases |es|
  {
    if |es| > 0 {
      CancellingStepKeepsOffQuiet(s, es[0]);
      CancellingRunKeepsOffQuiet(StepCancelling(s, es[0]), es[1..]);
    }
  }

  lemma CancellingOffIsStable(es: seq<Event>)
    ensures var r := RunCancelling(Init(), es);
      !r.powerOn ==> r.tvState == OFF && r.pending == []
  {
    CancellingRunKeepsOffQuiet(Init(), es);
  }
}
