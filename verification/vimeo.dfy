/** The Vimeo adapter (src/js/plugins/vimeo.js): a faux HTML5 media object over
    the Vimeo SDK. Writes to the media's properties become SDK requests; the
    values the getters report change only when the SDK confirms, or when the
    SDK's own events arrive. Each SDK request is logged in `calls`, and the
    continuation waiting on it is kept in `pending` under a request number, so
    a `.then` is a separate step the environment may take later, or never. */
module VimeoAdapter {
  import opened JsValues
  import opened Events
  import opened Negotiation
  import Facade

  /** The playback rates the Vimeo SDK accepts. */
  const AvailableSpeed: seq<real> := [0.5, 0.75, 1.0, 1.25, 1.5, 1.75, 2.0]

  /** Requests made of the Vimeo SDK. */
  datatype EmbedCall =
    | EmbedPlay
    | EmbedPause
    | SetVolume(volume: real)
    | SetCurrentTime(seconds: real)
    | SetPlaybackRate(rate: real)
    | SetLoop(loop: bool)
    | SetAutopause(autopause: bool)
    | GetVideoUrl
    | GetVideoTitle
    | GetCurrentTime
    | GetDuration
    | GetPaused

  // ---------------------------------------------------------------------
  // assurePlaybackState
  // ---------------------------------------------------------------------

  datatype PlaybackFlags = PlaybackFlags(paused: bool, hasPlayed: bool)

  datatype Assured = Assured(flags: PlaybackFlags, events: seq<Event>)

  /** `assurePlaybackState(play)`: remember that playback started, and make the
      paused flag agree with `play`, emitting `play` or `pause` only when the
      flag actually changes. */
  function Assure(f: PlaybackFlags, play: bool): (r: Assured)
    ensures r.flags.paused == !play
    ensures r.flags.hasPlayed == (f.hasPlayed || play)
    ensures |r.events| <= 1
    ensures r.events != [] <==> r.flags.paused != f.paused
    ensures r.events != [] ==> r.events[0] == (if play then Event.Play else Event.Pause)
  {
    var emitted := if f.paused == play then [if play then Event.Play else Event.Pause] else [];
    Assured(PlaybackFlags(!play, f.hasPlayed || play), emitted)
  }

  /** A run of `assurePlaybackState` calls, from the first to the last. */
  function RunAssure(f: PlaybackFlags, plays: seq<bool>): Assured
    decreases |plays|
  {
    if plays == [] then Assured(f, [])
    else
      var a := Assure(f, plays[0]);
      var rest := RunAssure(a.flags, plays[1..]);
      Assured(rest.flags, a.events + rest.events)
  }

  /** The event at position i of a log that alternates from paused state p. */
  function Toggled(p: bool, i: nat): Event {
    if (i % 2 == 0) == p then Event.Play else Event.Pause
  }

  predicate Alternates(es: seq<Event>, p: bool) {
    forall i :: 0 <= i < |es| ==> es[i] == Toggled(p, i)
  }

  /** Whatever sequence of play and pause requests and SDK events arrives, the
      emitted `play` and `pause` events alternate, starting with the one that
      leaves the initial state; their count's parity tells the final state; and
      `hasPlayed` is set once any of them asked to play. */
  lemma {:induction false} AssureAlternates(f: PlaybackFlags, plays: seq<bool>)
    ensures var r := RunAssure(f, plays);
      && Alternates(r.events, f.paused)
      && r.flags.paused == (f.paused == (|r.events| % 2 == 0))
      && |r.events| <= |plays|
      && (r.flags.hasPlayed <==> f.hasPlayed || true in plays)
    decreases |plays|
  {
    if plays != [] {
      var a := Assure(f, plays[0]);
      var rest := RunAssure(a.flags, plays[1..]);
      AssureAlternates(a.flags, plays[1..]);
      assert plays == [plays[0]] + plays[1..];
      assert true in plays <==> plays[0] || true in plays[1..];
      if a.events != [] {
        assert a.events == [Toggled(f.paused, 0)];
        AlternatesCons(a.events[0], rest.events, f.paused);
        ParityStep(|rest.events|);
      } else {
        assert a.events + rest.events == rest.events;
      }
    }
  }

  /** One event that leaves state p, then a log alternating from the other state. */
  lemma AlternatesCons(e: Event, rest: seq<Event>, p: bool)
    requires e == Toggled(p, 0) && Alternates(rest, !p)
    ensures Alternates([e] + rest, p)
  {
    forall i | 1 <= i < |rest| + 1 ensures ([e] + rest)[i] == Toggled(p, i) {
      assert ([e] + rest)[i] == rest[i - 1];
      ParityStep(i - 1);
    }
  }

  lemma ParityStep(n: nat)
    ensures ((n + 1) % 2 == 0) == !(n % 2 == 0)
  {
  }

  /** Two calls with the same argument in a row emit at most one event. */
  lemma AssureTwice(f: PlaybackFlags, play: bool)
    ensures |RunAssure(f, [play, play]).events| <= 1
    ensures RunAssure(f, [play, play]).flags == Assure(f, play).flags
  {
    var a := Assure(f, play);
    var b := Assure(a.flags, play);
    assert b.events == [] && b.flags == a.flags;
    assert [play, play][1..] == [play];
    assert [play][1..] == [];
    assert RunAssure(a.flags, [play]) == Assured(b.flags, b.events + RunAssure(b.flags, []).events);
  }

  // ---------------------------------------------------------------------
  // The currentTime setter's promise chain
  // ---------------------------------------------------------------------

  /** A seek in flight: the target, whether the player must be muted and paused
      around it (paused and never played), the volume to restore, and how many
      requests of its plan have been made. The chain always waits on the
      promise of the last request made (or, when none was made, on the
      already settled `Promise.resolve(false)`). */
  datatype SeekChain = SeekChain(time: real, restorePause: bool, volume: real, done: nat)

  /** The requests a seek makes when every step succeeds: mute, seek, pause,
      restore the volume when it must restore the pause; otherwise just seek. */
  function SeekPlan(c: SeekChain): (plan: seq<EmbedCall>)
    ensures SetCurrentTime(c.time) in plan
    ensures c.restorePause ==> plan[0] == SetVolume(0.0) && plan[|plan| - 1] == SetVolume(c.volume)
  {
    if c.restorePause then [SetVolume(0.0), SetCurrentTime(c.time), EmbedPause, SetVolume(c.volume)]
    else [SetCurrentTime(c.time)]
  }

  /** The chain never counts more requests than its plan holds. */
  predicate InPlan(c: SeekChain) {
    c.done <= |SeekPlan(c)|
  }

  /** The requests made so far. */
  function Issued(c: SeekChain): seq<EmbedCall>
    requires InPlan(c)
  {
    SeekPlan(c)[..c.done]
  }

  datatype SeekStep = SeekStep(next: Option<SeekChain>, calls: seq<EmbedCall>)

  /** The link the chain waits on resolves: make the next request, if any. */
  function SeekNext(c: SeekChain): (r: SeekStep)
    requires InPlan(c)
    ensures r.next.Some? ==> InPlan(r.next.value) && SeekPlan(r.next.value) == SeekPlan(c)
    ensures r.next.Some? ==> Issued(r.next.value) == Issued(c) + r.calls && |r.calls| == 1
    ensures r.next.None? ==> r.calls == [] && Issued(c) == SeekPlan(c)
  {
    var plan := SeekPlan(c);
    if c.done < |plan| then
      assert plan[..c.done + 1] == plan[..c.done] + [plan[c.done]];
      SeekStep(Some(c.(done := c.done + 1)), [plan[c.done]])
    else SeekStep(None, [])
  }

  /** The requests a chain makes as its links settle one by one, `true` for a
      resolved link; a rejected link ends the chain. */
  function RunSeek(c: SeekChain, outcomes: seq<bool>): seq<EmbedCall>
    requires InPlan(c)
    decreases |outcomes|
  {
    if outcomes == [] || !outcomes[0] then []
    else
      var step := SeekNext(c);
      step.calls + if step.next.Some? then RunSeek(step.next.value, outcomes[1..]) else []
  }

  /** A run that starts with a resolved link: the next request, then the rest. */
  lemma RunSeekStep(c: SeekChain, outcomes: seq<bool>)
    requires InPlan(c) && outcomes != [] && outcomes[0] && SeekNext(c).next.Some?
    ensures RunSeek(c, outcomes) == SeekNext(c).calls + RunSeek(SeekNext(c).next.value, outcomes[1..])
  {
  }

  lemma ConcatAssoc(a: seq<EmbedCall>, b: seq<EmbedCall>, c: seq<EmbedCall>)
    ensures a + (b + c) == (a + b) + c
  {
  }

  /** One resolved link moves the chain on: what it has issued, followed by
      what the rest of the run issues, is unchanged. */
  lemma SeekUnfold(c: SeekChain, outcomes: seq<bool>)
    requires InPlan(c) && outcomes != [] && outcomes[0] && SeekNext(c).next.Some?
    ensures var n := SeekNext(c).next.value;
      Issued(c) + RunSeek(c, outcomes) == Issued(n) + RunSeek(n, outcomes[1..])
  {
    var step := SeekNext(c);
    RunSeekStep(c, outcomes);
    ConcatAssoc(Issued(c), step.calls, RunSeek(step.next.value, outcomes[1..]));
  }

  /** Whatever the SDK answers, a seek makes its requests in the order of the
      plan: the volume is never restored before the seek and the pause. */
  lemma {:induction false} SeekFollowsPlan(c: SeekChain, outcomes: seq<bool>)
    requires InPlan(c)
    ensures Issued(c) + RunSeek(c, outcomes) <= SeekPlan(c)
    decreases |outcomes|
  {
    if outcomes == [] || !outcomes[0] || SeekNext(c).next.None? {
      assert RunSeek(c, outcomes) == [];
      assert Issued(c) + RunSeek(c, outcomes) == SeekPlan(c)[..c.done];
    } else {
      SeekUnfold(c, outcomes);
      SeekFollowsPlan(SeekNext(c).next.value, outcomes[1..]);
    }
  }

  /** When every link resolves, a seek makes every request of its plan. */
  lemma {:induction false} SeekCompletes(c: SeekChain, outcomes: seq<bool>)
    requires InPlan(c)
    requires |outcomes| >= |SeekPlan(c)| - c.done
    requires forall i :: 0 <= i < |outcomes| ==> outcomes[i]
    ensures Issued(c) + RunSeek(c, outcomes) == SeekPlan(c)
    decreases |outcomes|
  {
    if SeekNext(c).next.None? {
      assert RunSeek(c, outcomes) == [];
      assert Issued(c) + RunSeek(c, outcomes) == Issued(c);
    } else {
      assert outcomes != [] && outcomes[0];
      SeekUnfold(c, outcomes);
      assert forall i :: 0 <= i < |outcomes[1..]| ==> outcomes[1..][i] == outcomes[i + 1];
      SeekCompletes(SeekNext(c).next.value, outcomes[1..]);
    }
  }

  /** The chain a write starts; a muting request is made at once only when the
      pause must be restored. */
  function SeekStart(time: real, restorePause: bool, volume: real): (c: SeekChain)
    ensures InPlan(c)
    ensures Issued(c) == if restorePause then [SetVolume(0.0)] else []
  {
    SeekChain(time, restorePause, volume, if restorePause then 1 else 0)
  }

  /** A seek while paused before the first play: muted first, then the seek,
      then the pause, then the old volume, when every link resolves. */
  lemma SeekWhilePausedBeforePlay(time: real, volume: real)
    ensures var c := SeekStart(time, true, volume);
      Issued(c) + RunSeek(c, [true, true, true]) ==
        [SetVolume(0.0), SetCurrentTime(time), EmbedPause, SetVolume(volume)]
  {
    SeekCompletes(SeekStart(time, true, volume), [true, true, true]);
  }

  // ---------------------------------------------------------------------
  // Small decisions of the setters and callbacks
  // ---------------------------------------------------------------------

  /** `parseInt(x, 10)` of a progress fraction in plain decimal notation: the
      integer part, truncated toward zero. */
  function ParseIntOfNumber(x: real): (n: int)
    ensures x >= 0.0 ==> n as real <= x < n as real + 1.0
    ensures x < 0.0 ==> n as real - 1.0 < x <= n as real
  {
    if x >= 0.0 then x.Floor else -((-x).Floor)
  }

  /** `canplaythrough` is emitted for a progress fraction exactly when its
      integer part is 1. */
  predicate FullyLoaded(percent: real) {
    ParseIntOfNumber(percent) == 1
  }

  lemma FullyLoadedRange(percent: real)
    ensures FullyLoaded(percent) <==> 1.0 <= percent < 2.0
  {
  }

  /** The toggle a `muted` write asks for: a boolean input, otherwise false. */
  function MutedToggle(input: JsValue): (t: bool)
    ensures t <==> input == Bool(true)
  {
    if IsBoolean(input) then input.b else false
  }

  /** The toggle a `loop` write asks for: a boolean input, otherwise the
      configured `loop.active`. */
  function LoopToggle(input: JsValue, active: bool): (t: bool)
    ensures IsBoolean(input) ==> t == input.b
    ensures !IsBoolean(input) ==> t == active
  {
    if IsBoolean(input) then input.b else active
  }

  /** The `loop` getter's value before any loop write is confirmed, as written:
      `let { loop } = player.config` binds the `config.loop` object (shown here
      as a non-empty object), not its `active` flag. The configured flag
      `active` is taken only to match `InitialLoop`: the binding as written
      ignores it. */
  function InitialLoopAsWritten(active: bool): (v: JsValue)
    ensures v.Obj? && !v.empty
  {
    Obj(false)
  }

  /** With looping configured off, the facade's `loop` getter (`Boolean` of the
      media's `loop`) still reports true until a loop write is confirmed. */
  lemma InitialLoopReadsTrue()
    ensures InitialLoopAsWritten(false) != Bool(false) && Truthy(InitialLoopAsWritten(false))
  {
  }

  /** The initial `loop` value the getter evidently should report: the
      configured `loop.active` flag. */
  function InitialLoop(active: bool): (v: JsValue)
    ensures IsBoolean(v) && (Truthy(v) <==> active)
  {
    Bool(active)
  }

  /** Every available speed is one a `speed` write on the facade accepts. */
  lemma AvailableSpeedsAccepted(s: real, stored: JsValue, selected: real)
    requires s in AvailableSpeed
    ensures Facade.ResolveSpeed(Num(s), stored, selected, AvailableSpeed) == Some(s)
  {
  }

  // ---------------------------------------------------------------------
  // The faux media object
  // ---------------------------------------------------------------------

  /** The continuation an SDK request is awaited by. */
  datatype Pending =
    | SeekLink(chain: SeekChain)
    | RateWrite(rate: real)
    | VolumeWrite(volume: real)
    | MutedWrite(toggle: bool)
    | LoopWrite(toggle: bool)
    | SourceQuery
    | AutopauseQuery
    | TitleQuery
    | TimeQuery
    | DurationQuery(initial: bool)
    | PausedQuery

  predicate WellPending(k: Pending) {
    k.SeekLink? ==> InPlan(k.chain)
  }

  class Adapter {
    // the embed and the media's own fields
    var hasPlayed: bool            // embed.hasPlayed
    var paused: bool
    var seeking: bool
    var duration: Option<real>     // None until the SDK reports one
    var buffered: Option<real>
    var errored: bool
    // the values the property getters report
    var currentTime: real
    var speed: real
    var volume: real
    var muted: bool
    var loop: JsValue
    var currentSrc: Option<string>
    // what the adapter writes back into the player
    var speedOptions: seq<real>    // player.options.speed
    var autopause: bool            // player.config.autopause
    var title: Option<string>      // player.config.title
    const fauxDuration: Option<real>
    // what the adapter emits, asks of the SDK, and awaits
    var events: seq<Event>
    var calls: seq<EmbedCall>
    var pending: map<nat, Pending>
    var nextRequest: nat

    ghost predicate Valid()
      reads this
    {
      forall id :: id in pending ==> id < nextRequest && WellPending(pending[id])
    }

    /** The `duration` the facade reports. */
    function Duration(): real
      reads this
    {
      Facade.EffectiveDuration(fauxDuration, duration)
    }

    /** The `ended` getter: the current time equals the facade's duration, which
        is 0 until a duration is known. */
    function Ended(): (r: bool)
      reads this
      ensures fauxDuration.None? && duration.None? ==> (r <==> currentTime == 0.0)
      ensures (fauxDuration.None? || fauxDuration == Some(0.0)) && duration.Some? ==> (r <==> currentTime == duration.value)
    {
      currentTime == Duration()
    }

    /** `ready(player)` as far as the media object goes: paused at 0, the
        getters seeded from the configuration, and the initial queries for the
        video URL, autopause, title, current time and duration made in order. */
    constructor (config: Facade.Config, options: seq<real>, autopauseOption: bool)
      ensures Valid()
      ensures paused && !hasPlayed && !seeking && currentTime == 0.0 && duration.None? && buffered.None? && !errored
      ensures speed == config.speedSelected && volume == config.volume && muted == config.muted
      ensures loop == InitialLoop(config.loopActive) && currentSrc.None?
      ensures speedOptions == options && autopause == autopauseOption && title.None? && fauxDuration == config.duration
      ensures events == []
      ensures calls == [GetVideoUrl, SetAutopause(autopauseOption), GetVideoTitle, GetCurrentTime, GetDuration]
      ensures pending == map[0 := SourceQuery, 1 := AutopauseQuery, 2 := TitleQuery, 3 := TimeQuery, 4 := DurationQuery(true)]
      ensures nextRequest == 5
    {
      hasPlayed := false;
      paused := true;
      seeking := false;
      duration := None;
      buffered := None;
      errored := false;
      currentTime := 0.0;
      speed := config.speedSelected;
      volume := config.volume;
      muted := config.muted;
      loop := InitialLoop(config.loopActive);
      currentSrc := None;
      speedOptions := options;
      autopause := autopauseOption;
      title := None;
      fauxDuration := config.duration;
      events := [];
      calls := [GetVideoUrl, SetAutopause(autopauseOption), GetVideoTitle, GetCurrentTime, GetDuration];
      pending := map[0 := SourceQuery, 1 := AutopauseQuery, 2 := TitleQuery, 3 := TimeQuery, 4 := DurationQuery(true)];
      nextRequest := 5;
    }

    /** Make an SDK request and await it. */
    method Request(call: EmbedCall, k: Pending)
      requires Valid() && WellPending(k)
      modifies this`calls, this`pending, this`nextRequest
      ensures Valid()
      ensures calls == old(calls) + [call]
      ensures pending == old(pending)[old(nextRequest) := k] && nextRequest == old(nextRequest) + 1
    {
      calls := calls + [call];
      pending := pending[nextRequest := k];
      nextRequest := nextRequest + 1;
    }

    /** A continuation the SDK answered leaves the awaited set. */
    method Settle(id: nat)
      requires Valid() && id in pending
      modifies this`pending
      ensures Valid() && pending == old(pending) - {id}
    {
      pending := pending - {id};
    }

    method Emit(es: seq<Event>)
      modifies this`events
      ensures events == old(events) + es
    {
      events := events + es;
    }

    method AssurePlayback(play: bool)
      modifies this`paused, this`hasPlayed, this`events
      ensures var r := Assure(PlaybackFlags(old(paused), old(hasPlayed)), play);
        paused == r.flags.paused && hasPlayed == r.flags.hasPlayed && events == old(events) + r.events
    {
      var r := Assure(PlaybackFlags(paused, hasPlayed), play);
      paused, hasPlayed := r.flags.paused, r.flags.hasPlayed;
      Emit(r.events);
    }

    /** `media.play()`. */
    method Play()
      modifies this`paused, this`hasPlayed, this`events, this`calls
      ensures var r := Assure(PlaybackFlags(old(paused), old(hasPlayed)), true);
        paused == r.flags.paused && hasPlayed == r.flags.hasPlayed && events == old(events) + r.events
      ensures calls == old(calls) + [EmbedPlay]
    {
      AssurePlayback(true);
      calls := calls + [EmbedPlay];
    }

    /** `media.pause()`. */
    method Pause()
      modifies this`paused, this`hasPlayed, this`events, this`calls
      ensures var r := Assure(PlaybackFlags(old(paused), old(hasPlayed)), false);
        paused == r.flags.paused && hasPlayed == r.flags.hasPlayed && events == old(events) + r.events
      ensures calls == old(calls) + [EmbedPause]
    {
      AssurePlayback(false);
      calls := calls + [EmbedPause];
    }

    /** `media.currentTime = time`: mark seeking and start the chain; the
        reported current time does not move until the SDK reports one. */
    method WriteCurrentTime(time: real)
      requires Valid()
      modifies this`seeking, this`events, this`calls, this`pending, this`nextRequest
      ensures Valid()
      ensures seeking && events == old(events) + [Seeking]
      ensures var c := SeekStart(time, paused && !hasPlayed, volume);
        && calls == old(calls) + Issued(c)
        && pending == old(pending)[old(nextRequest) := SeekLink(c)]
        && nextRequest == old(nextRequest) + 1
    {
      var c := SeekStart(time, paused && !hasPlayed, volume);
      seeking := true;
      Emit([Seeking]);
      if c.restorePause {
        Request(SetVolume(0.0), SeekLink(c));
      } else {
        // the chain starts from an already settled promise
        pending := pending[nextRequest := SeekLink(c)];
        nextRequest := nextRequest + 1;
      }
    }

    /** The link a seek chain waits on resolves. */
    method ResolveSeekLink(id: nat)
      requires Valid() && id in pending && pending[id].SeekLink?
      modifies this`calls, this`pending, this`nextRequest
      ensures Valid()
      ensures var step := SeekNext(old(pending[id]).chain);
        && calls == old(calls) + step.calls
        && (step.next.Some? ==>
              pending == (old(pending) - {id})[old(nextRequest) := SeekLink(step.next.value)]
              && nextRequest == old(nextRequest) + 1)
        && (step.next.None? ==> pending == old(pending) - {id} && nextRequest == old(nextRequest))
    {
      var step := SeekNext(pending[id].chain);
      Settle(id);
      if step.next.Some? {
        Request(step.calls[0], SeekLink(step.next.value));
      }
    }

    /** `media.stop()`: the facade's `pause()` (only while playing), then its
        `currentTime = 0` (only once a duration is known). */
    method Stop(ready: bool)
      requires Valid()
      modifies this`paused, this`hasPlayed, this`events, this`calls, this`seeking, this`pending, this`nextRequest
      ensures Valid()
      ensures var wasPlaying := ready && !old(paused) && !old(Ended());
        var seek := old(Duration()) != 0.0;
        var c := SeekStart(0.0, paused && !hasPlayed, volume);
        && paused == (old(paused) || wasPlaying) && hasPlayed == old(hasPlayed)
        && seeking == (old(seeking) || seek)
        && events == old(events) + (if wasPlaying then [Event.Pause] else []) + (if seek then [Seeking] else [])
        && calls == old(calls) + (if wasPlaying then [EmbedPause] else []) + (if seek then Issued(c) else [])
        && pending == (if seek then old(pending)[old(nextRequest) := SeekLink(c)] else old(pending))
    {
      if ready && !paused && !Ended() {
        Pause();
      }
      var d := Duration();
      if d != 0.0 {
        WriteCurrentTime(Facade.SeekTarget(Num(0.0), d));
      }
    }

    /** `media.playbackRate = rate`. */
    method WritePlaybackRate(rate: real)
      requires Valid()
      modifies this`calls, this`pending, this`nextRequest
      ensures Valid()
      ensures calls == old(calls) + [SetPlaybackRate(rate)]
      ensures pending == old(pending)[old(nextRequest) := RateWrite(rate)] && nextRequest == old(nextRequest) + 1
    {
      Request(SetPlaybackRate(rate), RateWrite(rate));
    }

    /** `media.volume = v`. */
    method WriteVolume(v: real)
      requires Valid()
      modifies this`calls, this`pending, this`nextRequest
      ensures Valid()
      ensures calls == old(calls) + [SetVolume(v)]
      ensures pending == old(pending)[old(nextRequest) := VolumeWrite(v)] && nextRequest == old(nextRequest) + 1
    {
      Request(SetVolume(v), VolumeWrite(v));
    }

    /** `media.muted = input`: muting sets the SDK volume to 0, unmuting to the
        configured volume. */
    method WriteMuted(input: JsValue, configVolume: real)
      requires Valid()
      modifies this`calls, this`pending, this`nextRequest
      ensures Valid()
      ensures var t := MutedToggle(input);
        && calls == old(calls) + [SetVolume(if t then 0.0 else configVolume)]
        && pending == old(pending)[old(nextRequest) := MutedWrite(t)] && nextRequest == old(nextRequest) + 1
    {
      var t := MutedToggle(input);
      Request(SetVolume(if t then 0.0 else configVolume), MutedWrite(t));
    }

    /** `media.loop = input`. */
    method WriteLoop(input: JsValue, active: bool)
      requires Valid()
      modifies this`calls, this`pending, this`nextRequest
      ensures Valid()
      ensures var t := LoopToggle(input, active);
        && calls == old(calls) + [SetLoop(t)]
        && pending == old(pending)[old(nextRequest) := LoopWrite(t)] && nextRequest == old(nextRequest) + 1
    {
      var t := LoopToggle(input, active);
      Request(SetLoop(t), LoopWrite(t));
    }

    /** The SDK confirms a rate change: the getter reports it and `ratechange`
        is emitted. */
    method ConfirmRate(id: nat)
      requires Valid() && id in pending && pending[id].RateWrite?
      modifies this`speed, this`events, this`pending
      ensures Valid() && pending == old(pending) - {id}
      ensures speed == old(pending[id]).rate && events == old(events) + [RateChange]
    {
      speed := pending[id].rate;
      Settle(id);
      Emit([RateChange]);
    }

    /** The SDK confirms a volume change. */
    method ConfirmVolume(id: nat)
      requires Valid() && id in pending && pending[id].VolumeWrite?
      modifies this`volume, this`events, this`pending
      ensures Valid() && pending == old(pending) - {id}
      ensures volume == old(pending[id]).volume && events == old(events) + [VolumeChange]
    {
      volume := pending[id].volume;
      Settle(id);
      Emit([VolumeChange]);
    }

    /** The SDK confirms the volume a `muted` write asked for. */
    method ConfirmMuted(id: nat)
      requires Valid() && id in pending && pending[id].MutedWrite?
      modifies this`muted, this`events, this`pending
      ensures Valid() && pending == old(pending) - {id}
      ensures muted == old(pending[id]).toggle && events == old(events) + [VolumeChange]
    {
      muted := pending[id].toggle;
      Settle(id);
      Emit([VolumeChange]);
    }

    /** The SDK confirms a loop change; no event is emitted. */
    method ConfirmLoop(id: nat)
      requires Valid() && id in pending && pending[id].LoopWrite?
      modifies this`loop, this`pending
      ensures Valid() && pending == old(pending) - {id}
      ensures loop == Bool(old(pending[id]).toggle)
    {
      loop := Bool(pending[id].toggle);
      Settle(id);
    }

    /** The SDK rejects a request. A rejected rate change leaves normal speed as
        the only option; every other rejection changes nothing (a rejected seek
        link ends its chain). */
    method Reject(id: nat)
      requires Valid() && id in pending
      modifies this`speedOptions, this`pending
      ensures Valid() && pending == old(pending) - {id}
      ensures speedOptions == if old(pending[id]).RateWrite? then [1.0] else old(speedOptions)
    {
      if pending[id].RateWrite? {
        speedOptions := [1.0];
      }
      Settle(id);
    }

    /** `getVideoUrl()` answers. */
    method ReplySource(id: nat, url: string)
      requires Valid() && id in pending && pending[id].SourceQuery?
      modifies this`currentSrc, this`pending
      ensures Valid() && pending == old(pending) - {id} && currentSrc == Some(url)
    {
      currentSrc := Some(url);
      Settle(id);
    }

    /** `setAutopause(...)` answers with the state the SDK settled on. */
    method ReplyAutopause(id: nat, state: bool)
      requires Valid() && id in pending && pending[id].AutopauseQuery?
      modifies this`autopause, this`pending
      ensures Valid() && pending == old(pending) - {id} && autopause == state
    {
      autopause := state;
      Settle(id);
    }

    /** `getVideoTitle()` answers. */
    method ReplyTitle(id: nat, t: string)
      requires Valid() && id in pending && pending[id].TitleQuery?
      modifies this`title, this`pending
      ensures Valid() && pending == old(pending) - {id} && title == Some(t)
    {
      title := Some(t);
      Settle(id);
    }

    /** `getCurrentTime()` answers. */
    method ReplyTime(id: nat, seconds: real)
      requires Valid() && id in pending && pending[id].TimeQuery?
      modifies this`currentTime, this`events, this`pending
      ensures Valid() && pending == old(pending) - {id}
      ensures currentTime == seconds && events == old(events) + [TimeUpdate]
    {
      currentTime := seconds;
      Settle(id);
      Emit([TimeUpdate]);
    }

    /** `getDuration()` answers: the first query always records the value; the
        ones made on `progress` only when it differs from the recorded one. */
    method ReplyDuration(id: nat, value: real)
      requires Valid() && id in pending && pending[id].DurationQuery?
      modifies this`duration, this`events, this`pending
      ensures Valid() && pending == old(pending) - {id}
      ensures var changed := old(pending[id]).initial || old(duration) != Some(value);
        && duration == (if changed then Some(value) else old(duration))
        && events == old(events) + (if changed then [DurationChange] else [])
    {
      var changed := pending[id].initial || duration != Some(value);
      Settle(id);
      if changed {
        duration := Some(value);
        Emit([DurationChange]);
      }
    }

    /** `getPaused()`, asked on `loaded`, answers: the playback state follows
        it, and `playing` is emitted when the video plays. */
    method ReplyPaused(id: nat, p: bool)
      requires Valid() && id in pending && pending[id].PausedQuery?
      modifies this`paused, this`hasPlayed, this`events, this`pending
      ensures Valid() && pending == old(pending) - {id}
      ensures var r := Assure(PlaybackFlags(old(paused), old(hasPlayed)), !p);
        && paused == r.flags.paused && hasPlayed == r.flags.hasPlayed
        && events == old(events) + r.events + (if p then [] else [Playing])
    {
      Settle(id);
      AssurePlayback(!p);
      if !p {
        Emit([Playing]);
      }
    }

    /** SDK event `loaded`: ask whether the video is paused. */
    method OnLoaded()
      requires Valid()
      modifies this`calls, this`pending, this`nextRequest
      ensures Valid()
      ensures calls == old(calls) + [GetPaused]
      ensures pending == old(pending)[old(nextRequest) := PausedQuery] && nextRequest == old(nextRequest) + 1
    {
      Request(GetPaused, PausedQuery);
    }

    /** SDK event `play`. */
    method OnPlay()
      modifies this`paused, this`hasPlayed, this`events
      ensures var r := Assure(PlaybackFlags(old(paused), old(hasPlayed)), true);
        paused == r.flags.paused && hasPlayed == r.flags.hasPlayed && events == old(events) + r.events + [Playing]
    {
      AssurePlayback(true);
      Emit([Playing]);
    }

    /** SDK event `pause`. */
    method OnPause()
      modifies this`paused, this`hasPlayed, this`events
      ensures var r := Assure(PlaybackFlags(old(paused), old(hasPlayed)), false);
        paused == r.flags.paused && hasPlayed == r.flags.hasPlayed && events == old(events) + r.events
    {
      AssurePlayback(false);
    }

    /** SDK event `timeupdate`: a seek is over and the reported time moves. */
    method OnTimeUpdate(seconds: real)
      modifies this`seeking, this`currentTime, this`events
      ensures !seeking && currentTime == seconds && events == old(events) + [TimeUpdate]
    {
      seeking := false;
      currentTime := seconds;
      Emit([TimeUpdate]);
    }

    /** SDK event `progress`: record the loaded fraction, emit `progress` (and
        `canplaythrough` when fully loaded), and ask for the duration again. */
    method OnProgress(percent: real)
      requires Valid()
      modifies this`buffered, this`events, this`calls, this`pending, this`nextRequest
      ensures Valid()
      ensures buffered == Some(percent)
      ensures events == old(events) + [Progress] + (if FullyLoaded(percent) then [CanPlayThrough] else [])
      ensures calls == old(calls) + [GetDuration]
      ensures pending == old(pending)[old(nextRequest) := DurationQuery(false)] && nextRequest == old(nextRequest) + 1
    {
      buffered := Some(percent);
      Emit([Progress]);
      if FullyLoaded(percent) {
        Emit([CanPlayThrough]);
      }
      Request(GetDuration, DurationQuery(false));
    }

    /** SDK event `seeked`. */
    method OnSeeked()
      modifies this`seeking, this`events
      ensures !seeking && events == old(events) + [Seeked]
    {
      seeking := false;
      Emit([Seeked]);
    }

    /** SDK event `ended`: paused, without touching `hasPlayed`. */
    method OnEnded()
      modifies this`paused, this`events
      ensures paused && events == old(events) + [Event.Ended]
    {
      paused := true;
      Emit([Event.Ended]);
    }

    /** SDK event `error`. */
    method OnError()
      modifies this`errored, this`events
      ensures errored && events == old(events) + [MediaError]
    {
      errored := true;
      Emit([MediaError]);
    }

    /** SDK event `bufferstart`. */
    method OnBufferStart()
      modifies this`events
      ensures events == old(events) + [Waiting]
    {
      Emit([Waiting]);
    }

    /** SDK event `bufferend`. */
    method OnBufferEnd()
      modifies this`events
      ensures events == old(events) + [Playing]
    {
      Emit([Playing]);
    }
  }

  /** A seek on a player that is paused and has never played (as a freshly
      set-up one is): once every link resolves, the SDK has been asked to mute,
      seek, pause and restore the volume, in that order, while the reported
      current time has not moved. */
  method SeekBeforeFirstPlay(a: Adapter, time: real)
    requires a.Valid() && a.paused && !a.hasPlayed
    modifies a`seeking, a`events, a`calls, a`pending, a`nextRequest
    ensures a.Valid() && a.seeking && a.currentTime == old(a.currentTime)
    ensures a.paused && !a.hasPlayed && a.volume == old(a.volume) && a.events == old(a.events) + [Seeking]
    ensures a.calls == old(a.calls) + [SetVolume(0.0), SetCurrentTime(time), EmbedPause, SetVolume(old(a.volume))]
  {
    var id := a.nextRequest;
    var c := SeekChain(time, true, a.volume, 1);
    a.WriteCurrentTime(time);
    assert a.pending[id] == SeekLink(c);
    a.ResolveSeekLink(id);
    assert a.pending[id + 1] == SeekLink(c.(done := 2));
    a.ResolveSeekLink(id + 1);
    assert a.pending[id + 2] == SeekLink(c.(done := 3));
    a.ResolveSeekLink(id + 2);
  }
}
