/** The player facade (`class Plyr` in src/js/plyr.js): the constructor's chain of
    setup checks, the validated property setters, the derived getters, the
    playback commands, `toggleControls` and the `destroy` lifecycle step.

    The media element is the native element's property surface, held as a value
    (`Media`) that the setters reassign field by field; the configuration the
    setters update is held the same way (`Config`). Values the source reads from
    local storage or from the support probe are parameters. Events the facade
    triggers, and the calls it makes on the media element or the embed, are
    appended to two logs. */
module Facade {
  import opened JsValues
  import opened Events
  import opened Negotiation

  datatype Provider = Html5 | YouTube | Vimeo

  datatype MediaType = Audio | Video

  /** The provider a name denotes when it is one of the keys of `providers`. */
  function ProviderNamed(name: string): (p: Option<Provider>)
    ensures p.Some? <==> name in {"html5", "youtube", "vimeo"}
    ensures p == Some(Html5) <==> name == "html5"
    ensures p == Some(YouTube) <==> name == "youtube"
    ensures p == Some(Vimeo) <==> name == "vimeo"
  {
    if name == "html5" then Some(Html5)
    else if name == "youtube" then Some(YouTube)
    else if name == "vimeo" then Some(Vimeo)
    else None
  }

  /** The part of the merged configuration the core reads and writes. */
  datatype Config = Config(
    enabled: bool,
    autoplay: bool,
    loopActive: bool,
    muted: bool,
    playsinline: bool,
    crossorigin: bool,
    volume: real,
    speedSelected: real,
    speedOptions: seq<real>,
    qualitySelected: JsValue,
    qualityDefault: JsValue,
    duration: Option<real>,   // parseFloat(config.duration); None when NaN
    seekTime: real)

  /** What `support.check(type, provider, playsinline)` reports. */
  datatype Support = Support(api: bool, ui: bool)

  /** The media element's tag name, lower-cased, as the setup switch sees it. */
  datatype Tag = DivTag | VideoTag | AudioTag | OtherTag

  /** An embedded `<iframe>`: the provider its URL names (`getProviderByUrl`)
      and the parameters of its URL's query string. */
  datatype Frame = Frame(providerName: Option<string>, params: map<string, string>)

  /** What the constructor is given to attach to. */
  datatype Target =
    | NoTarget
    | Element(tag: Tag, alreadySetUp: bool, frame: Option<Frame>,
              providerAttribute: Option<string>, attributes: set<string>)

  datatype SetupError = NoElement | AlreadySetUp | Disabled | NoSupport | InvalidProvider | UnsupportedType

  datatype Setup = Setup(provider: Provider, mediaType: MediaType, config: Config, supported: Support)

  datatype SetupOutcome = Failed(error: SetupError) | Configured(setup: Setup)

  predicate TruthyParam(params: map<string, string>, key: string) {
    key in params && params[key] in {"1", "true"}
  }

  /** Reading a frame's URL parameters into the configuration: a truthy
      `autoplay` or `loop` switches that option on, and `playsinline` is taken
      from the URL for YouTube and set for every other provider. */
  function ReadFrameParams(config: Config, frame: Frame): (r: Config)
    ensures r == config.(autoplay := r.autoplay, loopActive := r.loopActive, playsinline := r.playsinline)
    ensures r.autoplay <==> config.autoplay || TruthyParam(frame.params, "autoplay")
    ensures r.loopActive <==> config.loopActive || TruthyParam(frame.params, "loop")
    ensures frame.providerName != Some("youtube") ==> r.playsinline
    ensures frame.providerName == Some("youtube") ==> (r.playsinline <==> TruthyParam(frame.params, "playsinline"))
  {
    config.(
      autoplay := config.autoplay || TruthyParam(frame.params, "autoplay"),
      loopActive := config.loopActive || TruthyParam(frame.params, "loop"),
      playsinline :=
        if frame.providerName == Some("youtube") then TruthyParam(frame.params, "playsinline") else true)
  }

  /** `url.searchParams.length` as written: a `URLSearchParams` has `size` but
      no `length` property, so the guard always reads `undefined`. */
  function SearchParamsLength(params: map<string, string>): JsValue {
    Undefined
  }

  /** The frame's configuration as written: the parameters are read only when
      `SearchParamsLength` is truthy, which it never is, so the source behaves
      as if the frame's URL had no parameters. */
  function FrameConfigAsWritten(config: Config, frame: Frame): (r: Config)
    ensures r == FrameConfig(config, frame.(params := map[]))
  {
    if Truthy(SearchParamsLength(frame.params)) then ReadFrameParams(config, frame) else config
  }

  /** The configuration after an embed frame's URL parameters are read, as
      evidently intended: read whenever the URL has a query parameter. */
  function FrameConfig(config: Config, frame: Frame): (r: Config)
    ensures frame.params == map[] ==> r == config
    ensures TruthyParam(frame.params, "autoplay") ==> r.autoplay
    ensures TruthyParam(frame.params, "loop") ==> r.loopActive
    ensures frame.params != map[] ==> r == ReadFrameParams(config, frame)
  {
    if frame.params == map[] then config else ReadFrameParams(config, frame)
  }

  /** A frame whose URL asks for autoplay: as written the request is ignored,
      while the intended reading switches autoplay on. */
  lemma FrameAutoplayIgnoredAsWritten(config: Config)
    requires !config.autoplay
    ensures var frame := Frame(Some("vimeo"), map["autoplay" := "1"]);
      !FrameConfigAsWritten(config, frame).autoplay && FrameConfig(config, frame).autoplay
  {
    var frame := Frame(Some("vimeo"), map["autoplay" := "1"]);
    assert TruthyParam(frame.params, "autoplay");
  }

  /** The configuration after a native element's attributes are read. */
  function AttributeConfig(config: Config, attributes: set<string>): Config {
    config.(
      crossorigin := config.crossorigin || "crossorigin" in attributes,
      autoplay := config.autoplay || "autoplay" in attributes,
      playsinline := config.playsinline || "playsinline" in attributes,
      muted := config.muted || "muted" in attributes,
      loopActive := config.loopActive || "loop" in attributes)
  }

  /** The provider name a `<div>` target declares: its frame's URL, or its attribute. */
  function DeclaredProvider(target: Target): Option<string>
    requires target.Element?
  {
    if target.frame.Some? then target.frame.value.providerName else target.providerAttribute
  }

  /** The constructor's validation chain: each check bails out with its error,
      and the first failing check decides. */
  function Validate(target: Target, config: Config, basicApi: bool,
                    check: (MediaType, Provider, bool) -> Support): (r: SetupOutcome)
    ensures target.NoTarget? ==> r == Failed(NoElement)
    ensures target.Element? && target.alreadySetUp ==> r == Failed(AlreadySetUp)
    ensures target.Element? && !target.alreadySetUp && !config.enabled ==> r == Failed(Disabled)
    ensures target.Element? && !target.alreadySetUp && config.enabled && !basicApi ==> r == Failed(NoSupport)
    ensures target.Element? && !target.alreadySetUp && config.enabled && basicApi ==>
      && (target.tag == OtherTag ==> r == Failed(UnsupportedType))
      && (target.tag == DivTag
          && (DeclaredProvider(target).None? || ProviderNamed(DeclaredProvider(target).value).None?)
          ==> r == Failed(InvalidProvider))
    ensures r.Configured? ==>
      var s := r.setup;
      && target.Element? && !target.alreadySetUp && config.enabled && basicApi
      && s.supported == check(s.mediaType, s.provider, s.config.playsinline) && s.supported.api
      && (target.tag == VideoTag ==> s.provider == Html5 && s.mediaType == Video)
      && (target.tag == AudioTag ==> s.provider == Html5 && s.mediaType == Audio)
      && (target.tag == DivTag ==>
            s.mediaType == Video && Some(s.provider) == ProviderNamed(DeclaredProvider(target).value))
      // the checks only switch on autoplay, loop and muted, and set the two inline flags
      && s.config == config.(autoplay := s.config.autoplay, loopActive := s.config.loopActive,
                             muted := s.config.muted, playsinline := s.config.playsinline,
                             crossorigin := s.config.crossorigin)
      && (config.autoplay ==> s.config.autoplay)
      && (config.loopActive ==> s.config.loopActive)
      && (config.muted ==> s.config.muted)
    ensures target.Element? && !target.alreadySetUp && config.enabled && basicApi
            && (target.tag == VideoTag || target.tag == AudioTag) ==>
      var mt := if target.tag == VideoTag then Video else Audio;
      var cfg := AttributeConfig(config, target.attributes);
      var sup := check(mt, Html5, cfg.playsinline);
      r == if sup.api then Configured(Setup(Html5, mt, cfg, sup)) else Failed(NoSupport)
    ensures target.Element? && !target.alreadySetUp && config.enabled && basicApi && target.tag == DivTag
            && DeclaredProvider(target).Some? && ProviderNamed(DeclaredProvider(target).value).Some? ==>
      var pr := ProviderNamed(DeclaredProvider(target).value).value;
      var cfg := if target.frame.Some? then FrameConfig(config, target.frame.value) else config;
      var sup := check(Video, pr, cfg.playsinline);
      r == if sup.api then Configured(Setup(pr, Video, cfg, sup)) else Failed(NoSupport)
  {
    if target.NoTarget? then Failed(NoElement)
    else if target.alreadySetUp then Failed(AlreadySetUp)
    else if !config.enabled then Failed(Disabled)
    else if !basicApi then Failed(NoSupport)
    else
      var typed: SetupOutcome :=
        match target.tag
        case DivTag =>
          var name := DeclaredProvider(target);
          var cfg := if target.frame.Some? then FrameConfig(config, target.frame.value) else config;
          if name.None? || ProviderNamed(name.value).None? then Failed(InvalidProvider)
          else Configured(Setup(ProviderNamed(name.value).value, Video, cfg, Support(false, false)))
        case VideoTag => Configured(Setup(Html5, Video, AttributeConfig(config, target.attributes), Support(false, false)))
        case AudioTag => Configured(Setup(Html5, Audio, AttributeConfig(config, target.attributes), Support(false, false)))
        case OtherTag => Failed(UnsupportedType);
      if typed.Failed? then typed
      else
        var s := typed.setup;
        var supported := check(s.mediaType, s.provider, s.config.playsinline);
        if !supported.api then Failed(NoSupport) else Configured(s.(supported := supported))
  }

  /** The `buffered` property of the media: a fraction (embeds), the ends of the
      native element's buffered ranges, or nothing. */
  datatype Buffered = NotBuffered | Fraction(f: real) | TimeRanges(ends: seq<real>)

  /** The media element's property surface. `controllable` says whether it
      exposes `play`, `pause` and `stop` as functions. */
  datatype Media = Media(
    controllable: bool,
    currentTime: real,
    duration: Option<real>,   // None while the element reports NaN
    volume: real,
    muted: bool,
    playbackRate: real,
    quality: Option<real>,
    loop: bool,
    paused: bool,
    ended: bool,
    seeking: bool,
    buffered: Buffered)

  /** Calls the facade makes on the media element or on the embed. */
  datatype MediaCall = MediaPlay | MediaPause | MediaStop | EmbedDestroy | EmbedUnload

  /** The `duration` getter: the configured faux duration when it is a nonzero
      number, else the media's own duration, else 0. */
  function EffectiveDuration(faux: Option<real>, media: Option<real>): (d: real)
    ensures faux.Some? && faux.value != 0.0 ==> d == faux.value
    ensures (faux.None? || faux.value == 0.0) && media.Some? ==> d == media.value
    ensures d == 0.0 <==> (faux.None? || faux.value == 0.0) && (media.None? || media.value == 0.0)
  {
    if faux.Some? && faux.value != 0.0 then faux.value
    else if media.Some? then media.value
    else 0.0
  }

  /** The `buffered` getter: a fraction as reported, or the end of the first
      buffered range over the duration, or 0. */
  function BufferedFraction(b: Buffered, duration: real): (f: real)
    ensures b.Fraction? ==> f == b.f
    ensures b.TimeRanges? && |b.ends| > 0 && duration > 0.0 ==> f * duration == b.ends[0]
    ensures b.TimeRanges? && |b.ends| > 0 && 0.0 <= b.ends[0] <= duration ==> 0.0 <= f <= 1.0
    ensures b.NotBuffered? || (b.TimeRanges? && (|b.ends| == 0 || duration <= 0.0)) ==> f == 0.0
  {
    match b
    case Fraction(x) => x
    case TimeRanges(ends) =>
      if |ends| > 0 && duration > 0.0 then
        FractionInUnit(ends[0], duration);
        ends[0] / duration
      else 0.0
    case NotBuffered => 0.0
  }

  lemma FractionInUnit(part: real, whole: real)
    requires whole > 0.0
    ensures (part / whole) * whole == part
    ensures 0.0 <= part <= whole ==> 0.0 <= part / whole <= 1.0
  {
  }

  /** Where a `currentTime` write puts the media once the duration is known: a
      positive number, capped at the duration; anything else means 0. */
  function SeekTarget(input: JsValue, duration: real): (t: real)
    ensures IsNumber(input) && 0.0 < input.n <= duration ==> t == input.n
    ensures IsNumber(input) && input.n > duration && input.n > 0.0 ==> t == duration
    ensures !(IsNumber(input) && input.n > 0.0) ==> t == 0.0
    ensures duration > 0.0 ==> 0.0 <= t <= duration
  {
    if IsNumber(input) && input.n > 0.0 then (if input.n < duration then input.n else duration) else 0.0
  }

  /** The volume a `volume` write settles on. A string is converted with
      `Number(...)`; then the first number among the input, the stored volume and
      the configured volume is taken, and clamped to [0, 1]. */
  function ResolveVolume(value: JsValue, stored: JsValue, configured: real): (v: real)
    ensures 0.0 <= v <= 1.0
    ensures v == Clamp(FirstNumber([if value.Str? then ToNumber(value) else value, stored, Num(configured)]).value, 0.0, 1.0)
  {
    var volume := if value.Str? then ToNumber(value) else value;
    FirstNumberOfThree(volume, stored, Num(configured));
    var volume := if IsNumber(volume) then volume else stored;
    var chosen := if IsNumber(volume) then volume.n else configured;
    Clamp(chosen, 0.0, 1.0)
  }

  /** 1.5 is written as 1 and -1 as 0, whatever storage and config hold. */
  lemma VolumeWriteExamples(stored: JsValue, configured: real)
    ensures ResolveVolume(Num(1.5), stored, configured) == 1.0
    ensures ResolveVolume(Num(-1.0), stored, configured) == 0.0
    ensures ResolveVolume(Str("0.5"), stored, configured) == 0.5
  {
    assert ToNumber(Str("0.5")) == Num(0.5) by {
      assert DotIndex("0.5") == 1;
      assert "0.5"[..1] == "0" && "0.5"[2..] == "5";
      assert FractionValue("5") == 0.5;
    }
  }

  /** The outcome of a `speed` write: the first number among the input, the
      stored speed and the selected speed, clamped to [0.1, 2.0]; None when that
      value is not one of the configured options (the write is rejected). */
  function ResolveSpeed(input: JsValue, stored: JsValue, selected: real, options: seq<real>): (r: Option<real>)
    ensures var c := Clamp(FirstNumber([input, stored, Num(selected)]).value, 0.1, 2.0);
            r == if c in options then Some(c) else None
    ensures r.Some? ==> r.value in options && 0.1 <= r.value <= 2.0
  {
    FirstNumberOfThree(input, stored, Num(selected));
    var speed := if IsNumber(input) then input else stored;
    var chosen := if IsNumber(speed) then speed.n else selected;
    var clamped := Clamp(chosen, 0.1, 2.0);
    if clamped in options then Some(clamped) else None
  }

  /** The candidates a `quality` write considers, in order. */
  function QualityCandidates(input: JsValue, stored: JsValue, selected: JsValue, default: JsValue): seq<JsValue> {
    [if IsEmpty(input) then Bool(false) else ToNumber(input), stored, selected, default]
  }

  /** The quality a `quality` write selects, or None when no option is
      available (the write is a no-op). The first numeric candidate is kept when
      it is an option and otherwise snapped to the closest option; with no
      numeric candidate every distance is NaN and the fold keeps the first option. */
  function ResolveQuality(input: JsValue, stored: JsValue, selected: JsValue, default: JsValue,
                          options: seq<real>): (r: Option<real>)
    ensures r.None? <==> |options| == 0
    ensures r.Some? ==> r.value in options
    ensures var c := FirstNumber(QualityCandidates(input, stored, selected, default));
      && (r.Some? && c.Some? && c.value in options ==> r.value == c.value)
      && (r.Some? && c.Some? ==> forall o :: o in options ==> Dist(r.value, c.value) <= Dist(o, c.value))
      && (r.Some? && c.None? ==> r.value == options[0])
  {
    if |options| == 0 then None
    else
      var quality := FirstNumber(QualityCandidates(input, stored, selected, default));
      if quality.Some? && quality.value in options then Some(quality.value)
      else if quality.Some? then Some(Closest(options, quality.value))
      else Some(options[0])
  }

  /** With options {240, 480, 720, 1080}, a request for 540 selects 480. */
  lemma QualitySnapExample(stored: JsValue, selected: JsValue, default: JsValue)
    ensures ResolveQuality(Num(540.0), stored, selected, default, [240.0, 480.0, 720.0, 1080.0]) == Some(480.0)
  {
    var options := [240.0, 480.0, 720.0, 1080.0];
    var r := ResolveQuality(Num(540.0), stored, selected, default, options);
    assert FirstNumber(QualityCandidates(Num(540.0), stored, selected, default)) == Some(540.0) by {
      assert FirstNumberIndex(QualityCandidates(Num(540.0), stored, selected, default)) == 0;
    }
    assert Dist(480.0, 540.0) == 60.0;
    assert r.value in options;
  }

  class Player {
    // lifecycle
    var ready: bool
    var attached: bool             // media.plyr is set: the setup checks passed
    var provider: Option<Provider>
    var mediaType: Option<MediaType>
    var supported: Support
    var embedLive: bool            // this.embed !== null
    var listenersBound: bool
    // configuration and negotiated options
    var config: Config
    var qualityOptions: seq<real>  // options.quality
    var captionsToggled: bool
    var captionsTrack: int
    // the media element and the container
    var media: Media
    var controlsHidden: bool       // the container carries the hide-controls class
    // what the facade emits and calls
    var events: seq<Event>
    var calls: seq<MediaCall>

    ghost predicate Valid()
      reads this
    {
      && (ready ==> attached)
      && (attached ==> provider.Some? && mediaType.Some?)
    }

    /** The constructor: run the setup checks; on success record provider, type,
        configuration and support, attach, and start playback when autoplay is
        configured. `ready` stays false: the UI builder sets it. `autoplayAllowed`
        is the browser's answer to that first `play()`. */
    constructor (target: Target, options: Config, initial: Media, basicApi: bool,
                 check: (MediaType, Provider, bool) -> Support, autoplayAllowed: bool)
      ensures Valid()
      ensures !ready && embedLive && listenersBound && events == []
      ensures qualityOptions == [] && !captionsToggled && captionsTrack == -1 && !controlsHidden
      ensures var controllable := target.Element? && target.tag in {VideoTag, AudioTag};
        var started := attached && config.autoplay && controllable && autoplayAllowed;
        media == initial.(controllable := controllable, paused := if started then false else initial.paused)
      ensures var outcome := Validate(target, options, basicApi, check);
        && attached == outcome.Configured?
        && (outcome.Failed? ==> config == options && provider.None? && mediaType.None? && calls == [])
        && (outcome.Configured? ==>
              && provider == Some(outcome.setup.provider)
              && mediaType == Some(outcome.setup.mediaType)
              && config == outcome.setup.config
              && supported == outcome.setup.supported
              && calls == if config.autoplay && media.controllable then [MediaPlay] else [])
    {
      ready := false;
      embedLive := true;
      listenersBound := true;
      events := [];
      calls := [];
      qualityOptions := [];
      captionsToggled := false;
      captionsTrack := -1;
      controlsHidden := false;
      media := initial.(controllable := target.Element? && target.tag in {VideoTag, AudioTag});
      var outcome := Validate(target, options, basicApi, check);
      attached := outcome.Configured?;
      if outcome.Configured? {
        config := outcome.setup.config;
        provider := Some(outcome.setup.provider);
        mediaType := Some(outcome.setup.mediaType);
        supported := outcome.setup.supported;
      } else {
        config := options;
        provider := None;
        mediaType := None;
        supported := Support(false, false);
      }
      new;
      if attached && config.autoplay {
        var _ := Play(autoplayAllowed);
      }
    }

    /** The UI builder's `ready = true` once the interface is built. */
    method MarkReady()
      requires Valid() && attached
      modifies this`ready
      ensures Valid() && ready
    {
      ready := true;
    }

    /** An embed provider's `ready` installs the faux media object, whose
        `play`, `pause` and `stop` functions the facade then forwards to.
        Vimeo's puts its wrapper in place of the media and reports it paused
        at 0. */
    method AttachEmbedMedia()
      requires attached && !IsHtml5()
      modifies this`media
      ensures provider == Some(Vimeo) ==>
        media == old(media).(controllable := true, paused := true, currentTime := 0.0)
      ensures provider != Some(Vimeo) ==> media == old(media).(controllable := true)
      ensures provider == Some(Vimeo) ==> Stopped() && !Playing()
    {
      if provider == Some(Vimeo) {
        media := media.(controllable := true, paused := true, currentTime := 0.0);
      } else {
        media := media.(controllable := true);
      }
    }

    /** The provider fills `options.quality` with the qualities the media offers. */
    method OfferQualities(options: seq<real>)
      modifies this`qualityOptions
      ensures qualityOptions == options
    {
      qualityOptions := options;
    }

    function IsHtml5(): bool reads this { provider == Some(Html5) }

    function IsAudio(): bool reads this { mediaType == Some(Audio) }

    function Paused(): bool reads this { media.paused }

    function Ended(): bool reads this { media.ended }

    function Playing(): bool reads this { ready && !Paused() && !Ended() }

    function CurrentTime(): real reads this { media.currentTime }

    function Stopped(): bool reads this { Paused() && CurrentTime() == 0.0 }

    function Duration(): real reads this { EffectiveDuration(config.duration, media.duration) }

    function Buffered(): real reads this { BufferedFraction(media.buffered, Duration()) }

    function CurrentTrack(): int reads this { if captionsToggled then captionsTrack else -1 }

    /** `play()`: forwarded to the media when it has a `play` function. The
        media's `play()` clears `paused` at once when the browser lets playback
        start, which `allowed` says. */
    method Play(allowed: bool) returns (forwarded: bool)
      modifies this`calls, this`media
      ensures forwarded == media.controllable
      ensures calls == old(calls) + (if forwarded then [MediaPlay] else [])
      ensures media == if forwarded && allowed then old(media).(paused := false) else old(media)
      ensures forwarded && allowed && !media.ended ==> Playing() == ready
    {
      forwarded := media.controllable;
      if forwarded {
        calls := calls + [MediaPlay];
        if allowed {
          media := media.(paused := false);
        }
      }
    }

    /** `pause()`: does nothing unless the player is playing; the media's
        `pause()` sets `paused` at once. */
    method Pause()
      modifies this`calls, this`media
      ensures var forwarded := old(Playing()) && old(media.controllable);
        && calls == old(calls) + (if forwarded then [MediaPause] else [])
        && media == if forwarded then old(media).(paused := true) else old(media)
      ensures old(media.controllable) ==> !Playing()
    {
      if !Playing() || !media.controllable {
        return;
      }
      calls := calls + [MediaPause];
      media := media.(paused := true);
    }

    /** `togglePlay(input)`: plays when the input is true, pauses when it is
        false, and with no boolean input plays exactly when not playing. */
    method TogglePlay(input: JsValue, allowed: bool)
      modifies this`calls, this`media
      ensures var toggle := if IsBoolean(input) then input.b else !old(Playing());
        var forwarded := old(media.controllable);
        && (toggle ==>
              && calls == old(calls) + (if forwarded then [MediaPlay] else [])
              && media == if forwarded && allowed then old(media).(paused := false) else old(media))
        && (!toggle ==>
              && calls == old(calls) + (if old(Playing()) && forwarded then [MediaPause] else [])
              && media == if old(Playing()) && forwarded then old(media).(paused := true) else old(media))
    {
      var toggle := if IsBoolean(input) then input.b else !Playing();
      if toggle {
        var _ := Play(allowed);
      } else {
        Pause();
      }
    }

    /** `currentTime = input`: a no-op while the duration is 0; otherwise the
        media time becomes the seek target, which lies in [0, duration]. */
    method SetCurrentTime(input: JsValue)
      modifies this`media
      ensures old(Duration()) == 0.0 ==> media == old(media)
      ensures old(Duration()) != 0.0 ==> media == old(media).(currentTime := SeekTarget(input, old(Duration())))
      ensures old(Duration()) > 0.0 ==> 0.0 <= CurrentTime() <= Duration()
    {
      var duration := Duration();
      if duration == 0.0 {
        return;
      }
      media := media.(currentTime := SeekTarget(input, duration));
    }

    /** `restart()`: seek to 0. */
    method Restart()
      modifies this`media
      ensures media == if old(Duration()) == 0.0 then old(media) else old(media).(currentTime := 0.0)
    {
      SetCurrentTime(Num(0.0));
    }

    /** `rewind(seekTime)`: seek back by the given step or the configured one. */
    method Rewind(seekTime: JsValue)
      modifies this`media
      ensures var step := if IsNumber(seekTime) then seekTime.n else config.seekTime;
        media == if old(Duration()) == 0.0 then old(media)
                 else old(media).(currentTime := SeekTarget(Num(old(CurrentTime()) - step), old(Duration())))
    {
      var step := if IsNumber(seekTime) then seekTime.n else config.seekTime;
      SetCurrentTime(Num(CurrentTime() - step));
    }

    /** `forward(seekTime)`: seek ahead by the given step or the configured one. */
    method Forward(seekTime: JsValue)
      modifies this`media
      ensures var step := if IsNumber(seekTime) then seekTime.n else config.seekTime;
        media == if old(Duration()) == 0.0 then old(media)
                 else old(media).(currentTime := SeekTarget(Num(old(CurrentTime()) + step), old(Duration())))
    {
      var step := if IsNumber(seekTime) then seekTime.n else config.seekTime;
      SetCurrentTime(Num(CurrentTime() + step));
    }

    /** Whether `stop()` runs the facade's own `pause()` and that pause
        reaches the media: for a native player directly, and through the faux
        `stop` once a Vimeo embed has installed it; only while playing. */
    predicate StopPauses() reads this {
      (IsHtml5() || provider == Some(Vimeo)) && Playing() && media.controllable
    }

    /** `stop()`: a native player pauses and seeks to 0. An embed is told to
        stop when its media has a `stop` function. Vimeo's faux `stop` runs the
        facade's `pause()`, and its write of 0 to `currentTime` goes to the
        faux setter, which leaves the reported time until the SDK answers. */
    method Stop()
      modifies this`calls, this`media
      ensures calls == old(calls) + (if !IsHtml5() && old(media.controllable) then [MediaStop] else [])
                                  + (if old(StopPauses()) then [MediaPause] else [])
      ensures media == old(media).(paused := old(media.paused) || old(StopPauses()),
        currentTime := if IsHtml5() && old(Duration()) != 0.0 then 0.0 else old(media.currentTime))
      ensures IsHtml5() && old(Duration()) != 0.0 ==>
        (Stopped() <==> old(media.paused) || (old(Playing()) && old(media.controllable)))
      ensures provider == Some(Vimeo) && old(media.controllable) ==> !Playing()
    {
      if IsHtml5() {
        Pause();
        Restart();
      } else if media.controllable {
        calls := calls + [MediaStop];
        if provider == Some(Vimeo) {
          Pause();
        }
      }
    }

    /** `muted = mute`: a boolean input, else the stored flag, else the config. */
    method SetMuted(mute: JsValue, stored: JsValue)
      modifies this`config, this`media
      ensures var toggle := if IsBoolean(mute) then mute.b else if IsBoolean(stored) then stored.b else old(config.muted);
        config == old(config).(muted := toggle) && media == old(media).(muted := toggle)
    {
      var toggle := mute;
      if !IsBoolean(toggle) {
        toggle := stored;
      }
      var muted := if IsBoolean(toggle) then toggle.b else config.muted;
      config := config.(muted := muted);
      media := media.(muted := muted);
    }

    /** `volume = value`: the media and the config agree on the resolved volume,
        which lies in [0, 1]; the player is unmuted exactly when an explicit
        value was given, it was muted and the new volume is positive. */
    method SetVolume(value: JsValue, stored: JsValue)
      modifies this`config, this`media
      ensures var v := ResolveVolume(value, stored, old(config.volume));
              var unmute := !IsEmpty(value) && old(media.muted) && v > 0.0;
        && config == old(config).(volume := v, muted := if unmute then false else old(config.muted))
        && media == old(media).(volume := v, muted := if unmute then false else old(media.muted))
        && (media.muted != old(media.muted) <==> unmute)
      ensures media.volume == config.volume && 0.0 <= media.volume <= 1.0
    {
      var volume := ResolveVolume(value, stored, config.volume);
      config := config.(volume := volume);
      media := media.(volume := volume);
      if !IsEmpty(value) && media.muted && volume > 0.0 {
        SetMuted(Bool(false), stored);
      }
    }

    /** `increaseVolume(step)`: from 0 when muted, else from the current volume. */
    method IncreaseVolume(step: JsValue)
      modifies this`config, this`media
      ensures var base := if old(media.muted) then 0.0 else old(media.volume);
              var v := Clamp(base + (if IsNumber(step) then step.n else 1.0), 0.0, 1.0);
              var unmute := old(media.muted) && v > 0.0;
        && config == old(config).(volume := v, muted := if unmute then false else old(config.muted))
        && media == old(media).(volume := v, muted := if unmute then false else old(media.muted))
        && (media.muted <==> old(media.muted) && v == 0.0)
    {
      var volume := if media.muted then 0.0 else media.volume;
      SetVolume(Num(volume + (if IsNumber(step) then step.n else 1.0)), Undefined);
    }

    /** `decreaseVolume(step)`: from 0 when muted, else from the current volume. */
    method DecreaseVolume(step: JsValue)
      modifies this`config, this`media
      ensures var base := if old(media.muted) then 0.0 else old(media.volume);
              var v := Clamp(base - (if IsNumber(step) then step.n else 1.0), 0.0, 1.0);
              var unmute := old(media.muted) && v > 0.0;
        && config == old(config).(volume := v, muted := if unmute then false else old(config.muted))
        && media == old(media).(volume := v, muted := if unmute then false else old(media.muted))
        && (media.muted <==> old(media.muted) && v == 0.0)
    {
      var volume := if media.muted then 0.0 else media.volume;
      SetVolume(Num(volume - (if IsNumber(step) then step.n else 1.0)), Undefined);
    }

    /** `speed = input`: on success the selected speed and the playback rate
        agree and are an option; a rejected value changes nothing. */
    method SetSpeed(input: JsValue, stored: JsValue)
      modifies this`config, this`media
      ensures match ResolveSpeed(input, stored, old(config.speedSelected), old(config.speedOptions))
        case None => config == old(config) && media == old(media)
        case Some(s) => config == old(config).(speedSelected := s) && media == old(media).(playbackRate := s)
      ensures config.speedSelected != old(config.speedSelected) ==>
        config.speedSelected == media.playbackRate && config.speedSelected in config.speedOptions
    {
      var speed := ResolveSpeed(input, stored, config.speedSelected, config.speedOptions);
      if speed.None? {
        return;
      }
      config := config.(speedSelected := speed.value);
      media := media.(playbackRate := speed.value);
    }

    /** `quality = input`: a no-op without options; otherwise `qualityrequested`
        is emitted once and the selected quality, an option, is recorded in the
        config and on the media. */
    method SetQuality(input: JsValue, stored: JsValue)
      modifies this`config, this`media, this`events
      ensures match ResolveQuality(input, stored, old(config.qualitySelected), old(config.qualityDefault), qualityOptions)
        case None => config == old(config) && media == old(media) && events == old(events)
        case Some(q) =>
          && q in qualityOptions
          && events == old(events) + [QualityRequested(q)]
          && config == old(config).(qualitySelected := Num(q))
          && media == old(media).(quality := Some(q))
    {
      var quality := ResolveQuality(input, stored, config.qualitySelected, config.qualityDefault, qualityOptions);
      if quality.None? {
        return;
      }
      events := events + [QualityRequested(quality.value)];
      config := config.(qualitySelected := Num(quality.value));
      media := media.(quality := Some(quality.value));
    }

    /** `loop = input`: a boolean input, else the configured flag. */
    method SetLoop(input: JsValue)
      modifies this`config, this`media
      ensures var toggle := if IsBoolean(input) then input.b else old(config.loopActive);
        config == old(config).(loopActive := toggle) && media == old(media).(loop := toggle)
    {
      var toggle := if IsBoolean(input) then input.b else config.loopActive;
      config := config.(loopActive := toggle);
      media := media.(loop := toggle);
    }

    /** `autoplay = input`: a boolean input, else the configured flag unchanged. */
    method SetAutoplay(input: JsValue)
      modifies this`config
      ensures config == old(config).(autoplay := if IsBoolean(input) then input.b else old(config.autoplay))
    {
      var toggle := if IsBoolean(input) then input.b else config.autoplay;
      config := config.(autoplay := toggle);
    }

    /** `toggleControls(toggle)`: only for a video player with UI support; the
        controls are hidden when toggle is false, shown when it is true and
        flipped when it is absent (`undefined`); any other value is read for its
        truthiness. An event is emitted only on a change. */
    method ToggleControls(toggle: JsValue) returns (shown: bool)
      modifies this`controlsHidden, this`events
      ensures !(supported.ui && !IsAudio()) ==>
        !shown && controlsHidden == old(controlsHidden) && events == old(events)
      ensures supported.ui && !IsAudio() ==>
        && controlsHidden == (if toggle.Undefined? then !old(controlsHidden) else !Truthy(toggle))
        && shown == !controlsHidden
        && events == old(events) + (if controlsHidden == old(controlsHidden) then []
                                    else [if controlsHidden then ControlsHidden else ControlsShown])
    {
      if supported.ui && !IsAudio() {
        var isHidden := controlsHidden;
        var hiding := if toggle.Undefined? then !isHidden else !Truthy(toggle);
        controlsHidden := hiding;
        if hiding != isHidden {
          events := events + [if hiding then ControlsHidden else ControlsShown];
        }
        return !hiding;
      }
      return false;
    }

    /** The `done` step of `destroy`: release the embed; a full destroy also
        unbinds the listeners, emits `destroyed` and clears `ready`. */
    method DestroyDone(soft: bool)
      requires Valid()
      modifies this`embedLive, this`listenersBound, this`events, this`ready
      ensures Valid() && !embedLive
      ensures soft ==> ready == old(ready) && listenersBound == old(listenersBound) && events == old(events)
      ensures !soft ==> !ready && !listenersBound && events == old(events) + [Destroyed]
    {
      embedLive := false;
      if !soft {
        listenersBound := false;
        events := events + [Destroyed];
        ready := false;
      }
    }

    /** `destroy(soft)`: nothing unless ready; otherwise stop playback, then tear
        down per provider. The native and YouTube paths finish at once; the
        Vimeo path only asks the embed to unload and finishes in DestroyDone. */
    method Destroy(soft: bool)
      requires Valid()
      modifies this`calls, this`media, this`embedLive, this`listenersBound, this`events, this`ready
      ensures Valid()
      ensures !old(ready) ==>
        calls == old(calls) && media == old(media) && embedLive == old(embedLive)
        && listenersBound == old(listenersBound) && events == old(events) && !ready
      ensures old(ready) ==>
        media == old(media).(paused := old(media.paused) || old(StopPauses()),
          currentTime := if IsHtml5() && old(Duration()) != 0.0 then 0.0 else old(media.currentTime))
      ensures old(ready) && IsHtml5() ==>
        && calls == old(calls) + (if old(StopPauses()) then [MediaPause] else [])
        && !embedLive
        && (soft ==> ready && listenersBound == old(listenersBound) && events == old(events))
        && (!soft ==> !ready && !listenersBound && events == old(events) + [Destroyed])
      ensures old(ready) && provider == Some(YouTube) ==>
        && calls == old(calls) + (if old(media.controllable) then [MediaStop] else [])
                                + (if old(embedLive) then [EmbedDestroy] else [])
        && !embedLive
        && (soft ==> ready && listenersBound == old(listenersBound) && events == old(events))
        && (!soft ==> !ready && !listenersBound && events == old(events) + [Destroyed])
      ensures old(ready) && provider == Some(Vimeo) ==>
        && calls == old(calls) + (if old(media.controllable) then [MediaStop] else [])
                                + (if old(StopPauses()) then [MediaPause] else [])
                                + (if old(embedLive) then [EmbedUnload] else [])
        && embedLive == old(embedLive) && ready && events == old(events)
        && listenersBound == old(listenersBound)
    {
      if !ready {
        return;
      }
      Stop();
      if IsHtml5() {
        DestroyDone(soft);
      } else if provider == Some(YouTube) {
        if embedLive {
          calls := calls + [EmbedDestroy];
        }
        DestroyDone(soft);
      } else if provider == Some(Vimeo) {
        if embedLive {
          calls := calls + [EmbedUnload];
        }
      }
    }
  }

  /** From playback, two argument-less `togglePlay()` calls pause and then
      resume: the second call sees the pause the first one made. */
  method ToggleTwiceResumes(p: Player)
    requires p.Playing() && p.media.controllable
    modifies p
    ensures p.calls == old(p.calls) + [MediaPause, MediaPlay]
    ensures p.Playing()
  {
    p.TogglePlay(Undefined, true);
    assert !p.Playing();
    p.TogglePlay(Undefined, true);
  }

  /** Stopping a playing Vimeo player whose faux media is installed: the faux
      `stop` pauses through the facade, while the reported time stays where it
      was until the SDK reports the seek. */
  method StopEmbedWhilePlaying(p: Player)
    requires p.provider == Some(Vimeo) && p.media.controllable && p.Playing()
    modifies p
    ensures p.Paused() && !p.Playing() && p.CurrentTime() == old(p.CurrentTime())
    ensures old(p.CurrentTime()) != 0.0 ==> !p.Stopped()
    ensures p.calls == old(p.calls) + [MediaStop, MediaPause]
  {
    p.Stop();
  }

  /** A full destroy of a native player, repeated: the second call changes
      nothing, so exactly one `destroyed` event is emitted. */
  method DestroyTwice(p: Player)
    requires p.Valid() && p.ready && p.IsHtml5()
    modifies p
    ensures p.Valid() && !p.ready
    ensures p.events == old(p.events) + [Destroyed]
  {
    p.Destroy(false);
    var afterFirst := p.events;
    p.Destroy(false);
    assert p.events == afterFirst;
  }
}
