/**
 * The combo/decay state machine of the overlay, as transition functions over
 * the module-level state of the script (`lastEmoteName`, `comboCount`,
 * `fadeTimer`, `comboInterval`, `isComboDecaying`) plus the few presentation
 * facts the transitions decide (whether the emote container is displayed and
 * opaque, whether the combo counter is displayed, the fire's size).
 *
 * Timers are not clocks here: arming a timer sets a flag, and the environment
 * later delivers the matching event (`FadeFired`, `DecayStepFired`,
 * `CleanupFired`, and the image's `ImageLoaded`/`ImageFailed`). The 800 ms
 * cleanups are never cancelled and all have the same delay, so they are a
 * first-in first-out queue.
 */
module Combo {
  import opened Common
  import opened Decay
  import opened Fire

  /** The configuration fields the engine reads. */
  datatype Config = Config(
    fadeTimeout: int,           // ms until the emote fades; <= 0 never fades
    showCombo: bool,
    comboSave: bool,            // the same emote during decay stops the decay
    fireShow: bool,
    fireComboCount: int,        // combo at which the fire appears
    maxFire: real,              // cap on the fire's size
    comboDecayAnimation: bool)  // count down step by step instead of dropping to 0

  /** The two kinds of 800 ms cleanup: after a fade (`FadeCleanup`) and after a decay that reached 0. */
  datatype Cleanup = FadeCleanup | DecayCleanup

  datatype State = State(
    lastEmote: Option<string>,  // lastEmoteName
    count: nat,                 // comboCount
    fadeArmed: bool,            // the fade timer is pending
    decayArmed: bool,           // comboInterval != null: a decay step is pending
    decayDelay: int,            // the delay the pending decay step was armed with
    decaying: bool,             // isComboDecaying
    cleanups: seq<Cleanup>,     // pending cleanups, oldest first
    loading: bool,              // the emote image's onload/onerror is awaited
    displayed: bool,            // the emote container's display is not 'none'
    solid: bool,               // the emote container's opacity is '1'
    comboShown: bool,           // the combo counter is displayed
    fire: Option<real>)         // the fire element, with its size

  datatype Event =
    | Observe(name: string, url: string)  // showEmote(name, url) from the chat scan
    | ImageLoaded                         // emoteImg.onload
    | ImageFailed                         // emoteImg.onerror
    | FadeFired                           // the fade timer's callback
    | DecayStepFired                      // decayStep
    | CleanupFired                        // the oldest 800 ms cleanup

  /** The script's state at start-up: nothing shown, no timer pending. */
  function Init(): State
  {
    State(None, 0, false, false, 0, false, [], false, false, false, false, None)
  }

  /** `resetFadeTimer`: with a positive timeout, (re-)arm the fade timer and make the emote visible. */
  function ResetFadeTimer(cfg: Config, s: State): State
  {
    if cfg.fadeTimeout <= 0 then s
    else s.(fadeArmed := true, displayed := true, solid := true)
  }

  /** `updateFireEffect`: the fire follows the current count. */
  function UpdateFireEffect(cfg: Config, s: State): State
  {
    s.(fire := FireSize(cfg.fireShow, cfg.showCombo, s.count, cfg.fireComboCount, cfg.maxFire))
  }

  /** The counter is displayed once the combo exceeds 1 (it is not hidden here otherwise). */
  function ShowComboCount(cfg: Config, s: State): State
  {
    if cfg.showCombo && s.count > 1 then s.(comboShown := true) else s
  }

  /** `startComboDecay`: mark the combo as decaying and arm the first step. */
  function StartComboDecay(s: State): State
  {
    s.(decaying := true, decayArmed := true, decayDelay := DecayInterval(s.count))
  }

  /** `resetCombo`: decay a live combo, otherwise hide the counter and the fire. */
  function ResetCombo(s: State): State
  {
    if s.count > 0 then StartComboDecay(s)
    else s.(count := 0, comboShown := false, fire := None)
  }

  /** The tail shared by the three branches for a repeated emote. */
  function Refresh(cfg: Config, s: State): State
  {
    ResetFadeTimer(cfg, UpdateFireEffect(cfg, ShowComboCount(cfg, s)).(displayed := true, solid := true))
  }

  /** `showEmote` for the emote already current: the three repeat branches. */
  function RepeatEmote(cfg: Config, s: State): State
  {
    if s.decaying && cfg.comboSave then
      // the repeat saves the combo: a pending decay step is cancelled
      Refresh(cfg, if s.decayArmed then s.(decayArmed := false, decaying := false) else s)
    else if s.decaying then
      // without comboSave the decay goes on, but the fade timer is re-armed
      Refresh(cfg, s)
    else
      Refresh(cfg, s.(count := s.count + 1))
  }

  /** `showEmote` for a different emote: stop a running decay, restart the count, load the image. */
  function NewEmote(s: State, name: string): State
  {
    var s1 := if s.decaying && s.decayArmed then s.(decayArmed := false, decaying := false) else s;
    s1.(lastEmote := Some(name), count := 1, loading := true)
  }

  /** `showEmote(name, url)`. */
  function ShowEmote(cfg: Config, s: State, name: string, url: string): State
  {
    if url == "" then s.(displayed := false)
    else if s.lastEmote == Some(name) then RepeatEmote(cfg, s)
    else NewEmote(s, name)
  }

  /** `emoteImg.onload` of the latest new emote. */
  function OnImageLoad(cfg: Config, s: State): State
  {
    var s1 := s.(displayed := true, solid := true, comboShown := cfg.showCombo && s.count > 1, loading := false);
    ResetFadeTimer(cfg, UpdateFireEffect(cfg, s1))
  }

  /** `emoteImg.onerror`: hide the container; the fade timer is not re-armed. */
  function OnImageError(s: State): State
  {
    s.(displayed := false, loading := false)
  }

  /** The fade timer's callback. */
  function OnFade(cfg: Config, s: State): State
  {
    var s0 := s.(fadeArmed := false);
    if !cfg.comboDecayAnimation then
      s0.(count := 0, comboShown := false, fire := None, solid := false, cleanups := s.cleanups + [FadeCleanup])
    else
      ResetCombo(s0)
  }

  /** `decayStep`. */
  function DecayStep(cfg: Config, s: State): State
  {
    if s.count > 0 then
      var c := s.count - 1;
      if c > 0 then
        UpdateFireEffect(cfg, s.(count := c)).(decayArmed := true, decayDelay := DecayInterval(c))
      else
        s.(count := 0, comboShown := false, solid := false, cleanups := s.cleanups + [DecayCleanup],
           fire := None, decayArmed := false)
    else
      s.(decayArmed := false, decaying := false)
  }

  /** The oldest pending 800 ms cleanup: hide the container and forget the emote, whatever it now is. */
  function OnCleanup(s: State): State
    requires s.cleanups != []
  {
    var rest := s.cleanups[1..];
    match s.cleanups[0]
    case FadeCleanup => s.(cleanups := rest, displayed := false, lastEmote := None)
    case DecayCleanup => s.(cleanups := rest, displayed := false, lastEmote := None, decaying := false)
  }

  /** Whether the environment can deliver the event: only pending timers and awaited images fire. */
  predicate Enabled(s: State, e: Event)
  {
    match e
    case Observe(_, _) => true
    case ImageLoaded => s.loading
    case ImageFailed => s.loading
    case FadeFired => s.fadeArmed
    case DecayStepFired => s.decayArmed
    case CleanupFired => s.cleanups != []
  }

  /** One event; an event that cannot be delivered changes nothing. */
  function Step(cfg: Config, s: State, e: Event): State
  {
    if !Enabled(s, e) then s
    else
      match e
      case Observe(name, url) => ShowEmote(cfg, s, name, url)
      case ImageLoaded => OnImageLoad(cfg, s)
      case ImageFailed => OnImageError(s)
      case FadeFired => OnFade(cfg, s)
      case DecayStepFired => DecayStep(cfg, s)
      case CleanupFired => OnCleanup(s)
  }

  /** A sequence of events, in order. */
  function Run(cfg: Config, s: State, events: seq<Event>): State
    decreases |events|
  {
    if events == [] then s else Run(cfg, Step(cfg, s, events[0]), events[1..])
  }

  /** The kind of cleanup a configuration schedules. */
  function CleanupKind(cfg: Config): Cleanup
  {
    if cfg.comboDecayAnimation then DecayCleanup else FadeCleanup
  }

  /**
   * What every reachable state satisfies: a pending decay step has a positive
   * count to take down, decay only happens with a fade timeout and the decay
   * animation, and only the configured kind of cleanup is ever pending.
   */
  ghost predicate Inv(cfg: Config, s: State)
  {
    && (s.decayArmed ==> s.count > 0)
    && (s.decayArmed || s.decaying ==> cfg.comboDecayAnimation && cfg.fadeTimeout > 0)
    && (s.fadeArmed ==> cfg.fadeTimeout > 0)
    && (s.cleanups != [] ==> cfg.fadeTimeout > 0)
    && (forall i :: 0 <= i < |s.cleanups| ==> s.cleanups[i] == CleanupKind(cfg))
  }

  /** No timer of any kind is pending. */
  predicate Quiet(s: State)
  {
    !s.fadeArmed && !s.decayArmed && !s.decaying && s.cleanups == []
  }

  /** `n` copies of one event. */
  function Repeat(e: Event, n: nat): (r: seq<Event>)
    ensures |r| == n && forall i :: 0 <= i < n ==> r[i] == e
  {
    seq(n, _ => e)
  }
}
