/**
 * The overlay engine in the script's own imperative form: the module-level
 * variables become the fields of one object, and each function or callback
 * that updates them becomes a method. Every method is proved to perform
 * exactly the transition `Combo` defines for it, and every event handler is
 * proved to keep `Combo.Inv`.
 */
module Overlay {
  import opened Common
  import Combo
  import ComboProps
  import Scan
  import Decay

  class Engine {
    const cfg: Combo.Config
    const chatEmotes: map<string, string>
    const globalEmotes: map<string, string>

    var lastEmoteName: Option<string>
    var comboCount: nat
    var fadeTimer: bool               // a fade timer is pending
    var comboInterval: bool           // a decay step is pending (the handle is not null)
    var comboDelay: int               // the delay that step was armed with
    var isComboDecaying: bool
    var cleanups: seq<Combo.Cleanup>  // pending 800 ms cleanups, oldest first
    var imageLoading: bool            // onload/onerror of the latest new emote awaited
    var displayed: bool
    var solid: bool
    var comboShown: bool
    var fire: Option<real>

    ghost function Model(): Combo.State
      reads this
    {
      Combo.State(lastEmoteName, comboCount, fadeTimer, comboInterval, comboDelay, isComboDecaying,
                  cleanups, imageLoading, displayed, solid, comboShown, fire)
    }

    ghost predicate Valid()
      reads this
    {
      Combo.Inv(cfg, Model())
    }

    /** Start-up, with the two emote maps already loaded. */
    constructor (cfg: Combo.Config, chat: map<string, string>, global: map<string, string>)
      ensures Valid() && Model() == Combo.Init()
      ensures this.cfg == cfg && chatEmotes == chat && globalEmotes == global
    {
      this.cfg := cfg;
      chatEmotes := chat;
      globalEmotes := global;
      lastEmoteName := None;
      comboCount := 0;
      fadeTimer := false;
      comboInterval := false;
      comboDelay := 0;
      isComboDecaying := false;
      cleanups := [];
      imageLoading := false;
      displayed := false;
      solid := false;
      comboShown := false;
      fire := None;
    }

    method ResetFadeTimer()
      modifies this
      ensures Model() == Combo.ResetFadeTimer(cfg, old(Model()))
    {
      if cfg.fadeTimeout <= 0 {
        return;
      }
      // a pending fade timer is cleared and a new one armed
      displayed := true;
      solid := true;
      fadeTimer := true;
    }

    method UpdateFireEffect()
      modifies this
      ensures Model() == Combo.UpdateFireEffect(cfg, old(Model()))
    {
      if !cfg.fireShow || !cfg.showCombo || comboCount < cfg.fireComboCount {
        fire := None;
        return;
      }
      var unclamped := 1.0 + (comboCount - cfg.fireComboCount) as real / 11.0;
      fire := Some(MinReal(cfg.maxFire, MaxReal(1.0, unclamped)));
    }

    method StartComboDecay()
      modifies this
      ensures Model() == Combo.StartComboDecay(old(Model()))
    {
      isComboDecaying := true;
      // a pending step is cleared and the first step armed
      comboInterval := true;
      comboDelay := Decay.DecayInterval(comboCount);
    }

    method ResetCombo()
      modifies this
      ensures Model() == Combo.ResetCombo(old(Model()))
    {
      if comboCount > 0 {
        StartComboDecay();
      } else {
        comboCount := 0;
        comboShown := false;
        fire := None;
      }
    }

    /** The shared tail of the three branches for a repeated emote. */
    method Refresh()
      modifies this
      ensures Model() == Combo.Refresh(cfg, old(Model()))
    {
      if cfg.showCombo && comboCount > 1 {
        comboShown := true;
      }
      UpdateFireEffect();
      displayed := true;
      solid := true;
      ResetFadeTimer();
    }

    method ShowEmote(name: string, url: string)
      requires Valid()
      modifies this
      ensures Valid()
      ensures Model() == Combo.ShowEmote(cfg, old(Model()), name, url)
    {
      ComboProps.ObservePreservesInv(cfg, Model(), name, url);
      if url == "" {
        displayed := false;
        return;
      }
      if lastEmoteName == Some(name) {
        RepeatEmote();
        return;
      }
      NewEmote(name);
    }

    /** The branches of `showEmote` for the emote already current. */
    method RepeatEmote()
      modifies this
      ensures Model() == Combo.RepeatEmote(cfg, old(Model()))
    {
      ghost var s := Model();
      if isComboDecaying && cfg.comboSave {
        if comboInterval {
          comboInterval := false;
          isComboDecaying := false;
        }
        assert Model() == if s.decayArmed then s.(decayArmed := false, decaying := false) else s;
      } else if isComboDecaying && !cfg.comboSave {
        // the decay goes on untouched, and the count does not change
        assert Model() == s;
      } else {
        comboCount := comboCount + 1;
        assert Model() == s.(count := s.count + 1);
      }
      // the three branches end in the same counter, fire, visibility and fade-timer updates
      ghost var before := Model();
      assert Combo.RepeatEmote(cfg, s) == Combo.Refresh(cfg, before);
      Refresh();
    }

    /** The branch of `showEmote` for a different emote. */
    method NewEmote(name: string)
      modifies this
      ensures Model() == Combo.NewEmote(old(Model()), name)
    {
      if isComboDecaying && comboInterval {
        comboInterval := false;
        isComboDecaying := false;
      }
      lastEmoteName := Some(name);
      comboCount := 1;
      // new onload/onerror handlers, and the image starts loading
      imageLoading := true;
    }

    method OnImageLoad()
      requires Valid() && imageLoading
      modifies this
      ensures Valid()
      ensures Model() == Combo.OnImageLoad(cfg, old(Model()))
    {
      ComboProps.ImageLoadPreservesInv(cfg, Model());
      imageLoading := false;
      displayed := true;
      solid := true;
      comboShown := cfg.showCombo && comboCount > 1;
      UpdateFireEffect();
      ResetFadeTimer();
    }

    method OnImageError()
      requires Valid() && imageLoading
      modifies this
      ensures Valid()
      ensures Model() == Combo.OnImageError(old(Model()))
    {
      imageLoading := false;
      displayed := false;
    }

    method OnFadeTimer()
      requires Valid() && fadeTimer
      modifies this
      ensures Valid()
      ensures Model() == Combo.OnFade(cfg, old(Model()))
    {
      ComboProps.FadePreservesInv(cfg, Model());
      fadeTimer := false;
      if !cfg.comboDecayAnimation {
        comboCount := 0;
        comboShown := false;
        fire := None;
        solid := false;
        cleanups := cleanups + [Combo.FadeCleanup];
      } else {
        ResetCombo();
      }
    }

    /** A decay step that leaves the combo alive: one down, fire updated, the next step re-armed. */
    method DecayLower()
      requires comboCount > 1
      modifies this
      ensures Model() == Combo.DecayStep(cfg, old(Model()))
    {
      comboCount := comboCount - 1;
      UpdateFireEffect();
      comboDelay := Decay.DecayInterval(comboCount);
      comboInterval := true;
    }

    /** The last decay step: the combo is gone and its 800 ms cleanup is queued. */
    method DecayFinish()
      requires comboCount == 1
      modifies this
      ensures Model() == Combo.DecayStep(cfg, old(Model()))
    {
      comboCount := 0;
      comboShown := false;
      solid := false;
      cleanups := cleanups + [Combo.DecayCleanup];
      fire := None;
      comboInterval := false;
    }

    method OnDecayStep()
      requires Valid() && comboInterval
      modifies this
      ensures Valid()
      ensures Model() == Combo.DecayStep(cfg, old(Model()))
    {
      ComboProps.DecayStepPreservesInv(cfg, Model());
      // a pending step always has a positive count to take down (Combo.Inv),
      // so the script's branch for a zero count is never taken
      if comboCount == 0 {
        assert false;
      } else if comboCount > 1 {
        DecayLower();
      } else {
        DecayFinish();
      }
    }

    method OnCleanup()
      requires Valid() && cleanups != []
      modifies this
      ensures Valid()
      ensures Model() == Combo.OnCleanup(old(Model()))
    {
      ComboProps.CleanupPreservesInv(cfg, Model());
      var kind := cleanups[0];
      cleanups := cleanups[1..];
      displayed := false;
      lastEmoteName := None;
      if kind == Combo.DecayCleanup {
        isComboDecaying := false;
      }
    }

    /** `ws.onmessage` for a chat line: scan its words and show the first emote found. */
    method OnChatMessage(message: string)
      requires Valid()
      modifies this
      ensures Valid()
      ensures Model() == match Scan.FirstHit(Scan.Words(message), chatEmotes, globalEmotes)
        case None => old(Model())
        case Some(hit) => Combo.ShowEmote(cfg, old(Model()), hit.name, hit.url)
    {
      var hit := Scan.ScanMessage(message, chatEmotes, globalEmotes);
      if hit.Some? {
        ShowEmote(hit.value.name, hit.value.url);
      }
    }
  }
}
