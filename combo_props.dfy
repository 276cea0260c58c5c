/** What the combo/decay state machine guarantees, event by event and over whole runs. */
module ComboProps {
  import opened Common
  import opened Decay
  import opened Fire
  import opened Combo

  lemma InitInv(cfg: Config)
    ensures Inv(cfg, Init()) && Quiet(Init())
  {
  }

  /** What the shared tail of a repeat changes: the fade timer, visibility, the counter and the fire. */
  lemma RefreshKeeps(cfg: Config, s: State)
    ensures var t := Refresh(cfg, s);
      && t.count == s.count && t.lastEmote == s.lastEmote && t.cleanups == s.cleanups
      && t.decayArmed == s.decayArmed && t.decaying == s.decaying && t.decayDelay == s.decayDelay
      && t.loading == s.loading && t.displayed && t.solid
      && t.fadeArmed == (cfg.fadeTimeout > 0 || s.fadeArmed)
      && t.fire == FireSize(cfg.fireShow, cfg.showCombo, s.count, cfg.fireComboCount, cfg.maxFire)
  {
  }

  lemma ObservePreservesInv(cfg: Config, s: State, name: string, url: string)
    requires Inv(cfg, s)
    ensures Inv(cfg, ShowEmote(cfg, s, name, url))
  {
    if url != "" && s.lastEmote == Some(name) {
      if s.decaying && cfg.comboSave {
        RefreshKeeps(cfg, if s.decayArmed then s.(decayArmed := false, decaying := false) else s);
      } else if s.decaying {
        RefreshKeeps(cfg, s);
      } else {
        RefreshKeeps(cfg, s.(count := s.count + 1));
      }
    }
  }

  lemma ImageLoadPreservesInv(cfg: Config, s: State)
    requires Inv(cfg, s)
    ensures Inv(cfg, OnImageLoad(cfg, s))
  {
    assert OnImageLoad(cfg, s).cleanups == s.cleanups;
  }

  lemma FadePreservesInv(cfg: Config, s: State)
    requires Inv(cfg, s) && s.fadeArmed
    ensures Inv(cfg, OnFade(cfg, s))
  {
    var t := OnFade(cfg, s);
    if !cfg.comboDecayAnimation {
      assert forall i :: 0 <= i < |s.cleanups| ==> t.cleanups[i] == s.cleanups[i];
    } else {
      assert t.cleanups == s.cleanups;
    }
  }

  lemma DecayStepPreservesInv(cfg: Config, s: State)
    requires Inv(cfg, s) && s.decayArmed
    ensures Inv(cfg, DecayStep(cfg, s))
  {
    var t := DecayStep(cfg, s);
    assert forall i :: 0 <= i < |s.cleanups| ==> t.cleanups[i] == s.cleanups[i];
  }

  lemma CleanupPreservesInv(cfg: Config, s: State)
    requires Inv(cfg, s) && s.cleanups != []
    ensures Inv(cfg, OnCleanup(s))
  {
    var t := OnCleanup(s);
    assert forall i :: 0 <= i < |t.cleanups| ==> t.cleanups[i] == s.cleanups[i + 1];
  }

  /** Every event keeps the invariant. */
  lemma StepPreservesInv(cfg: Config, s: State, e: Event)
    requires Inv(cfg, s)
    ensures Inv(cfg, Step(cfg, s, e))
  {
    if Enabled(s, e) {
      match e
      case Observe(name, url) => ObservePreservesInv(cfg, s, name, url);
      case ImageLoaded => ImageLoadPreservesInv(cfg, s);
      case ImageFailed =>
      case FadeFired => FadePreservesInv(cfg, s);
      case DecayStepFired => DecayStepPreservesInv(cfg, s);
      case CleanupFired => CleanupPreservesInv(cfg, s);
    }
  }

  /** Every run keeps the invariant. */
  lemma {:induction false} RunPreservesInv(cfg: Config, s: State, events: seq<Event>)
    requires Inv(cfg, s)
    ensures Inv(cfg, Run(cfg, s, events))
    decreases |events|
  {
    if events != [] {
      StepPreservesInv(cfg, s, events[0]);
      RunPreservesInv(cfg, Step(cfg, s, events[0]), events[1..]);
    }
  }

  lemma {:induction false} RunAppend(cfg: Config, s: State, a: seq<Event>, b: seq<Event>)
    ensures Run(cfg, s, a + b) == Run(cfg, Run(cfg, s, a), b)
    decreases |a|
  {
    if a != [] {
      assert (a + b)[0] == a[0] && (a + b)[1..] == a[1..] + b;
      RunAppend(cfg, Step(cfg, s, a[0]), a[1..], b);
    } else {
      assert a + b == b;
    }
  }

  /**
   * With a fade timeout of 0 (or less) no timer is ever armed: whatever the
   * chat does, the fade timer, the decay steps and the cleanups never fire.
   */
  lemma NoFadeTimeoutNoTimers(cfg: Config, events: seq<Event>)
    requires cfg.fadeTimeout <= 0
    ensures Quiet(Run(cfg, Init(), events))
    ensures Step(cfg, Run(cfg, Init(), events), FadeFired) == Run(cfg, Init(), events)
    ensures Step(cfg, Run(cfg, Init(), events), DecayStepFired) == Run(cfg, Init(), events)
    ensures Step(cfg, Run(cfg, Init(), events), CleanupFired) == Run(cfg, Init(), events)
  {
    RunPreservesInv(cfg, Init(), events);
  }

  /** An emote event without a URL only hides the container. */
  lemma MissingUrlHides(cfg: Config, s: State, name: string)
    ensures Step(cfg, s, Observe(name, "")) == s.(displayed := false)
  {
  }

  /**
   * The same emote again while the combo is not decaying: the count grows by
   * exactly one, the fade timer is (re-)armed when there is a timeout, and the
   * emote is visible; a decay step still pending is left alone.
   */
  lemma RepeatIncrements(cfg: Config, s: State, name: string, url: string)
    requires Inv(cfg, s)
    requires url != "" && s.lastEmote == Some(name) && !s.decaying
    ensures var t := Step(cfg, s, Observe(name, url));
      && t.count == s.count + 1
      && t.lastEmote == s.lastEmote
      && t.fadeArmed == (cfg.fadeTimeout > 0)
      && t.displayed && t.solid
      && t.decayArmed == s.decayArmed && !t.decaying
      && t.fire == FireSize(cfg.fireShow, cfg.showCombo, s.count + 1, cfg.fireComboCount, cfg.maxFire)
  {
  }

  /**
   * A different emote (or the first one): it becomes the current emote with a
   * count of exactly 1, whatever the previous count; a pending decay step of a
   * decaying combo is cancelled. The fade timer is untouched until the image loads.
   */
  lemma NewEmoteRestarts(cfg: Config, s: State, name: string, url: string)
    requires url != "" && s.lastEmote != Some(name)
    ensures var t := Step(cfg, s, Observe(name, url));
      && t.lastEmote == Some(name)
      && t.count == 1
      && t.loading
      && t.fadeArmed == s.fadeArmed
      && (s.decaying && s.decayArmed ==> !t.decayArmed && !t.decaying)
      && (!(s.decaying && s.decayArmed) ==> t.decayArmed == s.decayArmed && t.decaying == s.decaying)
      // the previous combo's counter, fire and visibility stay until the image loads
      && t.fire == s.fire && t.comboShown == s.comboShown
      && t.displayed == s.displayed && t.solid == s.solid
      && t.cleanups == s.cleanups
  {
  }

  /**
   * The same emote while the combo is decaying never changes the count, and
   * re-arms the fade timer. With `comboSave` a pending decay step is cancelled
   * and the decay is over; without it the decay step and the decaying flag are
   * left as they were.
   */
  lemma RepeatDuringDecay(cfg: Config, s: State, name: string, url: string)
    requires Inv(cfg, s)
    requires url != "" && s.lastEmote == Some(name) && s.decaying
    ensures var t := Step(cfg, s, Observe(name, url));
      && t.count == s.count
      && t.lastEmote == s.lastEmote
      && t.fadeArmed
      && (cfg.comboSave ==> !t.decayArmed && t.decaying == !s.decayArmed)
      && (!cfg.comboSave ==> t.decayArmed == s.decayArmed && t.decaying && t.decayDelay == s.decayDelay)
  {
    if cfg.comboSave {
      RefreshKeeps(cfg, if s.decayArmed then s.(decayArmed := false, decaying := false) else s);
    } else {
      RefreshKeeps(cfg, s);
    }
  }

  /** The image of a new emote loads: the fade timer is (re-)armed, the counter and the fire follow the count. */
  lemma ImageLoadArmsFade(cfg: Config, s: State)
    requires Inv(cfg, s) && s.loading
    ensures var t := Step(cfg, s, ImageLoaded);
      && t.fadeArmed == (cfg.fadeTimeout > 0)
      && t.displayed && t.solid && !t.loading
      && t.comboShown == (cfg.showCombo && s.count > 1)
      && t.fire == FireSize(cfg.fireShow, cfg.showCombo, s.count, cfg.fireComboCount, cfg.maxFire)
      && t.count == s.count && t.lastEmote == s.lastEmote
  {
  }

  /** The image fails to load: the container is hidden and no fade timer is armed for it. */
  lemma ImageErrorHides(cfg: Config, s: State)
    requires s.loading
    ensures var t := Step(cfg, s, ImageFailed);
      && !t.displayed && !t.loading
      && t.fadeArmed == s.fadeArmed && t.count == s.count && t.lastEmote == s.lastEmote
  {
  }

  /**
   * The fade timer expires. Without the decay animation the count drops to 0
   * at once and a cleanup that forgets the emote is queued. With it, a live
   * combo starts decaying from its current count (first step after
   * `DecayInterval(count)`), and a zero combo is cleared immediately.
   */
  lemma FadeExpiry(cfg: Config, s: State)
    requires Inv(cfg, s) && s.fadeArmed
    ensures var t := Step(cfg, s, FadeFired);
      && !t.fadeArmed
      && t.lastEmote == s.lastEmote
      && (!cfg.comboDecayAnimation ==>
            t.count == 0 && !t.solid && !t.comboShown && t.fire == None
            && t.cleanups == s.cleanups + [FadeCleanup] && !t.decayArmed)
      && (cfg.comboDecayAnimation && s.count > 0 ==>
            t.count == s.count && t.decaying && t.decayArmed && t.decayDelay == DecayInterval(s.count)
            && t.cleanups == s.cleanups)
      && (cfg.comboDecayAnimation && s.count == 0 ==>
            t.count == 0 && !t.comboShown && t.fire == None && !t.decayArmed && t.cleanups == s.cleanups)
  {
  }

  /**
   * One decay step lowers the count by exactly one (never below 0). While the
   * count stays positive the next step is armed with the delay for the new
   * count; at 0 no step is pending and a cleanup that forgets the emote and
   * ends the decay is queued.
   */
  lemma DecayStepLowersByOne(cfg: Config, s: State)
    requires Inv(cfg, s) && s.decayArmed
    ensures var t := Step(cfg, s, DecayStepFired);
      && t.count == s.count - 1
      && t.lastEmote == s.lastEmote && t.decaying == s.decaying
      && (t.count > 0 ==>
            t.decayArmed && t.decayDelay == DecayInterval(t.count) && t.cleanups == s.cleanups
            && t.fire == FireSize(cfg.fireShow, cfg.showCombo, t.count, cfg.fireComboCount, cfg.maxFire))
      && (t.count == 0 ==>
            !t.decayArmed && !t.solid && !t.comboShown && t.fire == None
            && t.cleanups == s.cleanups + [DecayCleanup])
  {
  }

  /**
   * The oldest cleanup fires: the container is hidden and the current emote is
   * forgotten, even when it is a newer emote than the one that faded; a decay
   * cleanup also ends the decay.
   */
  lemma CleanupForgets(cfg: Config, s: State)
    requires s.cleanups != []
    ensures var t := Step(cfg, s, CleanupFired);
      && t.lastEmote == None && !t.displayed
      && t.cleanups == s.cleanups[1..]
      && t.count == s.count
      && (s.cleanups[0] == DecayCleanup ==> !t.decaying)
      && (s.cleanups[0] == FadeCleanup ==> t.decaying == s.decaying)
  {
    assert Enabled(s, CleanupFired);
    var t := OnCleanup(s);
    assert Step(cfg, s, CleanupFired) == t;
    if s.cleanups[0] == DecayCleanup {
      assert t == s.(cleanups := s.cleanups[1..], displayed := false, lastEmote := None, decaying := false);
    } else {
      assert t == s.(cleanups := s.cleanups[1..], displayed := false, lastEmote := None);
    }
  }

  /**
   * A streak of the current emote while it is not decaying: `n` more
   * observations raise the count by exactly `n`.
   */
  lemma {:induction false} StreakCounts(cfg: Config, s: State, name: string, url: string, n: nat)
    requires Inv(cfg, s)
    requires url != "" && s.lastEmote == Some(name) && !s.decaying
    ensures var t := Run(cfg, s, Repeat(Observe(name, url), n));
      t.count == s.count + n && t.lastEmote == Some(name) && !t.decaying && Inv(cfg, t)
    decreases n
  {
    if n > 0 {
      var e := Observe(name, url);
      RepeatIncrements(cfg, s, name, url);
      StepPreservesInv(cfg, s, e);
      assert Repeat(e, n)[0] == e && Repeat(e, n)[1..] == Repeat(e, n - 1);
      StreakCounts(cfg, Step(cfg, s, e), name, url, n - 1);
    }
  }

  /**
   * A fresh streak: `n >= 1` observations of an emote that is not the current
   * one end with a count of exactly `n`, unless the first one arrives while the
   * decaying flag is set with no decay step pending (the window between a
   * decay reaching 0 and its cleanup), see `StaleDecayFlagSwallowsRepeats`.
   */
  lemma FreshStreakCounts(cfg: Config, s: State, name: string, url: string, n: nat)
    requires Inv(cfg, s)
    requires url != "" && s.lastEmote != Some(name) && n >= 1
    requires !(s.decaying && !s.decayArmed)
    ensures Run(cfg, s, Repeat(Observe(name, url), n)).count == n
  {
    var e := Observe(name, url);
    NewEmoteRestarts(cfg, s, name, url);
    StepPreservesInv(cfg, s, e);
    assert Repeat(e, n)[0] == e && Repeat(e, n)[1..] == Repeat(e, n - 1);
    StreakCounts(cfg, Step(cfg, s, e), name, url, n - 1);
  }

  /**
   * Once decay has started it runs down by itself: `count` decay steps with
   * nothing in between take the count to 0, leave no step pending, and queue
   * exactly one cleanup; the emote itself is only forgotten by that cleanup.
   */
  lemma {:induction false} DecayRunsDown(cfg: Config, s: State)
    requires Inv(cfg, s) && s.decayArmed
    ensures var t := Run(cfg, s, Repeat(DecayStepFired, s.count));
      && t.count == 0 && !t.decayArmed
      && t.cleanups == s.cleanups + [DecayCleanup]
      && t.lastEmote == s.lastEmote && t.decaying == s.decaying
    decreases s.count
  {
    var n := s.count;
    var t := Step(cfg, s, DecayStepFired);
    DecayStepLowersByOne(cfg, s);
    StepPreservesInv(cfg, s, DecayStepFired);
    assert Repeat(DecayStepFired, n)[0] == DecayStepFired;
    assert Repeat(DecayStepFired, n)[1..] == Repeat(DecayStepFired, n - 1);
    if t.count > 0 {
      DecayRunsDown(cfg, t);
    } else {
      assert Repeat(DecayStepFired, n - 1) == [];
    }
  }

  /** The configuration the scenarios below use (the shipped defaults). */
  function DefaultConfig(): Config
  {
    Config(10000, true, true, true, 5, 8.0, true)
  }

  /**
   * Six observations of one emote in a row: the count is 6 and the fire,
   * with threshold 5 and cap 8, has size 12/11 (about 1.09).
   */
  lemma SixInARow(url: string)
    requires url != ""
    ensures var t := Run(DefaultConfig(), Init(), Repeat(Observe("A", url), 6));
      t.count == 6 && t.fire == Some(12.0 / 11.0)
  {
    var cfg := DefaultConfig();
    var e := Observe("A", url);
    var s1 := Step(cfg, Init(), e);
    assert Repeat(e, 6) == [e] + Repeat(e, 5);
    InitInv(cfg);
    StepPreservesInv(cfg, Init(), e);
    StreakCounts(cfg, s1, "A", url, 5);
    var t := Run(cfg, s1, Repeat(e, 5));
    assert Repeat(e, 5) == Repeat(e, 4) + [e];
    RunAppend(cfg, s1, Repeat(e, 4), [e]);
    StreakCounts(cfg, s1, "A", url, 4);
  }

  /**
   * One observation of emote A, its image loaded, its fade timer and its one
   * decay step: the count is 0 but the decaying flag stays set until the
   * queued cleanup fires.
   */
  lemma DecayToZero(url: string)
    requires url != ""
    ensures var s := Run(DefaultConfig(), Init(), [Observe("A", url), ImageLoaded, FadeFired, DecayStepFired]);
      && s.count == 0 && s.decaying && !s.decayArmed
      && s.lastEmote == Some("A") && s.cleanups == [DecayCleanup]
  {
    var cfg := DefaultConfig();
    var s0 := Init();
    var s1 := Step(cfg, s0, Observe("A", url));
    assert s1.lastEmote == Some("A") && s1.count == 1 && s1.loading;
    var s2 := Step(cfg, s1, ImageLoaded);
    assert s2.fadeArmed;
    var s3 := Step(cfg, s2, FadeFired);
    assert s3.decayArmed && s3.decaying && s3.count == 1;
    var s4 := Step(cfg, s3, DecayStepFired);
    assert s4.count == 0 && !s4.decayArmed && s4.decaying && s4.cleanups == [DecayCleanup];
    assert Run(cfg, s0, [Observe("A", url), ImageLoaded, FadeFired, DecayStepFired]) == s4 by {
      assert [Observe("A", url), ImageLoaded, FadeFired, DecayStepFired][1..] == [ImageLoaded, FadeFired, DecayStepFired];
      assert [ImageLoaded, FadeFired, DecayStepFired][1..] == [FadeFired, DecayStepFired];
      assert [FadeFired, DecayStepFired][1..] == [DecayStepFired];
    }
  }

  /**
   * The same emote again in the 800 ms after its decay reached 0: it is taken
   * as "same emote during decay", so the count stays at 0 instead of a fresh 1.
   */
  lemma SameEmoteAfterDecayStaysZero(url: string)
    requires url != ""
    ensures Run(DefaultConfig(), Init(),
                [Observe("A", url), ImageLoaded, FadeFired, DecayStepFired, Observe("A", url)]).count == 0
  {
    var cfg := DefaultConfig();
    var prefix := [Observe("A", url), ImageLoaded, FadeFired, DecayStepFired];
    DecayToZero(url);
    var s4 := Run(cfg, Init(), prefix);
    assert prefix + [Observe("A", url)] == [Observe("A", url), ImageLoaded, FadeFired, DecayStepFired, Observe("A", url)];
    RunAppend(cfg, Init(), prefix, [Observe("A", url)]);
    assert Run(cfg, s4, [Observe("A", url)]) == Step(cfg, s4, Observe("A", url)) by {
      assert [Observe("A", url)][1..] == [];
    }
  }

  /**
   * The stale decaying flag. Emote A decays to 0 (its cleanup is still
   * pending, so `isComboDecaying` stays set); emote B arrives and then repeats:
   * the repeat is taken as "same emote during decay" and the count stays at 1.
   * When A's cleanup then fires it forgets B, so the next B starts over at 1.
   */
  lemma StaleDecayFlagSwallowsRepeats(url: string)
    requires url != ""
    ensures var cfg := DefaultConfig();
      var afterDecay := Run(cfg, Init(), [Observe("A", url), ImageLoaded, FadeFired, DecayStepFired]);
      var twoB := Run(cfg, afterDecay, [Observe("B", url), Observe("B", url)]);
      var afterCleanup := Step(cfg, twoB, CleanupFired);
      && afterDecay.count == 0 && afterDecay.decaying && !afterDecay.decayArmed
      && twoB.lastEmote == Some("B") && twoB.count == 1
      && afterCleanup.lastEmote == None
      && Step(cfg, afterCleanup, Observe("B", url)).count == 1
  {
    var cfg := DefaultConfig();
    DecayToZero(url);
    var s4 := Run(cfg, Init(), [Observe("A", url), ImageLoaded, FadeFired, DecayStepFired]);
    var s5 := Step(cfg, s4, Observe("B", url));
    assert s5.count == 1 && s5.decaying;
    var s6 := Step(cfg, s5, Observe("B", url));
    assert s6.count == 1;
    assert Run(cfg, s4, [Observe("B", url), Observe("B", url)]) == s6 by {
      assert [Observe("B", url), Observe("B", url)][1..] == [Observe("B", url)];
      assert Run(cfg, s6, []) == s6;
      assert Run(cfg, s5, [Observe("B", url)]) == s6;
    }
  }
}
