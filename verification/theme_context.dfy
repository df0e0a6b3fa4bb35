/**
 * The theme-preference store (`CustomThemeProvider`, contexts/ThemeContext.tsx).
 *
 * The provider holds the user's preference ('light' | 'dark' | 'system'),
 * the scheme the platform reports, and the effective theme derived from the
 * two; it loads the preference once from a key-value store and writes it back
 * whenever the preference or the platform scheme changes.
 *
 * The store is specified as a state machine on values (`ProviderState`,
 * `Mount`, `Step`, `Run`); the class `Provider` implements it by updating its
 * fields in place: its constructor is proved to perform `Mount`, and each of
 * its event methods one `Step`.
 */
module ThemeContext {
  import opened Wrappers

  /** The three string literals of the `Theme` union. */
  predicate IsThemeName(s: string) {
    s == "light" || s == "dark" || s == "system"
  }

  /** A preference: the union 'light' | 'dark' | 'system', as strings. */
  type Theme = s: string | IsThemeName(s) witness "system"

  /** A concrete scheme: the sub-union 'light' | 'dark'. */
  type Scheme = t: Theme | t != "system" witness "light"

  const Light: Scheme := "light"
  const Dark: Scheme := "dark"
  const System: Theme := "system"

  /** The one key the provider reads and writes. */
  const ThemeStorageKey := "user-theme-preference"

  /**
   * The platform scheme as the provider sees it: the reported one, or
   * 'light' when the platform reports nothing (`?? 'light'`).
   */
  function DefaultScheme(reported: Option<Scheme>): (r: Scheme)
    ensures r == Dark <==> reported == Some(Dark)
    ensures reported.Some? ==> r == reported.value
  {
    reported.GetOr(Light)
  }

  /** The effective theme: an explicit preference wins, 'system' follows the platform. */
  function Resolve(pref: Theme, platform: Scheme): (r: Scheme)
    ensures pref != System ==> r == pref
    ensures pref == System ==> r == platform
  {
    if pref == System then platform else pref
  }

  /** What the key-value store holds under the provider's key, if anything. */
  function Lookup(storage: map<string, string>): Option<string> {
    if ThemeStorageKey in storage then Some(storage[ThemeStorageKey]) else None
  }

  /**
   * The store's invariant: the provider is the only writer of its key and it
   * writes only preference strings, which is what makes the cast of the
   * loaded value to `Theme` sound.
   */
  predicate StorageValid(storage: map<string, string>) {
    ThemeStorageKey in storage ==> IsThemeName(storage[ThemeStorageKey])
  }

  /** The initial read: still in flight with the value it read, or settled. */
  datatype Load = Pending(seen: Option<string>) | Settled

  datatype ProviderState = ProviderState(
    pref: Theme,
    platform: Scheme,
    effective: Scheme,
    storage: map<string, string>,
    load: Load)

  /** An event the provider reacts to; `writeOk` says whether the write it triggers (if any) succeeds. */
  datatype Event =
    | LoadSettled(readOk: bool, writeOk: bool)
    | ThemeChosen(theme: Theme, writeOk: bool)
    | SchemeReported(reported: Option<Scheme>, writeOk: bool)

  /** The invariant kept between events. */
  predicate Inv(s: ProviderState) {
    && s.effective == Resolve(s.pref, s.platform)
    && StorageValid(s.storage)
    && (s.load.Pending? && s.load.seen.Some? ==> IsThemeName(s.load.seen.value))
  }

  /** The stored value mirrors the in-memory preference. */
  predicate Synced(s: ProviderState) {
    Lookup(s.storage) == Some(s.pref)
  }

  /** The initial read settles once. */
  predicate Enabled(s: ProviderState, e: Event) {
    e.LoadSettled? ==> s.load.Pending?
  }

  /**
   * The recompute-and-persist effect: set the effective theme from the
   * preference and the platform, and write the preference under the key
   * (a failed write changes nothing).
   */
  function Effect(s: ProviderState, writeOk: bool): (r: ProviderState)
    requires StorageValid(s.storage)
    ensures Inv(r) <==> (s.load.Pending? && s.load.seen.Some? ==> IsThemeName(s.load.seen.value))
    ensures writeOk ==> Synced(r)
    ensures !writeOk ==> r.storage == s.storage
    ensures r.storage - {ThemeStorageKey} == s.storage - {ThemeStorageKey}
    ensures r.pref == s.pref && r.platform == s.platform && r.load == s.load
  {
    s.(effective := Resolve(s.pref, s.platform),
       storage := if writeOk then s.storage[ThemeStorageKey := s.pref] else s.storage)
  }

  /**
   * A change of preference and/or platform scheme. The effect depends on
   * both, so it runs only when one of them differs from its current value;
   * otherwise nothing happens.
   */
  function Commit(s: ProviderState, pref: Theme, platform: Scheme, writeOk: bool): (r: ProviderState)
    requires Inv(s)
    ensures Inv(r)
    ensures r.pref == pref && r.platform == platform && r.load == s.load
    ensures (pref != s.pref || platform != s.platform) && writeOk ==> Synced(r)
    ensures Synced(s) && writeOk ==> Synced(r)
    ensures pref == s.pref && platform == s.platform ==> r == s
    ensures !writeOk ==> r.storage == s.storage
    ensures r.storage - {ThemeStorageKey} == s.storage - {ThemeStorageKey}
  {
    if pref == s.pref && platform == s.platform then s
    else Effect(s.(pref := pref, platform := platform), writeOk)
  }

  /**
   * Mounting the provider: preference 'system', effective theme the
   * (defaulted) platform scheme, the read of the stored preference issued,
   * and then the effect's first run, which writes 'system'. The read is
   * issued before that write, so it sees the value stored beforehand.
   */
  function Mount(reported: Option<Scheme>, store: map<string, string>, writeOk: bool): (r: ProviderState)
    requires StorageValid(store)
    ensures Inv(r)
    ensures r.pref == System && r.platform == DefaultScheme(reported)
    ensures r.effective == r.platform
    ensures r.load == Pending(Lookup(store))
    ensures writeOk ==> Synced(r)
    ensures !writeOk ==> r.storage == store
    ensures r.storage - {ThemeStorageKey} == store - {ThemeStorageKey}
  {
    var platform := DefaultScheme(reported);
    Effect(ProviderState(System, platform, platform, store, Pending(Lookup(store))), writeOk)
  }

  /**
   * One event:
   * - the read settles: a present, non-empty value becomes the preference;
   *   an absent or empty value, or a read error, changes nothing but the load;
   * - the user sets a preference;
   * - the platform reports a (possibly missing) scheme.
   */
  function Step(s: ProviderState, e: Event): (r: ProviderState)
    requires Inv(s) && Enabled(s, e)
    ensures Inv(r)
    ensures r.storage - {ThemeStorageKey} == s.storage - {ThemeStorageKey}
    ensures !e.writeOk ==> r.storage == s.storage
    ensures Synced(s) && e.writeOk ==> Synced(r)
    ensures e.LoadSettled? ==> r.load == Settled
    ensures !e.LoadSettled? ==> r.load == s.load
  {
    match e
    case LoadSettled(readOk, writeOk) =>
      var seen := s.load.seen;
      var settled := s.(load := Settled);
      if readOk && seen.Some? && seen.value != "" then
        Commit(settled, seen.value, s.platform, writeOk)
      else
        settled
    case ThemeChosen(theme, writeOk) =>
      Commit(s, theme, s.platform, writeOk)
    case SchemeReported(reported, writeOk) =>
      Commit(s, s.pref, DefaultScheme(reported), writeOk)
  }

  /** Every event of `es`, in turn, may happen in the state reached so far. */
  predicate EnabledTrace(s: ProviderState, es: seq<Event>)
    decreases |es|
  {
    && Inv(s)
    && (es != [] ==> Enabled(s, es[0]) && EnabledTrace(Step(s, es[0]), es[1..]))
  }

  /** The state after the events `es`, applied in order. */
  function Run(s: ProviderState, es: seq<Event>): (r: ProviderState)
    requires EnabledTrace(s, es)
    ensures Inv(r)
    ensures r.storage - {ThemeStorageKey} == s.storage - {ThemeStorageKey}
    decreases |es|
  {
    if es == [] then s else Run(Step(s, es[0]), es[1..])
  }

  predicate AllWritesSucceed(es: seq<Event>) {
    forall i :: 0 <= i < |es| ==> es[i].writeOk
  }

  // ---------------------------------------------------------------------
  // Properties of the resolution rule

  /** The effective theme is itself explicit, so resolving it again ignores the platform. */
  lemma ResolveIsFixedPoint(pref: Theme, platform: Scheme, other: Scheme)
    ensures Resolve(Resolve(pref, platform), other) == Resolve(pref, platform)
  {
  }

  // ---------------------------------------------------------------------
  // Properties of single events

  /** Settling the read: a present, non-empty value replaces the preference; otherwise only the load settles. */
  lemma LoadReplacesPreference(s: ProviderState, readOk: bool, writeOk: bool)
    requires Inv(s) && s.load.Pending?
    ensures var r := Step(s, LoadSettled(readOk, writeOk));
      && r.load == Settled && r.platform == s.platform
      && r.effective == Resolve(r.pref, r.platform)
      && (readOk && s.load.seen.Some? && s.load.seen.value != "" ==> r.pref == s.load.seen.value)
      && (!readOk || s.load.seen.None? || s.load.seen.value == "" ==> r == s.(load := Settled))
  {
  }

  /** Setting the preference changes the preference; effective theme and stored value follow it. */
  lemma SetThemeChangesOnlyPreference(s: ProviderState, t: Theme, writeOk: bool)
    requires Inv(s)
    ensures var r := Step(s, ThemeChosen(t, writeOk));
      && r.pref == t && r.platform == s.platform && r.load == s.load
      && r.effective == Resolve(t, s.platform)
      && r.storage == (if t != s.pref && writeOk then s.storage[ThemeStorageKey := t] else s.storage)
  {
  }

  /** Setting the same preference twice is the same as setting it once: state, effective theme and stored value. */
  lemma SetThemeIdempotent(s: ProviderState, t: Theme, w1: bool, w2: bool)
    requires Inv(s)
    ensures Step(Step(s, ThemeChosen(t, w1)), ThemeChosen(t, w2)) == Step(s, ThemeChosen(t, w1))
  {
  }

  /** A platform change leaves an explicit preference's effective theme alone and carries a 'system' one along. */
  lemma PlatformChangeFollowsPreference(s: ProviderState, reported: Option<Scheme>, writeOk: bool)
    requires Inv(s)
    ensures var r := Step(s, SchemeReported(reported, writeOk));
      && r.pref == s.pref && r.platform == DefaultScheme(reported)
      && (s.pref != System ==> r.effective == s.effective)
      && (s.pref == System ==> r.effective == DefaultScheme(reported))
  {
  }

  /** After any change to the preference or the platform scheme, a successful write leaves the preference stored. */
  lemma PersistedAfterChange(s: ProviderState, e: Event)
    requires Inv(s) && Enabled(s, e) && e.writeOk
    requires Step(s, e).pref != s.pref || Step(s, e).platform != s.platform
    ensures Synced(Step(s, e))
  {
  }

  /** A failed write changes nothing in memory: the same event with a successful write reaches the same preference, platform, effective theme and load. */
  lemma FailedWriteKeepsMemory(s: ProviderState, e: Event)
    requires Inv(s) && Enabled(s, e)
    ensures var failed := Step(s, e.(writeOk := false));
      var stored := Step(s, e.(writeOk := true));
      && failed.storage == s.storage
      && failed.(storage := stored.storage) == stored
  {
  }

  /** If the read fails at start-up, the provider keeps preference 'system' and the platform scheme. */
  lemma FailedLoadKeepsDefault(reported: Option<Scheme>, store: map<string, string>, w1: bool, w2: bool)
    requires StorageValid(store)
    ensures var r := Step(Mount(reported, store, w1), LoadSettled(false, w2));
      r.pref == System && r.effective == DefaultScheme(reported)
  {
  }

  // ---------------------------------------------------------------------
  // Properties of whole runs

  /** While every write succeeds, the stored value keeps mirroring the preference. */
  lemma {:induction false} RunKeepsSynced(s: ProviderState, es: seq<Event>)
    requires EnabledTrace(s, es) && Synced(s) && AllWritesSucceed(es)
    ensures Synced(Run(s, es))
    decreases |es|
  {
    if es != [] {
      assert es[0].writeOk;
      assert AllWritesSucceed(es[1..]) by {
        forall i | 0 <= i < |es[1..]| ensures es[1..][i].writeOk {
          assert es[1..][i] == es[i + 1];
        }
      }
      RunKeepsSynced(Step(s, es[0]), es[1..]);
    }
  }

  /** After setting a preference, a restart whose read succeeds restores it. */
  lemma RestartRestoresSetTheme(s: ProviderState, t: Theme, reported: Option<Scheme>, w1: bool, w2: bool)
    requires Inv(s)
    requires Synced(s) || t != s.pref
    ensures var saved := Step(s, ThemeChosen(t, true)).storage;
      StorageValid(saved) &&
      var r := Step(Mount(reported, saved, w1), LoadSettled(true, w2));
      r.pref == t && r.effective == Resolve(t, DefaultScheme(reported))
  {
  }

  /**
   * For any run of a mounted provider whose writes all succeed, a restart
   * whose read succeeds restores the preference the run ended with.
   */
  lemma RestartRestoresRun(reported: Option<Scheme>, store: map<string, string>, es: seq<Event>,
                           again: Option<Scheme>, w1: bool, w2: bool)
    requires StorageValid(store)
    requires EnabledTrace(Mount(reported, store, true), es) && AllWritesSucceed(es)
    ensures var last := Run(Mount(reported, store, true), es);
      StorageValid(last.storage) &&
      var r := Step(Mount(again, last.storage, w1), LoadSettled(true, w2));
      r.pref == last.pref && r.effective == Resolve(last.pref, DefaultScheme(again))
  {
    RunKeepsSynced(Mount(reported, store, true), es);
  }

  /**
   * Start-up with nothing stored and a dark platform gives preference
   * 'system' and effective theme 'dark'; choosing 'light' then gives
   * 'light' for both and stores "light".
   */
  lemma DarkPlatformScenario()
    ensures var mounted := Mount(Some(Dark), map[], true);
      var loaded := Step(mounted, LoadSettled(true, true));
      var chosen := Step(loaded, ThemeChosen(Light, true));
      && loaded.pref == System && loaded.effective == Dark
      && chosen.pref == Light && chosen.effective == Light
      && chosen.storage[ThemeStorageKey] == "light"
  {
  }

  /**
   * Why the restart lemmas need a synchronised store: if the mount-time write
   * fails while "light" is stored and the read fails too, choosing 'system'
   * (the current preference) writes nothing, so a restart restores 'light'.
   */
  lemma UnsyncedRestartRestoresStaleValue(reported: Option<Scheme>, again: Option<Scheme>, w: bool)
    ensures var mounted := Mount(reported, map[ThemeStorageKey := "light"], false);
      var failedRead := Step(mounted, LoadSettled(false, true));
      var chosen := Step(failedRead, ThemeChosen(System, true));
      var restarted := Step(Mount(again, chosen.storage, w), LoadSettled(true, w));
      && chosen.pref == System
      && restarted.pref == Light
  {
  }

  // ---------------------------------------------------------------------
  // The provider as an object updated in place

  class Provider {
    var pref: Theme
    var platform: Scheme
    var effective: Scheme
    var storage: map<string, string>
    var load: Load

    function State(): ProviderState
      reads this
    {
      ProviderState(pref, platform, effective, storage, load)
    }

    predicate Valid()
      reads this
    {
      Inv(State())
    }

    /** Mounts the provider over the key-value store `store`. */
    constructor (reported: Option<Scheme>, store: map<string, string>, writeOk: bool)
      requires StorageValid(store)
      ensures Valid() && State() == Mount(reported, store, writeOk)
      ensures pref == System && effective == platform == DefaultScheme(reported)
    {
      platform := DefaultScheme(reported);
      pref := System;
      effective := platform;
      storage := store;
      load := Pending(Lookup(store));
      new;
      Recompute(writeOk);
    }

    /** The recompute-and-persist effect. */
    method Recompute(writeOk: bool)
      requires StorageValid(storage)
      modifies this
      ensures State() == Effect(old(State()), writeOk)
    {
      effective := Resolve(pref, platform);
      if writeOk {
        storage := storage[ThemeStorageKey := pref];
      }
    }

    /** The read of the stored preference settles (with a value, with nothing, or with an error). */
    method LoadCompleted(readOk: bool, writeOk: bool)
      requires Valid() && load.Pending?
      modifies this
      ensures Valid() && State() == Step(old(State()), LoadSettled(readOk, writeOk))
      ensures platform == old(platform) && load == Settled
    {
      var seen := load.seen;
      load := Settled;
      if !readOk {
        return;
      }
      if seen.Some? && seen.value != "" {
        var stored: Theme := seen.value;
        if stored != pref {
          pref := stored;
          Recompute(writeOk);
        }
      }
    }

    /** The user chooses a preference. */
    method SetTheme(t: Theme, writeOk: bool)
      requires Valid()
      modifies this
      ensures Valid() && State() == Step(old(State()), ThemeChosen(t, writeOk))
      ensures pref == t && effective == Resolve(t, platform) && platform == old(platform)
    {
      if t != pref {
        pref := t;
        Recompute(writeOk);
      }
    }

    /** The platform reports its colour scheme (`None` for null or undefined). */
    method PlatformChanged(reported: Option<Scheme>, writeOk: bool)
      requires Valid()
      modifies this
      ensures Valid() && State() == Step(old(State()), SchemeReported(reported, writeOk))
      ensures pref == old(pref) && platform == DefaultScheme(reported)
    {
      var scheme := DefaultScheme(reported);
      if scheme != platform {
        platform := scheme;
        Recompute(writeOk);
      }
    }
  }

  /** A client of the provider: the start-up scenario, then a platform switch and a restart. */
  method ProviderScenario() {
    var p := new Provider(Some(Dark), map[], true);
    p.LoadCompleted(true, true);
    assert p.pref == System && p.effective == Dark;
    p.SetTheme(Light, true);
    assert p.effective == Light && p.storage[ThemeStorageKey] == "light";
    p.PlatformChanged(None, true);
    p.PlatformChanged(Some(Dark), true);
    assert p.effective == Light;
    var q := new Provider(None, p.storage, false);
    q.LoadCompleted(true, true);
    assert q.pref == Light;
  }
}
