# Theme preference store and colour selection

A Dafny model of the one piece of behaviour in this mobile chat app: the
theme-preference store `CustomThemeProvider` (contexts/ThemeContext.tsx) and
the colour-selection hook `useThemeColor` (hooks/useThemeColor.ts).

- `theme_context.dfy`, module `ThemeContext`. The preference `Theme` is the
  string union `'light' | 'dark' | 'system'`. The platform/effective scheme
  `Scheme` is its sub-union `'light' | 'dark'`, so an effective theme of
  `'system'` cannot even be written down. The store is first specified as a
  state machine on values. `Mount` is the provider's first render with its
  effects. `Step` handles one event: the initial read settling, the user
  choosing a preference, or the platform reporting a scheme. `Run` applies a
  sequence of events. The class `Provider` holds the same state in fields and
  updates them in place. Its constructor is proved to perform `Mount`, and its
  three event methods (`LoadCompleted`, `SetTheme`, `PlatformChanged`) are
  proved to perform one `Step` each; all four leave the object `Valid()`.
  `Valid()` requires that `effective == Resolve(pref, platform)`, that the
  stored value is a preference string, and that a pending read holds a
  preference string; the last two make the cast of the loaded value checked.
  The helper `Recompute` performs the effect `Effect` in place.
- `use_theme_color.dfy`, module `ThemeColor`: `UseThemeColor` as a pure
  function of the provider's effective theme (or `None` when there is no
  provider), the override record and an abstract palette.
- `wrappers.dfy`: `Option`, used for `null`/`undefined`.

Modelling decisions:

- The key-value store is a `map<string, string>` field. Each write's outcome
  is a `writeOk` parameter, and a failed write leaves the map unchanged. The
  read's outcome is a `readOk` parameter. The value read is the one stored
  when the provider mounted.
- The code has no parser for the loaded value. It casts the string to `Theme`
  (contexts/ThemeContext.tsx:29). The model keeps that cast as a checked
  conversion. It is justified by the invariant `StorageValid`: the provider is
  the only writer of `user-theme-preference` and writes only preference
  strings. So the "empty value" branch of the truthiness test
  (contexts/ThemeContext.tsx:30) is modelled but cannot be reached.
- React runs the recompute-and-persist effect (contexts/ThemeContext.tsx:40-44)
  on mount and whenever `theme` or `systemTheme` changes. Setting a state
  variable to its current value changes nothing. So `Commit` runs the effect
  only when the preference or the platform scheme actually changes. On mount
  it always runs, which writes `'system'`. The initial read is issued before
  that write (contexts/ThemeContext.tsx:29 runs before :43), and the model
  takes the read to see the previously stored value.
- The code writes `'system'` on mount. It writes only when the preference or
  the platform scheme actually changes. It does not check the loaded value
  beyond the truthiness test (contexts/ThemeContext.tsx:30,
  contexts/ThemeContext.tsx:43-44).

## Model

| member | source | states |
|---|---|---|
| ThemeContext.DefaultScheme | contexts/ThemeContext.tsx:22 | the provider sees 'dark' exactly when the platform reports 'dark'; a missing report counts as 'light' |
| ThemeContext.Resolve | contexts/ThemeContext.tsx:41 | an explicit preference is the effective theme; 'system' yields the platform scheme; the result is never 'system' (by its type) |
| ThemeContext.ResolveIsFixedPoint | contexts/ThemeContext.tsx:41 | the effective theme is explicit, so resolving it again against any platform scheme returns it unchanged |
| ThemeContext.Effect | contexts/ThemeContext.tsx:40-44 | the effect makes the effective theme agree with preference and platform; a successful write leaves the preference stored under the key; a failed one leaves storage unchanged; no other key is touched |
| ThemeContext.Commit | contexts/ThemeContext.tsx:40-44 | a change of preference or platform keeps the invariant and, with a successful write, stores the preference; no change means no effect at all |
| ThemeContext.Mount | contexts/ThemeContext.tsx:19-44 | initial state: preference 'system', effective theme equals the defaulted platform scheme, the read of the stored value pending, the invariant holds, and 'system' is stored if the write succeeds |
| ThemeContext.Step | contexts/ThemeContext.tsx:26-48 | each event keeps the invariant (effective theme resolved, stored value a preference string), touches no other key, writes nothing when its write fails, and keeps the stored value in sync |
| ThemeContext.Run | contexts/ThemeContext.tsx:21-55 | every sequence of events keeps the invariant and leaves all other storage keys as they were |
| ThemeContext.LoadReplacesPreference | contexts/ThemeContext.tsx:29-35 | a successful read of a present, non-empty value makes it the preference; an absent or empty value, or a read error, changes nothing but settling the load |
| ThemeContext.SetThemeChangesOnlyPreference | contexts/ThemeContext.tsx:46-48 | setTheme sets only the preference; the effective theme becomes Resolve(t, platform) and the value is written only when the preference changed |
| ThemeContext.SetThemeIdempotent | contexts/ThemeContext.tsx:46-48 | setting the same preference twice gives exactly the state (preference, effective theme, stored value) of setting it once |
| ThemeContext.PlatformChangeFollowsPreference | contexts/ThemeContext.tsx:41-44 | a platform change keeps the effective theme of an explicit preference and makes a 'system' preference follow the new platform scheme |
| ThemeContext.PersistedAfterChange | contexts/ThemeContext.tsx:43-44 | after any change to preference or platform scheme, a successful write leaves the current preference stored under 'user-theme-preference' |
| ThemeContext.FailedWriteKeepsMemory | contexts/ThemeContext.tsx:43 | a failed write leaves storage unchanged and the in-memory state identical to the successful case |
| ThemeContext.FailedLoadKeepsDefault | contexts/ThemeContext.tsx:33-35 | a read error at start-up leaves preference 'system' and effective theme the platform scheme |
| ThemeContext.RunKeepsSynced | contexts/ThemeContext.tsx:40-44 | while every write succeeds, the stored value mirrors the preference through any sequence of events |
| ThemeContext.RestartRestoresSetTheme | contexts/ThemeContext.tsx:29-31 | after setTheme(t), a fresh mount whose read succeeds restores preference t and resolves it against the new platform |
| ThemeContext.RestartRestoresRun | contexts/ThemeContext.tsx:29-44 | after any run of a mounted provider whose writes succeed, a restart whose read succeeds restores the final preference |
| ThemeContext.UnsyncedRestartRestoresStaleValue | contexts/ThemeContext.tsx:29-47 | with a failed mount write and a failed read, choosing the current preference 'system' writes nothing, so a restart restores the stale "light" |
| ThemeContext.DarkPlatformScenario | contexts/ThemeContext.tsx:22-48 | nothing stored and a dark platform give 'system'/'dark'; choosing 'light' gives 'light'/'light' and stores "light" |
| ThemeContext.Provider.constructor | contexts/ThemeContext.tsx:21-44 | the mounted object is valid and its state is Mount of the platform report and the store |
| ThemeContext.Provider.Recompute | contexts/ThemeContext.tsx:40-44 | updates the effective theme and the stored value in place as Effect describes |
| ThemeContext.Provider.LoadCompleted | contexts/ThemeContext.tsx:26-38 | settling the read performs exactly Step on a LoadSettled event and keeps the object valid |
| ThemeContext.Provider.SetTheme | contexts/ThemeContext.tsx:46-48 | sets the preference, recomputes and persists as one Step, and keeps the object valid |
| ThemeContext.Provider.PlatformChanged | contexts/ThemeContext.tsx:22-44 | adopts the (defaulted) platform scheme, recomputes and persists as one Step, and keeps the object valid |
| ThemeColor.UseThemeColor | hooks/useThemeColor.ts:10-37 | for the theme in force (the effective theme, or 'light' with no provider), a non-empty override is returned; otherwise the palette entry for that theme |
| ThemeColor.OverrideWins | hooks/useThemeColor.ts:29-33 | with a provider, a non-empty override for the effective theme is returned as it is |
| ThemeColor.PaletteFallback | hooks/useThemeColor.ts:32-35 | with a provider and no or an empty override for the effective theme, the palette entry is returned |
| ThemeColor.OtherOverrideIgnored | hooks/useThemeColor.ts:30 | the override for the other theme is never consulted |
| ThemeColor.MissingProviderIsLight | hooks/useThemeColor.ts:16-27 | without a provider the result equals the result for effective theme 'light' |

## Left out

- React rendering, context creation and the hooks (`createContext`, `useState`, `useEffect`, `useContext`) are not modelled; only the state changes they produce are.
- The asynchrony of the store is not modelled. A read or write completes as a discrete event, and interleavings are not modelled. One example is the mount-time write of 'system' racing the initial read.
- The one-render lag between setting the preference and setting the effective theme is not modelled. Recomputation happens in the same step as the change.
- `console.error` logging is not modelled. It has no effect on state.
- The concrete `Colors` palette (constants/Colors) is not part of this model. It is the function parameter `palette`, and its name type `N` stands for the keys present in both the light and the dark palette (hooks/useThemeColor.ts:12).
- app/_layout.tsx and the screens are presentation wiring and are not modelled.
- ThemeContext.RestartRestoresSetTheme: requires that the store already mirrors the preference, or that `t` differs from the current preference. Setting the current preference again writes nothing, so the restore depends on an earlier successful write.
- ThemeContext.RestartRestoresSetTheme and ThemeContext.RestartRestoresRun assume that the store serves operations on a key in call order, so that the initial read sees the value stored before the mount-time write of 'system'. If that write landed first, no restart would restore the saved preference; this ordering is not modelled.
