# Habiter client logic in Dafny

A model of the logic in the habit-tracking app's client that is more than layout:

- **The shared stores** (`lib/global-state.ts`). There are two module-level stores, one for habits and one for journal entries. Each holds the current collection and a list of listeners. `get` reads the collection. `set` replaces it without any check and then calls every listener, in registration order, with the new collection. `subscribe` appends a listener and returns an unsubscribe closure. The closure filters that listener out by identity. The model is a class `Store<T>` (`items`, `listeners`) plus a class `AppState` that holds the habit store and the journal store. A listener is a `ListenerId`, which stands for the function's identity, so one function can be registered twice. `Set` returns the log of calls it made. The callbacks' own subscribe/unsubscribe calls are passed in as `reactions`. `Set` applies them to the live registry while it notifies the snapshot taken at the start, which is how `forEach` over the array behaves here. An unsubscribe closure is a `Handle` (store, listener), invoked with `Unsubscribe`.
- **The meditation countdown** (`components/MeditationModal.tsx`). The state is running flag, seconds left and picker visibility. Its transitions are start (minutes parsed from the number-pad field, falling back to 5), stop and the one-second tick. `formatTime` prints `"<m>min <s>s"`. `TimerState` and its transition functions specify the class `MeditationModal`, whose handlers update the fields in place.
- **Theme resolution** (`lib/theme-context.tsx`). Dark mode comes from the chosen theme and the system scheme, and it picks the palette. The model also covers the toggle target, the default context value, loading a saved preference, and saving one (the state changes only if the write succeeds). The class `ThemeProvider` holds the chosen theme as a raw string, because a saved preference is adopted without checking that it is a theme name.
- **Small helpers.** The habit card's icon-name rule (default `star`, suffix `-outline`), its priority colours and tap feedback (`components/HabitCard.tsx`). The icon allow-list and rename table (`utils/icons.ts`). The button's class strings (`components/CustomButton.tsx`).

Modules: `Wrappers` (Option for `null`/`undefined`), `Decimal` (digit strings, the digit-string case of `parseInt`, number printing), `GlobalState`, `Meditation`, `Theme`, `HabitCard`, `Icons`, `CustomButton`.

## Model

| member | source | states |
|---|---|---|
| `GlobalState.InitialHabits` | lib/global-state.ts:13-74 | the seed holds six habits with ids 1 to 6 in order |
| `GlobalState.Store.constructor` | lib/global-state.ts:78-79 | a store starts with its initial collection and no listeners |
| `GlobalState.Store.Get` | lib/global-state.ts:81-83 | returns exactly the current collection |
| `GlobalState.Store.Set` | lib/global-state.ts:85-89 | the collection becomes exactly `xs`, with no validation. The calls made are exactly the registrations present when `Set` began, each once, in order, with `xs`, whatever the callbacks subscribe or unsubscribe meanwhile. Those changes land in the live registry, in call order |
| `GlobalState.Store.Subscribe` | lib/global-state.ts:91-92 | appends the listener at the end without calling it; the collection is untouched; returns the handle for this store and listener |
| `GlobalState.Unsubscribe` | lib/global-state.ts:93-95 | the handle's store keeps every registration except those of the handle's listener; the collection is untouched |
| `GlobalState.AppState.constructor` | lib/global-state.ts:78-109 | two distinct fresh stores: habits seeded with the six habits, journal entries empty, no listeners on either |
| `GlobalState.AppState.GetHabits` | lib/global-state.ts:81-83 | returns the habit collection |
| `GlobalState.AppState.SetHabits` | lib/global-state.ts:85-89 | as `Store.Set` on the habit store; the journal store is unchanged |
| `GlobalState.AppState.SubscribeToHabits` | lib/global-state.ts:91-96 | as `Store.Subscribe` on the habit store; the journal store is unchanged |
| `GlobalState.AppState.GetJournalEntries` | lib/global-state.ts:111-113 | returns the journal collection |
| `GlobalState.AppState.SetJournalEntries` | lib/global-state.ts:115-119 | as `Store.Set` on the journal store; the habit store is unchanged |
| `GlobalState.AppState.SubscribeToJournalEntries` | lib/global-state.ts:121-126 | as `Store.Subscribe` on the journal store; the habit store is unchanged |
| `GlobalState.Without` | lib/global-state.ts:94 | the filtered registry no longer holds the listener, is no longer than before and holds only listeners that were registered |
| `GlobalState.Notifications` | lib/global-state.ts:88 | one call per registration, each with the new collection |
| `GlobalState.NotificationsInOrder` | lib/global-state.ts:88 | a notification log has one entry per registration; entry i is registration i with the new collection, so a listener registered twice is called twice |
| `GlobalState.WithoutRemovesOnlyThatListener` | lib/global-state.ts:94 | after filtering, the listener occurs zero times and every other listener as often as before |
| `GlobalState.WithoutKeepsOrder` | lib/global-state.ts:94 | the filtered registry is a subsequence of the old one: relative order is kept |
| `GlobalState.WithoutAbsent` | lib/global-state.ts:94 | filtering out an unregistered listener leaves the registry as it was |
| `GlobalState.UnsubscribeTwiceIsNoOp` | lib/global-state.ts:93-95 | a second call of the same handle changes nothing |
| `GlobalState.SubscribeThenUnsubscribe` | lib/global-state.ts:91-95 | subscribe followed by its unsubscribe equals unsubscribe alone, and restores the registry when the listener was not registered before |
| `GlobalState.QuietListenersKeepRegistry` | lib/global-state.ts:88 | when no callback touches the registry, a notification leaves it unchanged |
| `Decimal.ParseInt` | components/MeditationModal.tsx:17 | `parseInt` on a digit string: NaN exactly for the empty string, otherwise the digits' value, below 10 to the number of digits |
| `Decimal.NatToString` | components/MeditationModal.tsx:49 | prints a digit string of length at least one, with a single digit exactly below 10 and no leading zero |
| `Decimal.IntToString` | components/MeditationModal.tsx:49 | a non-negative number prints as digits whose value is the number, with no leading zero; a negative one as a minus sign followed by such digits for its magnitude |
| `Decimal.NatToStringRoundTrip` | components/MeditationModal.tsx:49 | reading the printed digits gives back the number |
| `Meditation.SessionMinutes` | components/MeditationModal.tsx:17 | for input of at most three digits: the parsed value when positive, 5 when the field is empty or zero, always 1 to 999 |
| `Meditation.Start` | components/MeditationModal.tsx:16-21 | the timer runs with the picker hidden, for between 1 and 999 whole minutes of seconds |
| `Meditation.Stop` | components/MeditationModal.tsx:23-27 | stopped, 0 seconds, picker shown: a state a tick leaves as it is |
| `Meditation.SessionLength` | components/MeditationModal.tsx:16-21 | start leaves the timer running with the picker hidden and `minutes * 60` seconds, minutes as `SessionMinutes` gives them; exactly that many ticks bring it to idle |
| `Meditation.StopForgetsState` | components/MeditationModal.tsx:23-27 | stop gives the idle state (stopped, 0 seconds, picker shown) from any state and is idempotent |
| `Meditation.Tick` | components/MeditationModal.tsx:33-40 | a tick decrements positive seconds and never goes below 0. The running flag clears, and the picker returns, exactly when 0 is reached; from 1 second or fewer it lands on the idle state |
| `Meditation.Countdown` | components/MeditationModal.tsx:33-40 | from n > 0 seconds, the first k < n ticks only count down; the n-th tick reaches idle |
| `Meditation.IdleIsStable` | components/MeditationModal.tsx:33-40 | ticks on the idle state change nothing |
| `Meditation.NeverNegative` | components/MeditationModal.tsx:33-40 | from non-negative seconds, any number of ticks keeps them non-negative |
| `Meditation.JsRemainder` | components/MeditationModal.tsx:48 | the remainder of truncating division, with magnitude below the divisor |
| `Meditation.FormatTime` | components/MeditationModal.tsx:46-49 | for t >= 0 the text is the decimal of `t div 60`, then `min `, then the decimal of `t mod 60`, then `s` |
| `Meditation.FormatTimeParts` | components/MeditationModal.tsx:46-49 | for t >= 0: seconds below 60 and `minutes*60 + seconds == t`; the text is the two numbers plus five characters, the seconds one digit below 10 and two from 10 on (no zero padding) |
| `Meditation.FormatTimeRoundTrip` | components/MeditationModal.tsx:46-49 | for t >= 0, reading the displayed text back gives t |
| `Meditation.MeditationModal.constructor` | components/MeditationModal.tsx:11-14 | starts idle with `"5"` in the minute field |
| `Meditation.MeditationModal.ChangeMinutes` | components/MeditationModal.tsx:73-78 | the field takes the new digits; the timer state is untouched |
| `Meditation.MeditationModal.StartMeditation` | components/MeditationModal.tsx:16-21 | the state becomes `Start` of the old state and the field; seconds stay non-negative |
| `Meditation.MeditationModal.StopMeditation` | components/MeditationModal.tsx:23-27 | the state becomes idle |
| `Meditation.MeditationModal.TickSecond` | components/MeditationModal.tsx:33-40 | the state becomes `Tick` of the old state; seconds stay non-negative |
| `Theme.IsDarkFor` | lib/theme-context.tsx:96-98 | outside `system`, dark exactly for `dark`; under `system`, dark exactly when the scheme is dark |
| `Theme.ColorsFor` | lib/theme-context.tsx:101 | the dark palette exactly in dark mode, the light one exactly otherwise |
| `Theme.ContextFor` | lib/theme-context.tsx:103-111 | the context carries the chosen theme, the dark-mode rule, and the dark palette exactly when dark |
| `Theme.DarknessFollowsSchemeOnlyUnderSystem` | lib/theme-context.tsx:96-98 | dark mode ignores the system scheme unless the theme is `system`, then is on exactly when the scheme is dark; it is on only for `dark` or `system`, always on for `dark` and never for `light` |
| `Theme.PaletteMatchesMode` | lib/theme-context.tsx:9-39 | the palette shown determines the mode: two modes show the same palette only when equal, and between modes the background, text, primary and danger colours all differ |
| `Theme.DefaultContextIsLight` | lib/theme-context.tsx:50-56 | the default context is exactly what the derivation gives for `light` under any scheme: light palette, not dark |
| `Theme.ToggleTarget` | lib/theme-context.tsx:91 | the toggle target is `dark` exactly when the theme is `light`, otherwise `light`; never `system` |
| `Theme.ToggleTwiceRestores` | lib/theme-context.tsx:91 | from `light` or `dark`, toggling twice gives the starting theme |
| `Theme.ToggleFlipsExplicitTheme` | lib/theme-context.tsx:91-98 | from `light` or `dark`, toggling inverts dark mode under any scheme |
| `Theme.ToggleFromLightSystemKeepsLight` | lib/theme-context.tsx:91-98 | from `system` with a non-dark scheme, the written toggle target leaves dark mode off (see Findings) |
| `Theme.CorrectedToggleTarget` | lib/theme-context.tsx:90-93 | the target always inverts dark mode and is never `system` |
| `Theme.CorrectedToggleAgreesOnExplicitThemes` | lib/theme-context.tsx:91 | for `light` and `dark` the corrected target equals the written one |
| `Theme.ThemeProvider.constructor` | lib/theme-context.tsx:61 | the chosen theme starts as `system` |
| `Theme.ThemeProvider.Value` | lib/theme-context.tsx:103-111 | the provided value: the current theme, dark by the dark-mode rule under the given scheme, and the matching palette |
| `Theme.ThemeProvider.LoadTheme` | lib/theme-context.tsx:64-77 | a non-empty saved string replaces the theme unchecked; nothing saved or a failed read keeps it |
| `Theme.ThemeProvider.SetTheme` | lib/theme-context.tsx:80-87 | the theme becomes the new one if the write succeeded and is unchanged otherwise |
| `Theme.ThemeProvider.ToggleTheme` | lib/theme-context.tsx:90-93 | as written: on a successful write the theme becomes `ToggleTarget` of the old one, on failure it is unchanged; it never moves to `system` |
| `Theme.ThemeProvider.CorrectedToggleTheme` | lib/theme-context.tsx:90-93 | the corrected toggle (see Findings): on a successful write dark mode is inverted; on failure the theme is unchanged |
| `HabitCard.BaseIconName` | components/HabitCard.tsx:16 | a present non-empty name is kept; null, undefined or empty becomes a non-empty default |
| `HabitCard.OutlineIconName` | components/HabitCard.tsx:19 | the result always contains `-outline`, and equals the input exactly when the input already contains it; otherwise it is the input followed by `-outline` |
| `HabitCard.RenderIconName` | components/HabitCard.tsx:14-19 | the drawn name always contains `-outline`; a given name that already contains it is drawn as is, a non-empty one without it gets the suffix |
| `HabitCard.SuffixIsContained` | components/HabitCard.tsx:19 | a string with a suffix appended contains that suffix |
| `HabitCard.OutlineIsIdempotent` | components/HabitCard.tsx:19 | applying the outline rule to its own output changes nothing |
| `HabitCard.MissingIconIsStarOutline` | components/HabitCard.tsx:14-19 | a null, undefined or empty icon name is drawn as `star-outline` |
| `HabitCard.PriorityColor` | components/HabitCard.tsx:7-11 | each priority's dot colour is a `#rrggbb` string of lower-case hex digits |
| `HabitCard.PriorityColorsAreStatusColors` | components/HabitCard.tsx:7-11 | high is `#ef4444`, medium `#f59e0b` and low `#10b981`: the light palette's danger, warning and success colours |
| `HabitCard.PriorityColorsDistinct` | components/HabitCard.tsx:7-11 | the three priorities get three different dot colours |
| `HabitCard.HandleToggleComplete` | components/HabitCard.tsx:33-43 | one feedback, success iff the habit was not completed and medium iff it was, then exactly one call of the toggle handler with the same habit |
| `HabitCard.TapsGiveOneFeedbackThenOneCall` | components/HabitCard.tsx:33-53 | each of the two taps (`HandleToggleComplete` and `HandlePress`, whose feedback is the light impact) gives exactly one haptic feedback, first, and exactly one handler call with the card's habit, last; pressing the card never calls the completion handler and the completion toggle never calls the press handler |
| `Icons.GetIconName` | utils/icons.ts:34-36 | a name that is not a key comes back unchanged; a key is replaced by its mapping, which is itself no key |
| `Icons.KnownRenames` | utils/icons.ts:26-31 | `meditate`, `fitness` and `water` become `body-outline`, `fitness-outline` and `water-outline` |
| `Icons.GetIconNameIdempotent` | utils/icons.ts:26-36 | looking up a looked-up name changes nothing |
| `Icons.MapKeysAreValidIcons` | utils/icons.ts:2-31 | every renamed name is on the allow-list |
| `Icons.ValidIconsDistinct` | utils/icons.ts:2-23 | the allow-list has 20 pairwise different names |
| `CustomButton.BgVariantStyle` | components/CustomButton.tsx:5-18 | every variant, known or not, yields a background class (it starts with `bg-`) |
| `CustomButton.TextVariantStyle` | components/CustomButton.tsx:20-33 | every variant, known or not, yields a text class (it starts with `text-`) |
| `CustomButton.KnownBgVariants` | components/CustomButton.tsx:6-14 | secondary, danger, success and outline select `bg-neutral-600`, `bg-rose-500`, `bg-emerald-500` and `bg-transparent border-neutral-300 border-[0.5px]`; primary selects the indigo `bg-[#6366f1]` |
| `CustomButton.KnownTextVariants` | components/CustomButton.tsx:21-31 | primary, secondary, danger and success select `text-neutral-900`, `text-neutral-100`, `text-rose-100` and `text-emerald-100`; `default` selects `text-neutral-50` |
| `CustomButton.BgVariantsDistinct` | components/CustomButton.tsx:5-18 | no other variant selects the class of a named background variant, so the five background classes are pairwise different |
| `CustomButton.TextVariantsDistinct` | components/CustomButton.tsx:20-33 | no other variant selects the class of a named text variant, so the five text classes are pairwise different |
| `CustomButton.BgFallsBackToPrimary` | components/CustomButton.tsx:5-18 | the indigo background is chosen exactly for variants other than secondary, danger, success and outline, undefined included |
| `CustomButton.TextFallsBackToDefault` | components/CustomButton.tsx:20-33 | `text-neutral-50` is chosen exactly for variants other than primary, secondary, danger and success |
| `CustomButton.ContainerClass` | components/CustomButton.tsx:48 | the container classes start with the layout and, after one space, a background class |
| `CustomButton.TextClass` | components/CustomButton.tsx:52 | the label classes start with the text layout and, after one space, a text class |
| `CustomButton.ContainerClassParts` | components/CustomButton.tsx:48 | the container classes are exactly the layout, one space, the background class, one space, and `className` as interpolated |
| `CustomButton.TextClassParts` | components/CustomButton.tsx:52 | the label classes are exactly the text layout, one space, and the class the text variant (default `default`) selects |
| `CustomButton.DefaultButton` | components/CustomButton.tsx:35-52 | with no props the container ends in ` bg-[#6366f1] undefined` and the label is `text-lg font-bold text-neutral-50` |

## Left out

- Rendering, JSX, styles and React's scheduling of state updates and effects are not modelled. Each handler is one atomic update of the state it writes.
- The one-second `setInterval` and its clearing are not modelled: when ticks fire, and that the effect re-arms only when `isTimerRunning` changes. Only the tick's update is modelled. Starting a session while one runs is modelled as a state change only.
- `parseInt` is modelled on digit strings of at most three characters only, which is what the number-pad field with its length limit produces. Signs, spaces and trailing junk are not modelled.
- AsyncStorage is foreign asynchronous I/O. A write is a success flag, and a read is an optional string, where `None` covers both "nothing saved" and a read that threw. A `loadTheme` and a `setTheme` that overlap in time are not modelled.
- The system colour scheme can change between renders. It is a parameter of `ThemeProvider.Value` and `ThemeProvider.CorrectedToggleTheme`, not a field.
- GlobalState.Store.Set: a callback's effects are limited to subscribing and unsubscribing on the store being notified. A callback that calls `set` again, that throws, or that touches the other store is not modelled. The reactions are a map from listener identity to actions, so a listener registered twice does the same on each of its calls; a callback whose behaviour depends on how often it was called is not modelled.
- Listener functions are identities (`ListenerId`), not functions, and a notification is an entry in the returned log, not a call.
- `ICON_MAP` is a finite map. Lookups of inherited object properties such as `toString` are not modelled.
- The haptic calls into `expo-haptics` (utils/haptics.ts) are effect values in the returned sequence.
- `ButtonProps` (types/type) is not part of this model. Variant props are treated as optional strings.
- The server endpoints, remote-sync reconciliation, authentication, navigation and the SVG logos are not part of this model.

## Findings

| source | as written | input that shows it | evidently intended | confidence | as-written member | corrected member |
|---|---|---|---|---|---|---|
| lib/theme-context.tsx:91 | `Theme.ToggleTarget`: the toggle target is `light` for every theme other than `light`, including `system` | theme `system` with a light or unreported system scheme: dark mode is off, toggling picks `light`, and dark mode stays off, so the "Dark Mode" switch bound to `isDark` springs back | toggle to the opposite of what is shown (`isDark ? 'light' : 'dark'`) | medium, not executed | `Theme.ToggleFromLightSystemKeepsLight` | `Theme.CorrectedToggleTarget` |
