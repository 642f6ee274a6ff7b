# AutoCompleteView text synchronisation, in Dafny

This project models `AutoCompleteView`. It is a platform-independent autocomplete text box. It holds the
bindable properties (`Text`, `TextColor`, `PlaceholderText`, `PlaceholderTextColor`,
`TextMemberPath`, `DisplayMemberPath`, `IsSuggestionListOpen`, `UpdateTextOnSelect`,
`ItemsSource`) and raises three events: `TextChanged`, `SuggestionChosen` and
`QuerySubmitted`. `Text` can be written in two ways:

- **Programmatically**, through the `Text` setter. The property-changed callback raises
  `TextChanged(ProgrammaticChange)`, so a native renderer knows it must push the new text into the native control.
- **By the native control**, through `NativeControlTextChanged(text, reason)`. This raises the
  boolean guard `suppressTextChangedEvent`, writes `Text`, lowers the guard, and then raises
  `TextChanged(reason)`. While the guard is up, the callback stays silent. The native edit is
  therefore announced once, with its own reason, and is never echoed back as a programmatic change.

Files:

- `wrappers.dfy`: `Option`. It stands for an item reference (or item list) that may be null.
- `events.dfy`: the enum `AutoCompleteTextChangeReason` and the three event-argument records.
  It also defines `Event`, one raised event as subscribers see it (for `TextChanged`, together with the `Text` a handler reads from the sender at that moment), and `CountReason`, which counts the `TextChanged` events with a given reason.
- `view_state.dfy`: the view's state as a value (`ViewState`). Each operation is a function
  from the state before the call to the state after it. It also holds the session-level
  lemmas: `Step` applies one call, `Run` applies a sequence of calls, and `ExpectedEvents` is a reference
  description of the raised events that never mentions the guard.
- `view.dfy`: class `AutoCompleteView`. It has one field per property slot, the guard, and the
  event log. The postconditions of the `Text` setter, its callback, the native edit and the
  two raise methods equate the new `State()` with the matching `AutoCompleteState` function
  applied to the old state. Those of the eight passive setters state the new `State()` as the
  old one with only their own slot replaced.

**Assumption about the host framework.** Xamarin's `BindableObject.SetValue` stores the value. It
calls the registered property-changed callback only when the new value differs from the stored one.
That code is not part of this model. The assumption is made explicit in `SetText` as the
`if value != text` test. String equality is by value, as in .NET.

Three behaviours of the code worth stating plainly:

- The guard is a boolean, not a depth counter.
- The guard is cleared without `try`/`finally`.
- `RaiseSuggestionChosen` only raises the event. It does not write `Text`, and it does not read
  `UpdateTextOnSelect`.

## Model

| member | source | states |
|---|---|---|
| `AutoCompleteDemo.AutoCompleteView.constructor` | AutoCompleteDemo/AutoCompleteView.cs:88-233 | a new view has `Text`, `PlaceholderText`, `TextMemberPath` and `DisplayMemberPath` empty, both colours Gray, the list closed, `UpdateTextOnSelect` true, no `ItemsSource`, the guard down and no event raised |
| `AutoCompleteDemo.AutoCompleteView.OnTextPropertyChanged` | AutoCompleteDemo/AutoCompleteView.cs:91-96 | the callback raises one `TextChanged(ProgrammaticChange)` exactly when the guard is down, with the sender's current `Text`; it changes nothing else |
| `AutoCompleteDemo.AutoCompleteView.SetText` | AutoCompleteDemo/AutoCompleteView.cs:79-83 | after the setter `Text` is the new value; one `TextChanged(ProgrammaticChange)` is appended iff the value differed and the guard is down, and its handlers already read the new value from the sender; nothing else changes |
| `AutoCompleteDemo.AutoCompleteView.NativeControlTextChanged` | AutoCompleteDemo/AutoCompleteView.cs:246-252 | afterwards `Text` is the native text, the guard is down, and exactly one event, `TextChanged(reason)`, is appended, even if the text did not change; it is raised after the store, so its handlers read the native text |
| `AutoCompleteDemo.AutoCompleteView.RaiseSuggestionChosen` | AutoCompleteDemo/AutoCompleteView.cs:235-238 | appends one `SuggestionChosen` carrying the selected item unchanged; no property and not the guard change |
| `AutoCompleteDemo.AutoCompleteView.RaiseQuerySubmitted` | AutoCompleteDemo/AutoCompleteView.cs:259-262 | appends one `QuerySubmitted` carrying the query text and the possibly absent suggestion unchanged; nothing else changes |
| `AutoCompleteDemo.AutoCompleteView.SetTextColor` | AutoCompleteDemo/AutoCompleteView.cs:102-112 | writes only the `TextColor` slot |
| `AutoCompleteDemo.AutoCompleteView.SetPlaceholderText` | AutoCompleteDemo/AutoCompleteView.cs:118-128 | writes only the `PlaceholderText` slot |
| `AutoCompleteDemo.AutoCompleteView.SetPlaceholderTextColor` | AutoCompleteDemo/AutoCompleteView.cs:134-144 | writes only the `PlaceholderTextColor` slot |
| `AutoCompleteDemo.AutoCompleteView.SetTextMemberPath` | AutoCompleteDemo/AutoCompleteView.cs:154-164 | writes only the `TextMemberPath` slot |
| `AutoCompleteDemo.AutoCompleteView.SetDisplayMemberPath` | AutoCompleteDemo/AutoCompleteView.cs:173-183 | writes only the `DisplayMemberPath` slot |
| `AutoCompleteDemo.AutoCompleteView.SetIsSuggestionListOpen` | AutoCompleteDemo/AutoCompleteView.cs:189-199 | writes only the `IsSuggestionListOpen` slot |
| `AutoCompleteDemo.AutoCompleteView.SetUpdateTextOnSelect` | AutoCompleteDemo/AutoCompleteView.cs:207-217 | writes only the `UpdateTextOnSelect` slot |
| `AutoCompleteDemo.AutoCompleteView.SetItemsSource` | AutoCompleteDemo/AutoCompleteView.cs:223-233 | writes only the `ItemsSource` slot |
| `AutoCompleteState.Initial` | AutoCompleteDemo/AutoCompleteView.cs:88-233 | the registered defaults: empty strings, both colours Gray, list closed, `UpdateTextOnSelect` true, no `ItemsSource`; the guard is down, the log is empty, and so the empty text counts as announced |
| `AutoCompleteState.OnTextPropertyChanged` | AutoCompleteDemo/AutoCompleteView.cs:91-96 | with the guard up the callback changes nothing; with it down it appends exactly `TextChanged(ProgrammaticChange)` carrying the current `Text`, and nothing else changes |
| `AutoCompleteState.SetText` | AutoCompleteDemo/AutoCompleteView.cs:79-96 | a programmatic write stores the value and touches no other slot and not the guard; writing the current value appends nothing; with the guard up it appends nothing; otherwise it appends exactly `TextChanged(ProgrammaticChange)`, raised when `Text` already holds the new value |
| `AutoCompleteState.NativeControlTextChanged` | AutoCompleteDemo/AutoCompleteView.cs:246-252 | because the guard is up during the write, the only event appended is `TextChanged(reason)`, never a `ProgrammaticChange`, and it is raised when `Text` already holds the native text; `Text` is the native text, the guard ends down, and the other slots are unchanged |
| `AutoCompleteState.RaiseSuggestionChosen` | AutoCompleteDemo/AutoCompleteView.cs:235-238 | only the log changes, by one `SuggestionChosen` with the item |
| `AutoCompleteState.RaiseQuerySubmitted` | AutoCompleteDemo/AutoCompleteView.cs:259-262 | only the log changes, by one `QuerySubmitted` with the text and suggestion |
| `AutoCompleteState.Step` | AutoCompleteDemo/AutoCompleteView.cs:79-262 | every call extends the log by at most one event and never rewrites it; no call started with the guard down leaves it up; only the two `Text` paths change `Text` |
| `AutoCompleteState.RunAppendsOnly` | AutoCompleteDemo/AutoCompleteView.cs:79-262 | over any session the event log is append-only and grows by at most one event per call |
| `AutoCompleteState.RunStaysIdle` | AutoCompleteDemo/AutoCompleteView.cs:246-252 | after any session that starts with the guard down, the guard is down |
| `AutoCompleteState.StepMatchesReference` | AutoCompleteDemo/AutoCompleteView.cs:79-262 | with the guard down, one call leaves the text and raises the events given by the guard-free reference `TextAfter`/`Emitted` |
| `AutoCompleteState.RunMatchesReference` | AutoCompleteDemo/AutoCompleteView.cs:79-262 | from an idle view, a whole session raises exactly the guard-free reference stream, and `Text` is the value of the last write from either path |
| `AutoCompleteState.StepKeepsInSync` | AutoCompleteDemo/AutoCompleteView.cs:79-262 | from an idle view whose last `TextChanged` carries the current `Text`, every call keeps it so: no write of `Text` is silent, and a subscriber following `TextChanged` alone knows the current text |
| `AutoCompleteState.RunKeepsInSync` | AutoCompleteDemo/AutoCompleteView.cs:254-257 | the same over any session: `TextChanged` is raised after every change of `Text`, from either path, and carries the new text |
| `AutoCompleteState.ExpectedTextChangedCount` | AutoCompleteDemo/AutoCompleteView.cs:91-96 | in the reference stream, `TextChanged(r)` occurs once per native edit reported with `r`, plus, for `ProgrammaticChange`, once per programmatic write that changes the text |
| `AutoCompleteState.RunTextChangedCount` | AutoCompleteDemo/AutoCompleteView.cs:246-252 | no feedback loop over a whole session: from an idle view, the `TextChanged(r)` events added are one per native edit with `r`, plus one `ProgrammaticChange` per text-changing programmatic write, and none more |
| `AutoCompleteState.NativeSessionEvents` | AutoCompleteDemo/AutoCompleteView.cs:246-252 | from any state, a session of native edits appends exactly one `TextChanged` per edit to the log, in order, each with the reported reason, and nothing else |
| `AutoCompleteState.WriteAfterNativeEditIsAnnounced` | AutoCompleteDemo/AutoCompleteView.cs:248-251 | the guard is released by a native edit, so a following programmatic write of a different text is announced as `ProgrammaticChange` |

## Left out

- The Android renderer (`AutoCompleteDemo.Android/AutoCompleteViewRenderer.cs`). It only creates the native `AutoCompleteTextView` when none exists and has no synchronisation logic. No renderer code calls `NativeControlTextChanged`, `RaiseSuggestionChosen` or `RaiseQuerySubmitted`, so the renderer-to-view protocol is not modelled.
- The host's bindable-property machinery (`BindableProperty.Create`, `GetValue`, `SetValue`, binding modes). The slots are plain fields. Its notify-only-on-change rule is the stated assumption above, not verified code.
- Colours: the host's `Color` has floating-point channels. It is a type parameter here, and the host supplies the Gray default when the view is created.
- `ItemsSource`: the source holds a mutable `IList` by reference. The model holds an immutable sequence (`None` for null), so it does not capture aliasing or later mutation of the list.
- Subscribers: handlers are modelled only by the events appended to the log. What a handler does is outside the model, including re-entrant calls back into the view from inside a handler.
- Exceptions: the source clears the guard without `try`/`finally`, so a throwing handler during the write in `NativeControlTextChanged` would leave the guard up. The model has no exceptions and claims nothing about that path.
- Null strings: `Text`, `PlaceholderText`, `TextMemberPath`, `DisplayMemberPath` and a query text are .NET strings and may be null; here they are `string` values, so a write of null is not modelled. For the `Text` protocol null would be just one more value distinct from every string, so writing it over a non-null text would raise `TextChanged(ProgrammaticChange)` like any other change.
- `AutoCompleteTextChangedEventArgs.CheckCurrent`: a stub that always returns true. It is not modelled.
- The `Text` getter and the other getters read the slot. They are the class fields themselves.
