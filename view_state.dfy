/**
 * The state of an AutoCompleteView as a value, and the operations of the view as functions
 * from the state before the call to the state after it (a passive property write is a
 * record update). The class in view.dfy is proved against these; the lemmas at the end are
 * about whole sessions.
 */
module AutoCompleteState {
  import opened Wrappers
  import opened AutoCompleteEvents

  /**
   * One slot per bindable property, the re-entrancy guard, and the log of every event
   * raised so far (oldest first).
   */
  datatype ViewState<Item, Color> = ViewState(
    text: string,
    textColor: Color,
    placeholderText: string,
    placeholderTextColor: Color,
    textMemberPath: string,
    displayMemberPath: string,
    isSuggestionListOpen: bool,
    updateTextOnSelect: bool,
    itemsSource: Option<seq<Item>>,
    suppressTextChangedEvent: bool,
    events: seq<Event<Item>>)
  {
    /** Between two calls into the view the guard is down. */
    predicate Idle()
    {
      !suppressTextChangedEvent
    }
  }

  /**
   * No change of Text has gone unannounced: the last TextChanged in the log (or `before`,
   * the text before the first event, when the log has none) carries the current Text.
   */
  predicate InSync<Item, Color>(s: ViewState<Item, Color>, before: string)
  {
    LastAnnounced(s.events, before) == s.text
  }

  /** A freshly created view: every slot at its registered default, no event raised yet. */
  function Initial<Item, Color>(gray: Color): (s: ViewState<Item, Color>)
    ensures s.text == "" && s.placeholderText == "" && s.textMemberPath == "" && s.displayMemberPath == ""
    ensures s.textColor == gray && s.placeholderTextColor == gray
    ensures !s.isSuggestionListOpen && s.updateTextOnSelect && s.itemsSource == None
    ensures s.Idle() && s.events == []
    ensures InSync(s, "")
  {
    ViewState("", gray, "", gray, "", "", false, true, None, false, [])
  }

  /** The property-changed callback of Text: announces a programmatic change unless the guard is up. */
  function OnTextPropertyChanged<Item, Color>(s: ViewState<Item, Color>): (r: ViewState<Item, Color>)
    ensures s.suppressTextChangedEvent ==> r == s
    ensures !s.suppressTextChangedEvent ==>
              r == s.(events := s.events + [TextChangedWith(ProgrammaticChange, s.text)])
  {
    if !s.suppressTextChangedEvent
    then s.(events := s.events + [TextChangedWith(ProgrammaticChange, s.text)])
    else s
  }

  /**
   * Writing the Text slot through the host's property store. The host runs the
   * property-changed callback only when the stored value actually changes.
   */
  function SetText<Item, Color>(s: ViewState<Item, Color>, value: string): (r: ViewState<Item, Color>)
    ensures r.text == value
    ensures r.(text := s.text, events := s.events) == s
    ensures value == s.text ==> r.events == s.events
    ensures s.suppressTextChangedEvent ==> r.events == s.events
    ensures value != s.text && !s.suppressTextChangedEvent ==>
              r.events == s.events + [TextChangedWith(ProgrammaticChange, value)]
  {
    if value == s.text then s else OnTextPropertyChanged(s.(text := value))
  }

  /**
   * A text edit reported by the native control: raise the guard, write Text, lower the
   * guard, then raise TextChanged with the native reason.
   */
  function NativeControlTextChanged<Item, Color>(s: ViewState<Item, Color>, text: string, reason: AutoCompleteTextChangeReason): (r: ViewState<Item, Color>)
    ensures r.text == text
    ensures !r.suppressTextChangedEvent
    ensures r.events == s.events + [TextChangedWith(reason, text)]
    ensures r.(text := s.text, suppressTextChangedEvent := s.suppressTextChangedEvent, events := s.events) == s
  {
    var guarded := s.(suppressTextChangedEvent := true);
    var written := SetText(guarded, text);
    var released := written.(suppressTextChangedEvent := false);
    released.(events := released.events + [TextChangedWith(reason, released.text)])
  }

  /** Fires SuggestionChosen with the selected item. */
  function RaiseSuggestionChosen<Item, Color>(s: ViewState<Item, Color>, selectedItem: Option<Item>): (r: ViewState<Item, Color>)
    ensures r.(events := s.events) == s
    ensures r.events == s.events + [SuggestionChosenRaised(AutoCompleteViewEventArgs(selectedItem))]
  {
    s.(events := s.events + [SuggestionChosenRaised(AutoCompleteViewEventArgs(selectedItem))])
  }

  /** Fires QuerySubmitted with the query text and the (possibly absent) chosen suggestion. */
  function RaiseQuerySubmitted<Item, Color>(s: ViewState<Item, Color>, queryText: string, chosenSuggestion: Option<Item>): (r: ViewState<Item, Color>)
    ensures r.(events := s.events) == s
    ensures r.events == s.events + [QuerySubmittedRaised(AutoCompleteQuerySubmittedEventArgs(queryText, chosenSuggestion))]
  {
    s.(events := s.events + [QuerySubmittedRaised(AutoCompleteQuerySubmittedEventArgs(queryText, chosenSuggestion))])
  }

  /** Every call a client or the native renderer can make into the view. */
  datatype Op<Item, Color> =
    | WriteText(newText: string)
    | WriteTextColor(newTextColor: Color)
    | WritePlaceholderText(newPlaceholderText: string)
    | WritePlaceholderTextColor(newPlaceholderTextColor: Color)
    | WriteTextMemberPath(newTextMemberPath: string)
    | WriteDisplayMemberPath(newDisplayMemberPath: string)
    | WriteIsSuggestionListOpen(newIsSuggestionListOpen: bool)
    | WriteUpdateTextOnSelect(newUpdateTextOnSelect: bool)
    | WriteItemsSource(newItemsSource: Option<seq<Item>>)
    | NativeTextEdit(editedText: string, reason: AutoCompleteTextChangeReason)
    | ChooseSuggestion(selectedItem: Option<Item>)
    | SubmitQuery(queryText: string, chosenSuggestion: Option<Item>)

  /** The effect of one call. */
  function Step<Item, Color>(s: ViewState<Item, Color>, op: Op<Item, Color>): (r: ViewState<Item, Color>)
    ensures s.events <= r.events && |r.events| <= |s.events| + 1
    ensures s.Idle() ==> r.Idle()
    ensures !(op.WriteText? || op.NativeTextEdit?) ==> r.text == s.text
  {
    match op
    case WriteText(v) => SetText(s, v)
    case WriteTextColor(c) => s.(textColor := c)
    case WritePlaceholderText(v) => s.(placeholderText := v)
    case WritePlaceholderTextColor(c) => s.(placeholderTextColor := c)
    case WriteTextMemberPath(v) => s.(textMemberPath := v)
    case WriteDisplayMemberPath(v) => s.(displayMemberPath := v)
    case WriteIsSuggestionListOpen(b) => s.(isSuggestionListOpen := b)
    case WriteUpdateTextOnSelect(b) => s.(updateTextOnSelect := b)
    case WriteItemsSource(items) => s.(itemsSource := items)
    case NativeTextEdit(t, reason) => NativeControlTextChanged(s, t, reason)
    case ChooseSuggestion(x) => RaiseSuggestionChosen(s, x)
    case SubmitQuery(q, c) => RaiseQuerySubmitted(s, q, c)
  }

  /** The effect of a session of calls, made one after another. */
  function Run<Item, Color>(s: ViewState<Item, Color>, ops: seq<Op<Item, Color>>): ViewState<Item, Color>
    decreases |ops|
  {
    if ops == [] then s else Run(Step(s, ops[0]), ops[1..])
  }

  // ---------------------------------------------------------------------------------
  // A reference description of what subscribers observe, which mentions no guard at
  // all: the text a call leaves behind and the events it raises, given only the text
  // before the call.

  /** The text after `op`, given the text before it. */
  function TextAfter<Item, Color>(current: string, op: Op<Item, Color>): string
  {
    match op
    case WriteText(v) => v
    case NativeTextEdit(t, _) => t
    case _ => current
  }

  /** The events `op` raises, given the text before it. */
  function Emitted<Item, Color>(current: string, op: Op<Item, Color>): seq<Event<Item>>
  {
    match op
    case WriteText(v) => if v != current then [TextChangedWith(ProgrammaticChange, v)] else []
    case NativeTextEdit(t, reason) => [TextChangedWith(reason, t)]
    case ChooseSuggestion(x) => [SuggestionChosenRaised(AutoCompleteViewEventArgs(x))]
    case SubmitQuery(q, c) => [QuerySubmittedRaised(AutoCompleteQuerySubmittedEventArgs(q, c))]
    case _ => []
  }

  function FinalText<Item, Color>(current: string, ops: seq<Op<Item, Color>>): string
    decreases |ops|
  {
    if ops == [] then current else FinalText(TextAfter(current, ops[0]), ops[1..])
  }

  function ExpectedEvents<Item, Color>(current: string, ops: seq<Op<Item, Color>>): seq<Event<Item>>
    decreases |ops|
  {
    if ops == [] then [] else Emitted(current, ops[0]) + ExpectedEvents(TextAfter(current, ops[0]), ops[1..])
  }

  /** Programmatic writes of Text in `ops` that actually change the stored text. */
  function EffectiveTextWrites<Item, Color>(current: string, ops: seq<Op<Item, Color>>): nat
    decreases |ops|
  {
    if ops == [] then 0
    else (if ops[0].WriteText? && ops[0].newText != current then 1 else 0)
         + EffectiveTextWrites(TextAfter(current, ops[0]), ops[1..])
  }

  /** Native text edits in `ops` reported with the given reason. */
  function NativeEdits<Item, Color>(ops: seq<Op<Item, Color>>, reason: AutoCompleteTextChangeReason): nat
    decreases |ops|
  {
    if ops == [] then 0
    else (if ops[0].NativeTextEdit? && ops[0].reason == reason then 1 else 0) + NativeEdits(ops[1..], reason)
  }

  // ---------------------------------------------------------------------------------
  // Properties of sessions.

  /** The event log only grows: a session never removes or rewrites an event already raised. */
  lemma {:induction false} RunAppendsOnly<Item, Color>(s: ViewState<Item, Color>, ops: seq<Op<Item, Color>>)
    ensures s.events <= Run(s, ops).events
    ensures |Run(s, ops).events| <= |s.events| + |ops|
    decreases |ops|
  {
    if ops != [] {
      RunAppendsOnly(Step(s, ops[0]), ops[1..]);
    }
  }

  /** No session leaves the guard up: an idle view is idle again after any sequence of calls. */
  lemma {:induction false} RunStaysIdle<Item, Color>(s: ViewState<Item, Color>, ops: seq<Op<Item, Color>>)
    requires s.Idle()
    ensures Run(s, ops).Idle()
    decreases |ops|
  {
    if ops != [] {
      RunStaysIdle(Step(s, ops[0]), ops[1..]);
    }
  }

  /** From an idle view, one call does exactly what the guard-free reference says. */
  lemma StepMatchesReference<Item, Color>(s: ViewState<Item, Color>, op: Op<Item, Color>)
    requires s.Idle()
    ensures Step(s, op).text == TextAfter(s.text, op)
    ensures Step(s, op).events == s.events + Emitted(s.text, op)
  {
  }

  /**
   * From an idle view, a whole session raises exactly the events of the guard-free
   * reference and leaves the text of the last write, whichever path wrote it: the guard
   * is invisible to subscribers and suppresses nothing but the echo of a native edit.
   */
  lemma {:induction false} RunMatchesReference<Item, Color>(s: ViewState<Item, Color>, ops: seq<Op<Item, Color>>)
    requires s.Idle()
    ensures Run(s, ops).text == FinalText(s.text, ops)
    ensures Run(s, ops).events == s.events + ExpectedEvents(s.text, ops)
    decreases |ops|
  {
    if ops != [] {
      var next := Step(s, ops[0]);
      StepMatchesReference(s, ops[0]);
      RunMatchesReference(next, ops[1..]);
      assert s.events + Emitted(s.text, ops[0]) + ExpectedEvents(next.text, ops[1..])
          == s.events + (Emitted(s.text, ops[0]) + ExpectedEvents(next.text, ops[1..]));
    }
  }

  /**
   * From an idle view in which every change of Text has been announced, one call keeps it
   * so: a subscriber that follows TextChanged alone always knows the current Text.
   */
  lemma StepKeepsInSync<Item, Color>(s: ViewState<Item, Color>, op: Op<Item, Color>, before: string)
    requires s.Idle() && InSync(s, before)
    ensures InSync(Step(s, op), before)
  {
    StepMatchesReference(s, op);
    LastAnnouncedAppend(s.events, Emitted(s.text, op), before);
  }

  /** The same for a whole session: no write of Text, from either path, is ever silent. */
  lemma {:induction false} RunKeepsInSync<Item, Color>(s: ViewState<Item, Color>, ops: seq<Op<Item, Color>>, before: string)
    requires s.Idle() && InSync(s, before)
    ensures InSync(Run(s, ops), before)
    decreases |ops|
  {
    if ops != [] {
      StepKeepsInSync(s, ops[0], before);
      RunKeepsInSync(Step(s, ops[0]), ops[1..], before);
    }
  }

  /**
   * In the reference stream, TextChanged with a given reason is raised once per native edit
   * reported with that reason, plus, for ProgrammaticChange, once per programmatic write
   * that changes the text, and never otherwise.
   */
  lemma {:induction false} ExpectedTextChangedCount<Item, Color>(current: string, ops: seq<Op<Item, Color>>, reason: AutoCompleteTextChangeReason)
    ensures CountReason(ExpectedEvents(current, ops), reason)
         == NativeEdits(ops, reason) + (if reason == ProgrammaticChange then EffectiveTextWrites(current, ops) else 0)
    decreases |ops|
  {
    if ops != [] {
      var next := TextAfter(current, ops[0]);
      CountReasonAppend(Emitted(current, ops[0]), ExpectedEvents(next, ops[1..]), reason);
      ExpectedTextChangedCount(next, ops[1..], reason);
    }
  }

  /**
   * Exactly-once for whole sessions: from an idle view, the TextChanged events with a given
   * reason that a session adds to the log are one per native edit with that reason, plus,
   * for ProgrammaticChange, one per programmatic write that changes the text.
   */
  lemma {:induction false} RunTextChangedCount<Item, Color>(s: ViewState<Item, Color>, ops: seq<Op<Item, Color>>, reason: AutoCompleteTextChangeReason)
    requires s.Idle()
    ensures CountReason(Run(s, ops).events, reason)
         == CountReason(s.events, reason) + NativeEdits(ops, reason)
            + (if reason == ProgrammaticChange then EffectiveTextWrites(s.text, ops) else 0)
  {
    RunMatchesReference(s, ops);
    CountReasonAppend(s.events, ExpectedEvents(s.text, ops), reason);
    ExpectedTextChangedCount(s.text, ops, reason);
  }

  /**
   * A typing session made only of native edits raises exactly one TextChanged per edit,
   * in order, each carrying the reason the native control reported, whatever the state
   * of the guard before the session.
   */
  lemma {:induction false} NativeSessionEvents<Item, Color>(s: ViewState<Item, Color>, ops: seq<Op<Item, Color>>)
    requires forall i :: 0 <= i < |ops| ==> ops[i].NativeTextEdit?
    ensures s.events <= Run(s, ops).events
    ensures |Run(s, ops).events| == |s.events| + |ops|
    ensures forall i :: 0 <= i < |ops| ==> Run(s, ops).events[|s.events| + i] == TextChangedWith(ops[i].reason, ops[i].editedText)
    decreases |ops|
  {
    if ops != [] {
      var next := Step(s, ops[0]);
      assert next.events == s.events + [TextChangedWith(ops[0].reason, ops[0].editedText)];
      NativeSessionEvents(next, ops[1..]);
      var after := Run(s, ops).events;
      assert after == Run(next, ops[1..]).events;
      forall i | 0 <= i < |ops|
        ensures after[|s.events| + i] == TextChangedWith(ops[i].reason, ops[i].editedText)
      {
        if i == 0 {
          assert after[|s.events|] == next.events[|s.events|];
        } else {
          assert ops[1..][i - 1] == ops[i];
          assert after[|next.events| + (i - 1)] == TextChangedWith(ops[1..][i - 1].reason, ops[1..][i - 1].editedText);
        }
      }
    }
  }

  /** The guard is released by a native edit: a programmatic write just after it is announced normally. */
  lemma WriteAfterNativeEditIsAnnounced<Item, Color>(s: ViewState<Item, Color>, t: string, reason: AutoCompleteTextChangeReason, v: string)
    requires v != t
    ensures SetText(NativeControlTextChanged(s, t, reason), v).events
         == s.events + [TextChangedWith(reason, t), TextChangedWith(ProgrammaticChange, v)]
  {
  }
}
