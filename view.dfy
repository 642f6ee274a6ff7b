/**
 * The autocomplete view as the object the host framework holds: one field per bindable
 * property slot, the re-entrancy guard, and the log of raised events. The Text setter, its
 * callback, the native edit and the two raise methods are proved against the corresponding
 * functions of AutoCompleteState; each passive setter replaces its own slot and nothing else.
 */
module AutoCompleteDemo {
  import opened Wrappers
  import opened AutoCompleteEvents
  import S = AutoCompleteState

  /**
   * `Color` stands for the host's colour type; its Gray value is supplied by the host when
   * the view is created.
   */
  class AutoCompleteView<Item, Color> {
    var text: string
    var textColor: Color
    var placeholderText: string
    var placeholderTextColor: Color
    var textMemberPath: string
    var displayMemberPath: string
    var isSuggestionListOpen: bool
    var updateTextOnSelect: bool
    var itemsSource: Option<seq<Item>>

    /** Up only while a native edit writes Text, so that the write is not announced as programmatic. */
    var suppressTextChangedEvent: bool

    /** Every TextChanged, SuggestionChosen and QuerySubmitted raised so far, oldest first. */
    var events: seq<Event<Item>>

    /** The abstract value of this view. */
    ghost function State(): S.ViewState<Item, Color>
      reads this
    {
      S.ViewState(text, textColor, placeholderText, placeholderTextColor, textMemberPath,
                  displayMemberPath, isSuggestionListOpen, updateTextOnSelect, itemsSource,
                  suppressTextChangedEvent, events)
    }

    ghost predicate Idle()
      reads this
    {
      State().Idle()
    }

    constructor (gray: Color)
      ensures State() == S.Initial(gray) && Idle()
      ensures text == "" && placeholderText == "" && textMemberPath == "" && displayMemberPath == ""
      ensures textColor == gray && placeholderTextColor == gray
      ensures !isSuggestionListOpen && updateTextOnSelect && itemsSource == None
      ensures events == []
    {
      text := "";
      textColor := gray;
      placeholderText := "";
      placeholderTextColor := gray;
      textMemberPath := "";
      displayMemberPath := "";
      isSuggestionListOpen := false;
      updateTextOnSelect := true;
      itemsSource := None;
      suppressTextChangedEvent := false;
      events := [];
    }

    /** The property-changed callback registered for Text. */
    method OnTextPropertyChanged()
      modifies this`events
      ensures State() == S.OnTextPropertyChanged(old(State()))
      ensures events == old(events) + (if suppressTextChangedEvent then [] else [TextChangedWith(ProgrammaticChange, text)])
    {
      if !suppressTextChangedEvent {
        events := events + [TextChangedWith(ProgrammaticChange, text)];
      }
    }

    /**
     * The Text setter. The host's property store stores the value and runs the callback
     * only when the value differs from the one stored.
     */
    method SetText(value: string)
      modifies this`text, this`events
      ensures State() == S.SetText(old(State()), value)
      ensures text == value
      ensures events == old(events) + (if value != old(text) && !suppressTextChangedEvent
                                       then [TextChangedWith(ProgrammaticChange, value)] else [])
    {
      if value != text {
        text := value;
        OnTextPropertyChanged();
      }
    }

    /** Called by the native control when the user (or a suggestion pick) changed the text. */
    method NativeControlTextChanged(newText: string, reason: AutoCompleteTextChangeReason)
      modifies this`text, this`events, this`suppressTextChangedEvent
      ensures State() == S.NativeControlTextChanged(old(State()), newText, reason)
      ensures text == newText && Idle()
      ensures events == old(events) + [TextChangedWith(reason, newText)]
    {
      suppressTextChangedEvent := true;
      SetText(newText);
      suppressTextChangedEvent := false;
      events := events + [TextChangedWith(reason, text)];
    }

    method RaiseSuggestionChosen(selectedItem: Option<Item>)
      modifies this`events
      ensures State() == S.RaiseSuggestionChosen(old(State()), selectedItem)
      ensures events == old(events) + [SuggestionChosenRaised(AutoCompleteViewEventArgs(selectedItem))]
    {
      events := events + [SuggestionChosenRaised(AutoCompleteViewEventArgs(selectedItem))];
    }

    method RaiseQuerySubmitted(queryText: string, chosenSuggestion: Option<Item>)
      modifies this`events
      ensures State() == S.RaiseQuerySubmitted(old(State()), queryText, chosenSuggestion)
      ensures events == old(events) + [QuerySubmittedRaised(AutoCompleteQuerySubmittedEventArgs(queryText, chosenSuggestion))]
    {
      events := events + [QuerySubmittedRaised(AutoCompleteQuerySubmittedEventArgs(queryText, chosenSuggestion))];
    }

    // The passive properties: the host stores the value; no callback is registered.

    method SetTextColor(value: Color)
      modifies this`textColor
      ensures State() == old(State()).(textColor := value)
    {
      textColor := value;
    }

    method SetPlaceholderText(value: string)
      modifies this`placeholderText
      ensures State() == old(State()).(placeholderText := value)
    {
      placeholderText := value;
    }

    method SetPlaceholderTextColor(value: Color)
      modifies this`placeholderTextColor
      ensures State() == old(State()).(placeholderTextColor := value)
    {
      placeholderTextColor := value;
    }

    method SetTextMemberPath(value: string)
      modifies this`textMemberPath
      ensures State() == old(State()).(textMemberPath := value)
    {
      textMemberPath := value;
    }

    method SetDisplayMemberPath(value: string)
      modifies this`displayMemberPath
      ensures State() == old(State()).(displayMemberPath := value)
    {
      displayMemberPath := value;
    }

    method SetIsSuggestionListOpen(value: bool)
      modifies this`isSuggestionListOpen
      ensures State() == old(State()).(isSuggestionListOpen := value)
    {
      isSuggestionListOpen := value;
    }

    method SetUpdateTextOnSelect(value: bool)
      modifies this`updateTextOnSelect
      ensures State() == old(State()).(updateTextOnSelect := value)
    {
      updateTextOnSelect := value;
    }

    method SetItemsSource(value: Option<seq<Item>>)
      modifies this`itemsSource
      ensures State() == old(State()).(itemsSource := value)
    {
      itemsSource := value;
    }
  }
}
