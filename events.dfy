/** The reason enumeration and the three immutable event-argument records raised by the view. */
module AutoCompleteEvents {
  import opened Wrappers

  /** Why the text of the view changed. */
  datatype AutoCompleteTextChangeReason =
    | UserInput            // the user edited the text
    | ProgrammaticChange   // the text was changed by code
    | SuggestionChosen     // the user picked an item of the suggestion list

  /** Payload of TextChanged. */
  datatype AutoCompleteTextChangedEventArgs = AutoCompleteTextChangedEventArgs(reason: AutoCompleteTextChangeReason)

  /** Payload of QuerySubmitted; the chosen suggestion may be absent (a null reference). */
  datatype AutoCompleteQuerySubmittedEventArgs<Item> =
    AutoCompleteQuerySubmittedEventArgs(queryText: string, chosenSuggestion: Option<Item>)

  /** Payload of SuggestionChosen; the selected item may be a null reference. */
  datatype AutoCompleteViewEventArgs<Item> = AutoCompleteViewEventArgs(selectedItem: Option<Item>)

  /**
   * One raised event, as its subscribers observe it: which event, and with which arguments.
   * Every event passes the view itself as sender; for TextChanged the log also keeps the
   * `Text` a handler reads from the sender at the moment the event is raised.
   */
  datatype Event<Item> =
    | TextChangedRaised(textChanged: AutoCompleteTextChangedEventArgs, senderText: string)
    | SuggestionChosenRaised(suggestion: AutoCompleteViewEventArgs<Item>)
    | QuerySubmittedRaised(query: AutoCompleteQuerySubmittedEventArgs<Item>)

  /** The TextChanged event raised with the given reason while the sender's Text is `senderText`. */
  function TextChangedWith<Item>(reason: AutoCompleteTextChangeReason, senderText: string): Event<Item>
  {
    TextChangedRaised(AutoCompleteTextChangedEventArgs(reason), senderText)
  }

  /** Number of TextChanged events in `events` whose reason is `reason`. */
  function CountReason<Item>(events: seq<Event<Item>>, reason: AutoCompleteTextChangeReason): nat
  {
    if events == [] then 0
    else (if events[0].TextChangedRaised? && events[0].textChanged.reason == reason then 1 else 0) + CountReason(events[1..], reason)
  }

  /**
   * The Text announced by the last TextChanged in `events`, or `before` when there is none:
   * what a subscriber that tracks Text through TextChanged alone believes it to be.
   */
  function LastAnnounced<Item>(events: seq<Event<Item>>, before: string): string
  {
    if events == [] then before
    else LastAnnounced(events[1..], if events[0].TextChangedRaised? then events[0].senderText else before)
  }

  /** Tracking a longer log is tracking its first part, then the rest. */
  lemma {:induction false} LastAnnouncedAppend<Item>(a: seq<Event<Item>>, b: seq<Event<Item>>, before: string)
    ensures LastAnnounced(a + b, before) == LastAnnounced(b, LastAnnounced(a, before))
  {
    if a == [] {
      assert a + b == b;
    } else {
      assert (a + b)[1..] == a[1..] + b;
      LastAnnouncedAppend(a[1..], b, if a[0].TextChangedRaised? then a[0].senderText else before);
    }
  }

  /** Counting distributes over concatenation of event logs. */
  lemma {:induction false} CountReasonAppend<Item>(a: seq<Event<Item>>, b: seq<Event<Item>>, reason: AutoCompleteTextChangeReason)
    ensures CountReason(a + b, reason) == CountReason(a, reason) + CountReason(b, reason)
  {
    if a == [] {
      assert a + b == b;
    } else {
      assert (a + b)[1..] == a[1..] + b;
      CountReasonAppend(a[1..], b, reason);
    }
  }
}
