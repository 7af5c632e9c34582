/**
 * The loops the examples use to drain a runner's event stream and print
 * what the agent said. They differ in what they print and in what an error
 * or a malformed event does to them, and those differences are what this
 * module states.
 */
module ConsoleRuns {
  import opened Wrappers
  import opened Genai
  import opened ResponseHelpers

  /** How a drain loop ends: after the whole stream, on a fatal error, or in a run-time panic. */
  datatype Ending = Completed | Fatal(error: string) | Panic

  /** The console lines a drain loop prints, the errors it logs and how it ends. */
  datatype Console = Console(printed: seq<string>, logged: seq<string>, ending: Ending)

  function Prepend(printed: seq<string>, logged: seq<string>, c: Console): Console {
    Console(printed + c.printed, logged + c.logged, c.ending)
  }

  // ---------------------------------------------------------------------
  // `run` of the custom-tool customer-support and weather examples
  // ---------------------------------------------------------------------

  /** An element that stops the first-part loop: an error, or an event whose first part cannot be read. */
  predicate Halts(item: Item) {
    item.Fail? || item.event.response.content.None? || |item.event.response.content.value.parts| == 0
  }

  /** The first part's text of a readable event, when it is not empty. */
  function FirstText(item: Item): seq<string>
    requires !Halts(item)
  {
    var t := item.event.response.content.value.parts[0].text;
    if t != "" then [t] else []
  }

  /**
   * The loop reads `event.Content.Parts[0].Text` of every event: an error is
   * fatal, and an event without content or parts panics.
   */
  function FirstPartSpec(items: seq<Item>): Console
    decreases |items|
  {
    if items == [] then Console([], [], Completed)
    else if items[0].Fail? then Console([], [], Fatal(items[0].error))
    else if Halts(items[0]) then Console([], [], Panic)
    else Prepend(FirstText(items[0]), [], FirstPartSpec(items[1..]))
  }

  method FirstPartRun(items: seq<Item>) returns (c: Console)
    ensures c == FirstPartSpec(items)
  {
    var printed: seq<string> := [];
    var i := 0;
    while i < |items|
      invariant 0 <= i <= |items|
      invariant FirstPartSpec(items) == Prepend(printed, [], FirstPartSpec(items[i..]))
    {
      assert items[i..][1..] == items[i + 1..];
      match items[i]
      case Fail(e) =>
        return Console(printed, [], Fatal(e));
      case Ev(ev) =>
        if ev.response.content.None? || |ev.response.content.value.parts| == 0 {
          return Console(printed, [], Panic);
        }
        if ev.response.content.value.parts[0].text != "" {
          printed := printed + [ev.response.content.value.parts[0].text];
        }
      i := i + 1;
    }
    return Console(printed, [], Completed);
  }

  /** The texts the loop prints for a stream of readable events. */
  function FirstTexts(items: seq<Item>): seq<string>
    requires forall j :: 0 <= j < |items| ==> !Halts(items[j])
    decreases |items|
  {
    if items == [] then [] else FirstText(items[0]) + FirstTexts(items[1..])
  }

  /**
   * The loop runs to the end exactly when no element halts it, and then it
   * has printed the non-empty first text of every event; it logs nothing.
   */
  lemma {:induction false} FirstPartCompletes(items: seq<Item>)
    ensures (FirstPartSpec(items).ending == Completed) <==> forall j :: 0 <= j < |items| ==> !Halts(items[j])
    ensures (forall j :: 0 <= j < |items| ==> !Halts(items[j])) ==> FirstPartSpec(items).printed == FirstTexts(items)
    ensures FirstPartSpec(items).logged == []
    decreases |items|
  {
    if items != [] {
      FirstPartCompletes(items[1..]);
      if !Halts(items[0]) {
        forall j | 0 <= j < |items[1..]| ensures items[1..][j] == items[j + 1] { }
      }
    }
  }

  /**
   * Otherwise the loop ends at the first halting element, fatally for an
   * error and in a panic for an unreadable event, having printed the
   * non-empty first texts of the events before it.
   */
  lemma {:induction false} FirstPartHalts(items: seq<Item>, j: int)
    requires 0 <= j < |items| && Halts(items[j])
    requires forall k :: 0 <= k < j ==> !Halts(items[k])
    ensures FirstPartSpec(items).ending == (if items[j].Fail? then Fatal(items[j].error) else Panic)
    ensures FirstPartSpec(items).printed == FirstTexts(items[..j])
    decreases j
  {
    if j == 0 {
      assert items[..0] == [];
    } else {
      assert !Halts(items[0]);
      assert items[1..][j - 1] == items[j];
      forall k | 0 <= k < j - 1 ensures !Halts(items[1..][k]) {
        assert items[1..][k] == items[k + 1];
      }
      FirstPartHalts(items[1..], j - 1);
      assert items[..j][1..] == items[1..][..j - 1];
      assert items[..j][0] == items[0];
    }
  }

  /** Every line the first-part loop prints is non-empty. */
  lemma {:induction false} FirstPartPrintsNonEmpty(items: seq<Item>)
    ensures forall t :: t in FirstPartSpec(items).printed ==> t != ""
    decreases |items|
  {
    if items != [] && !Halts(items[0]) {
      FirstPartPrintsNonEmpty(items[1..]);
    }
  }

  // ---------------------------------------------------------------------
  // `runAgent` of the instruction-provider example, and the loop of the
  // instruction-template example
  // ---------------------------------------------------------------------

  /** The non-empty texts of an event with content and parts; nothing for an error. */
  function EventTexts(item: Item): seq<string> {
    if item.Ev? && item.event.response.content.Some? && |item.event.response.content.value.parts| > 0
    then NonEmptyTexts(item.event.response.content.value.parts)
    else []
  }

  function ErrorLog(item: Item): seq<string> {
    if item.Fail? then [item.error] else []
  }

  /** Errors are logged and skipped; every other event prints its non-empty texts. */
  function TextPartsSpec(items: seq<Item>): Console
    decreases |items|
  {
    if items == [] then Console([], [], Completed)
    else Prepend(EventTexts(items[0]), ErrorLog(items[0]), TextPartsSpec(items[1..]))
  }

  /** The body of the loop for one stream element. */
  method TextPartsStep(item: Item) returns (printed: seq<string>, logged: seq<string>)
    ensures printed == EventTexts(item) && logged == ErrorLog(item)
  {
    if item.Fail? {
      return [], [item.error];
    }
    var content := item.event.response.content;
    printed := [];
    if content.Some? && |content.value.parts| > 0 {
      printed := TextParts(content);
    }
    return printed, [];
  }

  method TextPartsRun(items: seq<Item>) returns (c: Console)
    ensures c == TextPartsSpec(items)
  {
    var printed: seq<string> := [];
    var logged: seq<string> := [];
    var i := 0;
    while i < |items|
      invariant 0 <= i <= |items|
      invariant TextPartsSpec(items) == Prepend(printed, logged, TextPartsSpec(items[i..]))
    {
      assert items[i..][1..] == items[i + 1..];
      var p, l := TextPartsStep(items[i]);
      ghost var rest := TextPartsSpec(items[i + 1..]);
      assert TextPartsSpec(items[i..]) == Prepend(p, l, rest);
      assert printed + (p + rest.printed) == (printed + p) + rest.printed;
      assert logged + (l + rest.logged) == (logged + l) + rest.logged;
      printed := printed + p;
      logged := logged + l;
      i := i + 1;
    }
    return Console(printed, logged, Completed);
  }

  /** The stream with its errors removed. */
  function EventsOnly(items: seq<Item>): seq<Item>
    decreases |items|
  {
    if items == [] then [] else (if items[0].Ev? then [items[0]] else []) + EventsOnly(items[1..])
  }

  /**
   * The text-parts loop always runs to the end, prints exactly what it would
   * print without the errors, logs one line per error, and prints only
   * non-empty texts.
   */
  lemma {:induction false} TextPartsIgnoresErrors(items: seq<Item>)
    ensures TextPartsSpec(items).ending == Completed
    ensures TextPartsSpec(items).printed == TextPartsSpec(EventsOnly(items)).printed
    ensures |TextPartsSpec(items).logged| == |items| - |EventsOnly(items)|
    ensures forall t :: t in TextPartsSpec(items).printed ==> t != ""
    decreases |items|
  {
    if items != [] {
      TextPartsIgnoresErrors(items[1..]);
      if items[0].Ev? {
        var rest := EventsOnly(items[1..]);
        assert EventsOnly(items) == [items[0]] + rest;
        assert ([items[0]] + rest)[1..] == rest;
        if items[0].event.response.content.Some? && |items[0].event.response.content.value.parts| > 0 {
          NonEmptyTextsSound(items[0].event.response.content.value.parts);
        }
      } else {
        assert EventsOnly(items) == EventsOnly(items[1..]);
      }
    }
  }

  // ---------------------------------------------------------------------
  // The drain loop of the toolset and weather-sentiment overview examples
  // ---------------------------------------------------------------------

  /** An event whose model response may be missing altogether, as those examples assume. */
  datatype RawEvent = RawEvent(actions: Actions, longRunningToolIDs: seq<string>, response: Option<LLMResponse>)

  datatype RawItem = RawEv(event: RawEvent) | RawFail(error: string)

  predicate IsFinal(ev: RawEvent) {
    IsFinalResponseOpt(ev.actions, ev.longRunningToolIDs, ev.response)
  }

  /** A final event without a response: the loop reads the content of a missing response and panics. */
  predicate Panics(item: RawItem) {
    item.RawEv? && IsFinal(item.event) && item.event.response.None?
  }

  /** The line a final response prints: its first non-empty text, if any. */
  function FinalLine(item: RawItem): seq<string>
    requires !Panics(item)
  {
    if item.RawEv? && IsFinal(item.event) then
      var texts := ContentTexts(item.event.response.value.content);
      if |texts| > 0 then [texts[0]] else []
    else []
  }

  function RawLog(item: RawItem): seq<string> {
    if item.RawFail? then [item.error] else []
  }

  /** Errors are logged and skipped; final responses print their first non-empty text. */
  function FinalTextSpec(items: seq<RawItem>): Console
    decreases |items|
  {
    if items == [] then Console([], [], Completed)
    else if Panics(items[0]) then Console([], [], Panic)
    else Prepend(FinalLine(items[0]), RawLog(items[0]), FinalTextSpec(items[1..]))
  }

  /** The body of the loop for one stream element that does not panic. */
  method FinalTextStep(item: RawItem) returns (printed: seq<string>, logged: seq<string>)
    requires !Panics(item)
    ensures printed == FinalLine(item) && logged == RawLog(item)
  {
    if item.RawFail? {
      return [], [item.error];
    }
    printed := [];
    if IsFinal(item.event) {
      var texts := TextParts(item.event.response.value.content);
      if |texts| > 0 {
        printed := [texts[0]];
      }
    }
    return printed, [];
  }

  method FinalTextRun(items: seq<RawItem>) returns (c: Console)
    ensures c == FinalTextSpec(items)
  {
    var printed: seq<string> := [];
    var logged: seq<string> := [];
    var i := 0;
    while i < |items|
      invariant 0 <= i <= |items|
      invariant FinalTextSpec(items) == Prepend(printed, logged, FinalTextSpec(items[i..]))
    {
      assert items[i..][1..] == items[i + 1..];
      if Panics(items[i]) {
        return Console(printed, logged, Panic);
      }
      var p, l := FinalTextStep(items[i]);
      ghost var rest := FinalTextSpec(items[i + 1..]);
      assert FinalTextSpec(items[i..]) == Prepend(p, l, rest);
      assert printed + (p + rest.printed) == (printed + p) + rest.printed;
      assert logged + (l + rest.logged) == (logged + l) + rest.logged;
      printed := printed + p;
      logged := logged + l;
      i := i + 1;
    }
    return Console(printed, logged, Completed);
  }

  /**
   * Only final responses print, one line at most each, and that line is the
   * first non-empty text of the response; errors never stop the loop.
   */
  lemma {:induction false} FinalTextPrintsFinalOnly(items: seq<RawItem>)
    ensures |FinalTextSpec(items).printed| <= |items|
    ensures forall t :: t in FinalTextSpec(items).printed ==> t != ""
    ensures (forall j :: 0 <= j < |items| ==> items[j].RawFail? || !IsFinal(items[j].event))
            ==> FinalTextSpec(items).printed == []
    ensures (forall j :: 0 <= j < |items| ==> items[j].RawFail? || !IsFinal(items[j].event) || items[j].event.response.Some?)
            ==> FinalTextSpec(items).ending == Completed
    decreases |items|
  {
    if items != [] {
      FinalTextPrintsFinalOnly(items[1..]);
      forall j | 0 <= j < |items[1..]| ensures items[1..][j] == items[j + 1] { }
      if items[0].RawEv? && IsFinal(items[0].event) && items[0].event.response.Some? {
        var texts := ContentTexts(items[0].event.response.value.content);
        if items[0].event.response.value.content.Some? {
          NonEmptyTextsSound(items[0].event.response.value.content.value.parts);
        }
        if |texts| > 0 {
          assert texts[0] in texts;
        }
      }
    }
  }
}
