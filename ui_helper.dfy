/**
 * Button lookup on a menu screen: the first button, in list order, whose lower-cased
 * label contains one of the wanted texts, lower-cased too.
 */
module UiHelper {
  import opened Text
  import opened Wrappers

  /** What `widget.getMessage()` does. */
  datatype Message = Label(text: string) | NullLabel | Throws

  /**
   * A clickable widget as the lookup sees it: whether it is a `ButtonWidget`, what
   * `getMessage()` does, the text the reflective fallback finds (the first non-null field
   * named like text, message or label; `None` when there is none or reflection fails), and
   * its `toString()`.
   */
  datatype Widget = Widget(isButton: bool, message: Message, reflectedText: Option<string>, description: string)

  /** `getButtonText`: the label, `""` for a null label, the reflective fallback when `getMessage` throws. */
  function ButtonText(w: Widget): (t: string)
    ensures w.message.Label? ==> t == w.message.text
    ensures w.message.NullLabel? ==> t == ""
    ensures w.message.Throws? && w.reflectedText.None? ==> t == ""
    ensures w.message.Throws? && w.reflectedText.Some? ==> t == w.reflectedText.value
  {
    match w.message
    case Label(text) => text
    case NullLabel => ""
    case Throws => w.reflectedText.GetOr("")
  }

  /** The lower-cased text a button is matched on: its label, or its `toString()` when the label is empty. */
  function MatchText(w: Widget): string {
    var lowered := ToLower(ButtonText(w));
    if lowered == "" then ToLower(w.description) else lowered
  }

  /** The widget is a button whose match text contains `option`, ignoring case. */
  predicate MatchesOption(w: Widget, option: string) {
    w.isButton && Contains(MatchText(w), ToLower(option))
  }

  /** The widget is a button matching some option. */
  predicate Matches(w: Widget, options: seq<string>) {
    exists k :: 0 <= k < |options| && MatchesOption(w, options[k])
  }

  /** `widgets[i]` matches and no widget before it does. */
  ghost predicate FirstMatchAt(widgets: seq<Widget>, options: seq<string>, i: int) {
    0 <= i < |widgets| && Matches(widgets[i], options) &&
    forall j :: 0 <= j < i ==> !Matches(widgets[j], options)
  }

  /**
   * `findButtonWithText`: the first widget in list order that is a button matching one of
   * the options, or `None` (Java's null) when there is none.
   */
  method FindButtonWithText(widgets: seq<Widget>, options: seq<string>) returns (found: Option<Widget>)
    ensures found.Some? ==> found.value.isButton
    ensures found.Some? ==> exists i :: FirstMatchAt(widgets, options, i) && widgets[i] == found.value
    ensures found.None? <==> forall i :: 0 <= i < |widgets| ==> !Matches(widgets[i], options)
  {
    var i := 0;
    while i < |widgets|
      invariant 0 <= i <= |widgets|
      invariant forall j :: 0 <= j < i ==> !Matches(widgets[j], options)
    {
      var widget := widgets[i];
      if widget.isButton {
        var buttonText := ToLower(ButtonText(widget));
        if buttonText == "" {
          buttonText := ToLower(widget.description);
        }
        var k := 0;
        while k < |options|
          invariant 0 <= k <= |options|
          invariant forall k' :: 0 <= k' < k ==> !MatchesOption(widget, options[k'])
        {
          if Contains(buttonText, ToLower(options[k])) {
            assert MatchesOption(widget, options[k]);
            return Some(widget);
          }
          k := k + 1;
        }
      }
      i := i + 1;
    }
    return None;
  }

  /**
   * `hasButtonWithText`: whether the lookup finds a button, over the widgets gathered from
   * the screen.
   */
  method HasButtonWithText(widgets: seq<Widget>, options: seq<string>) returns (has: bool)
    ensures has <==> exists i :: 0 <= i < |widgets| && Matches(widgets[i], options)
  {
    var found := FindButtonWithText(widgets, options);
    has := found != None;
  }

  /** An empty option is contained in every text, so it matches every button. */
  lemma EmptyOptionMatchesEveryButton(w: Widget, options: seq<string>, k: nat)
    requires w.isButton && k < |options| && options[k] == ""
    ensures Matches(w, options)
  {
    assert MatchesOption(w, options[k]);
  }
}
