/** The DOM elements several pages drive the same way: a message element and a submit
    button with a text span and a loader span. */
module Dom {

  /** A message element: its `textContent` and its `className`. */
  datatype Message = Message(text: string, className: string)

  /** `type ? 'message ' + type : ''`, the class the register, login and guest pages give
      their message element. */
  function MessageClass(kind: string): (c: string)
    ensures kind == "" <==> c == ""
    ensures kind != "" ==> c == "message " + kind
  {
    if kind != "" then "message " + kind else ""
  }

  /** `_showMessage(text, type)` of the register, login and guest pages. */
  function ShownMessage(text: string, kind: string): Message
  {
    Message(text, MessageClass(kind))
  }

  /** A submit button: `disabled`, and the CSS `display` of its text and loader spans. */
  datatype LoaderButton = LoaderButton(disabled: bool, textDisplay: string, loaderDisplay: string)

  /** The button as `_setLoading(isLoading, ...)` leaves it. */
  function LoaderButtonFor(isLoading: bool): LoaderButton
  {
    LoaderButton(isLoading, if isLoading then "none" else "inline", if isLoading then "inline" else "none")
  }

  /** Whatever the flag, the button is disabled exactly when loading, the loader shows
      exactly when loading, and exactly one of the two spans is displayed. */
  lemma LoaderButtonShowsOneSpan(isLoading: bool)
    ensures var b := LoaderButtonFor(isLoading);
      && b.disabled == isLoading
      && (b.loaderDisplay != "none" <==> isLoading)
      && ((b.textDisplay != "none") != (b.loaderDisplay != "none"))
  {
  }
}
