/** The show-message handler: the options it passes to the page overlay, and whether it then
    waits for the overlay to be closed. The overlay itself is drawn by code in the browser and
    is not part of this model. */
module ShowMessageHandler {
  import opened Wrappers
  import opened Actions

  /** How long a message stays up when the action does not say. */
  const DefaultDuration: int := 5000

  /** The longest wait for a message to be closed: five minutes. */
  const CloseWaitLimit: int := 300000

  /** The options `UIInjector.showMessage` receives. */
  datatype MessageOptions = MessageOptions(
    message: string, position: Option<Position>, duration: int, style: Style, closeButton: bool)

  /** The calls the handler makes on the page, in order. */
  datatype PageCall =
    | ShowOverlay(options: MessageOptions)
    /** `page.waitForFunction(<no .playflow-overlay element>, {timeout})`. */
    | WaitOverlayClosed(timeout: int)

  /** `action.duration !== undefined ? action.duration : 5000`: only an absent duration takes
      the default; an explicit 0 is kept. */
  function Duration(duration: Option<int>): (r: int)
    ensures duration.Some? ==> r == duration.value
    ensures duration.None? ==> r == DefaultDuration
  {
    if duration.Some? then duration.value else DefaultDuration
  }

  /** `action.style || 'info'`: every style name is a non-empty string, so only an absent
      style falls back. */
  function StyleOf(style: Option<Style>): (r: Style)
    ensures r == Info <==> style.None? || style == Some(Info)
  {
    style.GetOr(Info)
  }

  /** `action.closeButton !== false`: the close button shows unless it is turned off. */
  function CloseButton(closeButton: Option<bool>): (r: bool)
    ensures !r <==> closeButton == Some(false)
  {
    closeButton != Some(false)
  }

  function Options(a: Action): MessageOptions
    requires a.ShowMessageAction?
  {
    MessageOptions(a.message, a.position, Duration(a.duration), StyleOf(a.style), CloseButton(a.closeButton))
  }

  /** `action.waitForClose && action.duration === 0`: the raw duration is tested, so an absent
      duration (shown for five seconds) never waits. */
  predicate WaitsForClose(a: Action)
    requires a.ShowMessageAction?
  {
    a.waitForClose == Some(true) && a.duration == Some(0)
  }

  /** `ShowMessageHandler.execute`: the overlay, then possibly the wait for it to close. */
  function Execute(a: Action): seq<PageCall>
    requires a.ShowMessageAction?
  {
    [ShowOverlay(Options(a))] + (if WaitsForClose(a) then [WaitOverlayClosed(CloseWaitLimit)] else [])
  }

  /** The handler always shows the message as given, at the position given, and then waits
      at most five minutes, only for a message that never closes by itself. */
  lemma ExecuteShape(a: Action)
    requires a.ShowMessageAction?
    ensures 1 <= |Execute(a)| <= 2
    ensures Execute(a)[0].ShowOverlay?
    ensures Execute(a)[0].options.message == a.message && Execute(a)[0].options.position == a.position
    ensures |Execute(a)| == 2 <==> WaitsForClose(a)
    ensures |Execute(a)| == 2 ==> Execute(a)[1] == WaitOverlayClosed(CloseWaitLimit) && Execute(a)[0].options.duration == 0
  {
  }

  /** The wait happens exactly when the message was asked to wait and the overlay it showed
      has no timer: a duration of 0 in the options comes only from an explicit 0. */
  lemma WaitIffNoTimer(a: Action)
    requires a.ShowMessageAction?
    ensures WaitsForClose(a) <==> a.waitForClose == Some(true) && Options(a).duration == 0
  {
    if a.duration.None? {
      assert Options(a).duration == DefaultDuration;
    }
  }

  /** An action with only a message shows it for five seconds in the info style with a close
      button, and does not wait. */
  lemma DefaultsExample(b: Base, text: string)
    ensures Execute(ShowMessageAction(b, text, None, None, None, None, Some(true)))
         == [ShowOverlay(MessageOptions(text, None, 5000, Info, true))]
  {
  }
}
