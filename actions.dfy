/** The typed action model: a closed set of fifteen action tags and one record shape per tag.
    Every shape carries the common `BaseAction` fields (`description`, `skipVtt`, `skipChapter`). */
module Actions {
  import opened Wrappers

  /** The discriminant of an action. `TypeText` is the tag written "type" in workflow files. */
  datatype ActionType =
    | Goto | Click | Fill | TypeText | Press | Hover | Screenshot | WaitForSelector
    | WaitForTimeout | WaitForManualAction | SelectOption | Check | Uncheck | Evaluate | ShowMessage

  /** The discriminant as it is spelled in a workflow file and keyed in the handler map. */
  function TagName(t: ActionType): string
  {
    match t
    case Goto => "goto"
    case Click => "click"
    case Fill => "fill"
    case TypeText => "type"
    case Press => "press"
    case Hover => "hover"
    case Screenshot => "screenshot"
    case WaitForSelector => "waitForSelector"
    case WaitForTimeout => "waitForTimeout"
    case WaitForManualAction => "waitForManualAction"
    case SelectOption => "selectOption"
    case Check => "check"
    case Uncheck => "uncheck"
    case Evaluate => "evaluate"
    case ShowMessage => "showMessage"
  }

  /** The tag a discriminant string names, if it names one. */
  function ParseTag(s: string): Option<ActionType>
  {
    if s == "goto" then Some(Goto)
    else if s == "click" then Some(Click)
    else if s == "fill" then Some(Fill)
    else if s == "type" then Some(TypeText)
    else if s == "press" then Some(Press)
    else if s == "hover" then Some(Hover)
    else if s == "screenshot" then Some(Screenshot)
    else if s == "waitForSelector" then Some(WaitForSelector)
    else if s == "waitForTimeout" then Some(WaitForTimeout)
    else if s == "waitForManualAction" then Some(WaitForManualAction)
    else if s == "selectOption" then Some(SelectOption)
    else if s == "check" then Some(Check)
    else if s == "uncheck" then Some(Uncheck)
    else if s == "evaluate" then Some(Evaluate)
    else if s == "showMessage" then Some(ShowMessage)
    else None
  }

  /** Every tag, each once, in declaration order. */
  function AllTags(): (r: seq<ActionType>)
    ensures |r| == 15
    ensures forall i, j :: 0 <= i < j < |r| ==> r[i] != r[j]
  {
    [Goto, Click, Fill, TypeText, Press, Hover, Screenshot, WaitForSelector,
     WaitForTimeout, WaitForManualAction, SelectOption, Check, Uncheck, Evaluate, ShowMessage]
  }

  /** Every tag is listed. */
  lemma AllTagsComplete(t: ActionType)
    ensures t in AllTags()
  {
    var r := AllTags();
    match t {
      case Goto => assert r[0] == t;
      case Click => assert r[1] == t;
      case Fill => assert r[2] == t;
      case TypeText => assert r[3] == t;
      case Press => assert r[4] == t;
      case Hover => assert r[5] == t;
      case Screenshot => assert r[6] == t;
      case WaitForSelector => assert r[7] == t;
      case WaitForTimeout => assert r[8] == t;
      case WaitForManualAction => assert r[9] == t;
      case SelectOption => assert r[10] == t;
      case Check => assert r[11] == t;
      case Uncheck => assert r[12] == t;
      case Evaluate => assert r[13] == t;
      case ShowMessage => assert r[14] == t;
    }
  }

  /** A tag's spelling names that tag and no other; any other string names no tag. */
  lemma TagNameRoundTrip(t: ActionType, s: string)
    ensures ParseTag(TagName(t)) == Some(t)
    ensures ParseTag(s) == Some(t) ==> TagName(t) == s
  {
    ParseTagOfName(t);
    ParseTagSound(s);
  }

  lemma ParseTagOfName(t: ActionType)
    ensures ParseTag(TagName(t)) == Some(t)
  {
    match t {
      case Goto =>
      case Click =>
      case Fill =>
      case TypeText =>
      case Press =>
      case Hover =>
      case Screenshot =>
      case WaitForSelector =>
      case WaitForTimeout =>
      case WaitForManualAction =>
      case SelectOption =>
      case Check =>
      case Uncheck =>
      case Evaluate =>
      case ShowMessage =>
    }
  }

  lemma ParseTagSound(s: string)
    ensures ParseTag(s).Some? ==> TagName(ParseTag(s).value) == s
  {
  }

  /** Distinct tags have distinct spellings. */
  lemma TagNameInjective(t: ActionType, u: ActionType)
    ensures TagName(t) == TagName(u) ==> t == u
  {
    TagNameRoundTrip(t, TagName(u));
    TagNameRoundTrip(u, TagName(u));
  }

  datatype Base = Base(description: Option<string>, skipVtt: Option<bool>, skipChapter: Option<bool>)

  /** `selectOption.value`: one option or a list of options. */
  datatype SelectValue = One(option: string) | Many(options: seq<string>)

  datatype OverlayOptions = OverlayOptions(
    title: Option<string>, instruction: Option<string>, backdrop: Option<bool>, progress: Option<bool>)

  datatype Position = TopLeft | TopCenter | TopRight | BottomLeft | BottomCenter | BottomRight | Center

  datatype Style = Info | Warning | Error | Success

  /** One action. Field names follow the source; where two shapes use one name with different
      types, the second is renamed: the manual gate's optional `message` is `gateMessage` and its
      optional `timeout` is `gateTimeout`, and `selectOption.value` is `choice`. */
  datatype Action =
    | GotoAction(base: Base, url: string)
    | ClickAction(base: Base, selector: string)
    | FillAction(base: Base, selector: string, value: string)
    | TypeAction(base: Base, selector: string, text: string)
    | PressAction(base: Base, key: string)
    | HoverAction(base: Base, selector: string)
    | ScreenshotAction(base: Base, path: Option<string>, filename: Option<string>, fullPage: Option<bool>)
    | WaitForSelectorAction(base: Base, selector: string)
    | WaitForTimeoutAction(base: Base, timeout: int)
    | WaitForManualActionAction(base: Base, gateMessage: Option<string>, continueSelector: Option<string>,
                                continueText: Option<string>, gateTimeout: Option<int>,
                                showOverlay: Option<bool>, overlayOptions: Option<OverlayOptions>)
    | SelectOptionAction(base: Base, selector: string, choice: SelectValue)
    | CheckAction(base: Base, selector: string)
    | UncheckAction(base: Base, selector: string)
    | EvaluateAction(base: Base, script: string)
    | ShowMessageAction(base: Base, message: string, position: Option<Position>, duration: Option<int>,
                        style: Option<Style>, closeButton: Option<bool>, waitForClose: Option<bool>)
  {
    /** `action.type`. */
    function Tag(): ActionType
    {
      match this
      case GotoAction(_, _) => Goto
      case ClickAction(_, _) => Click
      case FillAction(_, _, _) => Fill
      case TypeAction(_, _, _) => TypeText
      case PressAction(_, _) => Press
      case HoverAction(_, _) => Hover
      case ScreenshotAction(_, _, _, _) => Screenshot
      case WaitForSelectorAction(_, _) => WaitForSelector
      case WaitForTimeoutAction(_, _) => WaitForTimeout
      case WaitForManualActionAction(_, _, _, _, _, _, _) => WaitForManualAction
      case SelectOptionAction(_, _, _) => SelectOption
      case CheckAction(_, _) => Check
      case UncheckAction(_, _) => Uncheck
      case EvaluateAction(_, _) => Evaluate
      case ShowMessageAction(_, _, _, _, _, _, _) => ShowMessage
    }

    function TypeName(): string { TagName(Tag()) }
  }

  /** The `Action` union has one variant per tag: for every tag there is an action of that tag,
      and the tag determines the variant. */
  lemma OneVariantPerTag(t: ActionType, a: Action)
    ensures exists b: Action :: b.Tag() == t
    ensures a.Tag() == t <==> match t
      case Goto => a.GotoAction?
      case Click => a.ClickAction?
      case Fill => a.FillAction?
      case TypeText => a.TypeAction?
      case Press => a.PressAction?
      case Hover => a.HoverAction?
      case Screenshot => a.ScreenshotAction?
      case WaitForSelector => a.WaitForSelectorAction?
      case WaitForTimeout => a.WaitForTimeoutAction?
      case WaitForManualAction => a.WaitForManualActionAction?
      case SelectOption => a.SelectOptionAction?
      case Check => a.CheckAction?
      case Uncheck => a.UncheckAction?
      case Evaluate => a.EvaluateAction?
      case ShowMessage => a.ShowMessageAction?
  {
    var none := Base(None, None, None);
    var example := match t
      case Goto => GotoAction(none, "")
      case Click => ClickAction(none, "")
      case Fill => FillAction(none, "", "")
      case TypeText => TypeAction(none, "", "")
      case Press => PressAction(none, "")
      case Hover => HoverAction(none, "")
      case Screenshot => ScreenshotAction(none, None, None, None)
      case WaitForSelector => WaitForSelectorAction(none, "")
      case WaitForTimeout => WaitForTimeoutAction(none, 0)
      case WaitForManualAction => WaitForManualActionAction(none, None, None, None, None, None, None)
      case SelectOption => SelectOptionAction(none, "", One(""))
      case Check => CheckAction(none, "")
      case Uncheck => UncheckAction(none, "")
      case Evaluate => EvaluateAction(none, "")
      case ShowMessage => ShowMessageAction(none, "", None, None, None, None, None);
    assert example.Tag() == t;
  }
}
