/** The workflow schemas and the two validation entry points. Each schema is written as data
    (`Schema`), mirroring the declarative schema values of the source, and one interpreter,
    `Issues`, lists every violation of a value against a schema with the path that leads to it. */
module Validation {
  import opened Wrappers
  import opened Text
  import opened JsonValues
  import opened Actions
  import opened ConfigTypes
  import opened WorkflowTypes

  // ---------------------------------------------------------------------------------------------
  // Schemas and issues

  /** Refinements on a string or number. */
  datatype Check = MinLength(n: nat) | IsUrl | Positive | NonNegative | AtMost(limit: int)

  datatype Schema =
    | SString(checks: seq<Check>)
    | SNumber(checks: seq<Check>)
    | SBoolean
    | SLiteral(lit: string)
    | SEnum(options: seq<string>)
    | SStringOrStrings
    | SObject(fields: seq<Field>)

  datatype Field = Field(key: string, schema: Schema, optional: bool)

  /** One step of the path from the validated value to the offending part. */
  datatype Segment = Key(key: string) | Idx(index: nat)

  datatype IssueCode =
    | Required | InvalidType | InvalidLiteral | InvalidEnum | InvalidUnion
    | InvalidUrl | TooSmall | TooBig | InvalidDiscriminator

  datatype Issue = Issue(code: IssueCode, path: seq<Segment>)

  /** URL syntax, as far as the model needs it: a scheme (a letter, then letters, digits, '+',
      '-' or '.') followed by ':'. */
  predicate ValidUrl(s: string)
  {
    |s| > 0 && IsLetter(s[0]) && SchemeThenColon(s[1..])
  }

  predicate IsLetter(c: char) { 'a' <= c <= 'z' || 'A' <= c <= 'Z' }

  predicate SchemeThenColon(s: string)
  {
    |s| > 0 && (s[0] == ':' || ((IsLetter(s[0]) || IsDigit(s[0]) || s[0] in "+-.") && SchemeThenColon(s[1..])))
  }

  lemma {:induction false} ColonInScheme(s: string)
    ensures SchemeThenColon(s) ==> ':' in s
  {
    if |s| > 0 && s[0] != ':' {
      ColonInScheme(s[1..]);
    }
  }

  function StringCheckIssues(s: string, checks: seq<Check>, path: seq<Segment>): seq<Issue>
  {
    if checks == [] then []
    else
      var first := match checks[0]
        case MinLength(n) => if |s| < n then [Issue(TooSmall, path)] else []
        case IsUrl => if ValidUrl(s) then [] else [Issue(InvalidUrl, path)]
        case _ => [];
      first + StringCheckIssues(s, checks[1..], path)
  }

  predicate StringCheckHolds(s: string, c: Check)
  {
    match c
    case MinLength(n) => |s| >= n
    case IsUrl => ValidUrl(s)
    case _ => true
  }

  predicate NumberCheckHolds(n: int, c: Check)
  {
    match c
    case Positive => n > 0
    case NonNegative => n >= 0
    case AtMost(limit) => n <= limit
    case _ => true
  }

  /** A string passes its refinements exactly when it meets every one of them. */
  lemma {:induction false} StringCheckIssuesEmpty(s: string, checks: seq<Check>, path: seq<Segment>)
    ensures StringCheckIssues(s, checks, path) == [] <==> forall i :: 0 <= i < |checks| ==> StringCheckHolds(s, checks[i])
    decreases |checks|
  {
    if checks != [] {
      StringCheckIssuesEmpty(s, checks[1..], path);
      assert forall i :: 1 <= i < |checks| ==> checks[i] == checks[1..][i - 1];
    }
  }

  /** A number passes its refinements exactly when it meets every one of them. */
  lemma {:induction false} NumberCheckIssuesEmpty(n: int, checks: seq<Check>, path: seq<Segment>)
    ensures NumberCheckIssues(n, checks, path) == [] <==> forall i :: 0 <= i < |checks| ==> NumberCheckHolds(n, checks[i])
    decreases |checks|
  {
    if checks != [] {
      NumberCheckIssuesEmpty(n, checks[1..], path);
      assert forall i :: 1 <= i < |checks| ==> checks[i] == checks[1..][i - 1];
    }
  }

  lemma SingleCheckIssues(s: string, c: Check, path: seq<Segment>)
    ensures StringCheckIssues(s, [c], path) == if StringCheckHolds(s, c) then [] else
      [Issue(if c.IsUrl? then InvalidUrl else TooSmall, path)]
  {
    assert [c][1..] == [];
  }

  function NumberCheckIssues(n: int, checks: seq<Check>, path: seq<Segment>): seq<Issue>
  {
    if checks == [] then []
    else
      var first := match checks[0]
        case Positive => if n <= 0 then [Issue(TooSmall, path)] else []
        case NonNegative => if n < 0 then [Issue(TooSmall, path)] else []
        case AtMost(limit) => if n > limit then [Issue(TooBig, path)] else []
        case _ => [];
      first + NumberCheckIssues(n, checks[1..], path)
  }

  /** Every violation of `v` against `s`, in the order the schema lists its fields. */
  function Issues(v: Json, s: Schema, path: seq<Segment>): seq<Issue>
    decreases s, 1
  {
    match s
    case SString(checks) => if v.JStr? then StringCheckIssues(v.s, checks, path) else [Issue(InvalidType, path)]
    case SNumber(checks) => if v.JNum? then NumberCheckIssues(v.n, checks, path) else [Issue(InvalidType, path)]
    case SBoolean => if v.JBool? then [] else [Issue(InvalidType, path)]
    case SLiteral(lit) => if v == JStr(lit) then [] else [Issue(InvalidLiteral, path)]
    case SEnum(options) =>
      if !v.JStr? then [Issue(InvalidType, path)]
      else if v.s in options then [] else [Issue(InvalidEnum, path)]
    case SStringOrStrings =>
      if v.JStr? || (v.JArr? && forall i :: 0 <= i < |v.items| ==> v.items[i].JStr?) then []
      else [Issue(InvalidUnion, path)]
    case SObject(fields) => if v.JObj? then FieldsIssues(v.fields, fields, s, path) else [Issue(InvalidType, path)]
  }

  function FieldsIssues(m: map<string, Json>, fs: seq<Field>, ghost parent: Schema, path: seq<Segment>): seq<Issue>
    requires forall i :: 0 <= i < |fs| ==> fs[i].schema < parent
    decreases parent, 0, |fs|
  {
    if fs == [] then [] else FieldIssues(m, fs[0], parent, path) + FieldsIssues(m, fs[1..], parent, path)
  }

  /** A missing key is `undefined`: fine for an optional field, 'Required' otherwise. */
  function FieldIssues(m: map<string, Json>, f: Field, ghost parent: Schema, path: seq<Segment>): seq<Issue>
    requires f.schema < parent
    decreases parent, 0, 0
  {
    if f.key !in m then (if f.optional then [] else [Issue(Required, path + [Key(f.key)])])
    else Issues(m[f.key], f.schema, path + [Key(f.key)])
  }

  lemma {:induction false} FieldsIssuesEmpty(m: map<string, Json>, fs: seq<Field>, parent: Schema, path: seq<Segment>)
    requires forall i :: 0 <= i < |fs| ==> fs[i].schema < parent
    ensures FieldsIssues(m, fs, parent, path) == [] <==>
            forall i :: 0 <= i < |fs| ==> FieldIssues(m, fs[i], parent, path) == []
    decreases |fs|
  {
    if fs != [] {
      FieldsIssuesEmpty(m, fs[1..], parent, path);
      assert forall i :: 1 <= i < |fs| ==> fs[i] == fs[1..][i - 1];
    }
  }

  // ---------------------------------------------------------------------------------------------
  // Action schemas

  function PositionName(p: Position): string
  {
    match p
    case TopLeft => "top-left"
    case TopCenter => "top-center"
    case TopRight => "top-right"
    case BottomLeft => "bottom-left"
    case BottomCenter => "bottom-center"
    case BottomRight => "bottom-right"
    case Center => "center"
  }

  function PositionNames(): seq<string>
  {
    ["top-left", "top-center", "top-right", "bottom-left", "bottom-center", "bottom-right", "center"]
  }

  function ParsePosition(s: string): Option<Position>
  {
    if s == "top-left" then Some(TopLeft)
    else if s == "top-center" then Some(TopCenter)
    else if s == "top-right" then Some(TopRight)
    else if s == "bottom-left" then Some(BottomLeft)
    else if s == "bottom-center" then Some(BottomCenter)
    else if s == "bottom-right" then Some(BottomRight)
    else if s == "center" then Some(Center)
    else None
  }

  function StyleName(st: Style): string
  {
    match st
    case Info => "info"
    case Warning => "warning"
    case Error => "error"
    case Success => "success"
  }

  function StyleNames(): seq<string> { ["info", "warning", "error", "success"] }

  function ParseStyle(s: string): Option<Style>
  {
    if s == "info" then Some(Info)
    else if s == "warning" then Some(Warning)
    else if s == "error" then Some(Error)
    else if s == "success" then Some(Success)
    else None
  }

  /** The `BaseAction` fields, with `type` narrowed to the tag's literal. */
  function BaseFields(t: ActionType): seq<Field>
  {
    [Field("type", SLiteral(TagName(t)), false),
     Field("description", SString([]), true),
     Field("skipVtt", SBoolean, true),
     Field("skipChapter", SBoolean, true)]
  }

  function OverlayOptionsSchema(): Schema
  {
    SObject([Field("title", SString([]), true),
             Field("instruction", SString([]), true),
             Field("backdrop", SBoolean, true),
             Field("progress", SBoolean, true)])
  }

  /** The fields each tag adds to the base. */
  function VariantFields(t: ActionType): seq<Field>
  {
    var selector := Field("selector", SString([MinLength(1)]), false);
    match t
    case Goto => [Field("url", SString([IsUrl]), false)]
    case Click => [selector]
    case Fill => [selector, Field("value", SString([]), false)]
    case TypeText => [selector, Field("text", SString([]), false)]
    case Press => [Field("key", SString([MinLength(1)]), false)]
    case Hover => [selector]
    case Screenshot =>
      [Field("path", SString([]), true), Field("filename", SString([]), true), Field("fullPage", SBoolean, true)]
    case WaitForSelector => [selector]
    case WaitForTimeout => [Field("timeout", SNumber([Positive]), false)]
    case WaitForManualAction =>
      [Field("message", SString([]), true),
       Field("continueSelector", SString([]), true),
       Field("continueText", SString([]), true),
       Field("timeout", SNumber([Positive]), true),
       Field("showOverlay", SBoolean, true),
       Field("overlayOptions", OverlayOptionsSchema(), true)]
    case SelectOption => [selector, Field("value", SStringOrStrings, false)]
    case Check => [selector]
    case Uncheck => [selector]
    case Evaluate => [Field("script", SString([MinLength(1)]), false)]
    case ShowMessage =>
      [Field("message", SString([]), false),
       Field("position", SEnum(PositionNames()), true),
       Field("duration", SNumber([NonNegative]), true),
       Field("style", SEnum(StyleNames()), true),
       Field("closeButton", SBoolean, true),
       Field("waitForClose", SBoolean, true)]
  }

  /** The per-tag object schema of the discriminated union. */
  function ActionSchema(t: ActionType): Schema
  {
    SObject(BaseFields(t) + VariantFields(t))
  }

  // ---------------------------------------------------------------------------------------------
  // Reading a checked object into the typed model

  function GetStr(m: map<string, Json>, k: string): string
  {
    if k in m && m[k].JStr? then m[k].s else ""
  }

  function GetOptStr(m: map<string, Json>, k: string): Option<string>
  {
    if k in m && m[k].JStr? then Some(m[k].s) else None
  }

  function GetNum(m: map<string, Json>, k: string): int
  {
    if k in m && m[k].JNum? then m[k].n else 0
  }

  function GetOptNum(m: map<string, Json>, k: string): Option<int>
  {
    if k in m && m[k].JNum? then Some(m[k].n) else None
  }

  function GetBool(m: map<string, Json>, k: string): bool
  {
    k in m && m[k] == JBool(true)
  }

  function GetOptBool(m: map<string, Json>, k: string): Option<bool>
  {
    if k in m && m[k].JBool? then Some(m[k].b) else None
  }

  /** A string, or every string of an array (the union has already ruled out anything else). */
  function SelectValueOf(j: Json): SelectValue
  {
    if j.JArr? then Many(seq(|j.items|, i requires 0 <= i < |j.items| => if j.items[i].JStr? then j.items[i].s else ""))
    else One(if j.JStr? then j.s else "")
  }

  function GetSelectValue(m: map<string, Json>, k: string): SelectValue
  {
    SelectValueOf(if k in m then m[k] else JNull)
  }

  function GetOptPosition(m: map<string, Json>, k: string): Option<Position>
  {
    if k in m && m[k].JStr? then ParsePosition(m[k].s) else None
  }

  function GetOptStyle(m: map<string, Json>, k: string): Option<Style>
  {
    if k in m && m[k].JStr? then ParseStyle(m[k].s) else None
  }

  function OverlayOf(o: map<string, Json>): OverlayOptions
  {
    OverlayOptions(GetOptStr(o, "title"), GetOptStr(o, "instruction"), GetOptBool(o, "backdrop"), GetOptBool(o, "progress"))
  }

  function GetOptOverlay(m: map<string, Json>, k: string): Option<OverlayOptions>
  {
    if k in m && m[k].JObj? then Some(OverlayOf(m[k].fields)) else None
  }

  function GetBase(m: map<string, Json>): Base
  {
    Base(GetOptStr(m, "description"), GetOptBool(m, "skipVtt"), GetOptBool(m, "skipChapter"))
  }

  /** The typed action an object of tag `t` denotes once it has passed the tag's schema. */
  function BuildAction(t: ActionType, m: map<string, Json>): (a: Action)
    ensures a.Tag() == t
  {
    var b := GetBase(m);
    match t
    case Goto => GotoAction(b, GetStr(m, "url"))
    case Click => ClickAction(b, GetStr(m, "selector"))
    case Fill => FillAction(b, GetStr(m, "selector"), GetStr(m, "value"))
    case TypeText => TypeAction(b, GetStr(m, "selector"), GetStr(m, "text"))
    case Press => PressAction(b, GetStr(m, "key"))
    case Hover => HoverAction(b, GetStr(m, "selector"))
    case Screenshot => ScreenshotAction(b, GetOptStr(m, "path"), GetOptStr(m, "filename"), GetOptBool(m, "fullPage"))
    case WaitForSelector => WaitForSelectorAction(b, GetStr(m, "selector"))
    case WaitForTimeout => WaitForTimeoutAction(b, GetNum(m, "timeout"))
    case WaitForManualAction =>
      WaitForManualActionAction(b, GetOptStr(m, "message"), GetOptStr(m, "continueSelector"),
        GetOptStr(m, "continueText"), GetOptNum(m, "timeout"), GetOptBool(m, "showOverlay"),
        GetOptOverlay(m, "overlayOptions"))
    case SelectOption => SelectOptionAction(b, GetStr(m, "selector"), GetSelectValue(m, "value"))
    case Check => CheckAction(b, GetStr(m, "selector"))
    case Uncheck => UncheckAction(b, GetStr(m, "selector"))
    case Evaluate => EvaluateAction(b, GetStr(m, "script"))
    case ShowMessage =>
      ShowMessageAction(b, GetStr(m, "message"), GetOptPosition(m, "position"), GetOptNum(m, "duration"),
        GetOptStyle(m, "style"), GetOptBool(m, "closeButton"), GetOptBool(m, "waitForClose"))
  }

  /** The tag an object's `type` member selects, if any. */
  function Discriminator(m: map<string, Json>): Option<ActionType>
  {
    if "type" in m && m["type"].JStr? then ParseTag(m["type"].s) else None
  }

  /** The discriminated union: a non-object is a type error at the path itself, an unknown or
      missing discriminant one error at `type`, and otherwise every issue of the selected schema. */
  function ParseActionAt(v: Json, path: seq<Segment>): (r: Result<Action, seq<Issue>>)
    ensures r.Err? ==> |r.error| > 0
  {
    if !v.JObj? then Err([Issue(InvalidType, path)])
    else match Discriminator(v.fields)
      case None => Err([Issue(InvalidDiscriminator, path + [Key("type")])])
      case Some(t) =>
        var issues := Issues(v, ActionSchema(t), path);
        if issues == [] then Ok(BuildAction(t, v.fields)) else Err(issues)
  }

  function ParseAction(v: Json): Result<Action, seq<Issue>>
  {
    ParseActionAt(v, [])
  }

  /** What the schemas demand of a typed action beyond its shape. */
  predicate ValidAction(a: Action)
  {
    match a
    case GotoAction(_, url) => ValidUrl(url)
    case ClickAction(_, selector) => |selector| >= 1
    case FillAction(_, selector, _) => |selector| >= 1
    case TypeAction(_, selector, _) => |selector| >= 1
    case PressAction(_, key) => |key| >= 1
    case HoverAction(_, selector) => |selector| >= 1
    case ScreenshotAction(_, _, _, _) => true
    case WaitForSelectorAction(_, selector) => |selector| >= 1
    case WaitForTimeoutAction(_, timeout) => timeout > 0
    case WaitForManualActionAction(_, _, _, _, timeout, _, _) => timeout.Some? ==> timeout.value > 0
    case SelectOptionAction(_, selector, _) => |selector| >= 1
    case CheckAction(_, selector) => |selector| >= 1
    case UncheckAction(_, selector) => |selector| >= 1
    case EvaluateAction(_, script) => |script| >= 1
    case ShowMessageAction(_, _, _, duration, _, _, _) => duration.Some? ==> duration.value >= 0
  }

  // ---------------------------------------------------------------------------------------------
  // Writing a typed action back as a JSON object

  function Put(m: map<string, Json>, k: string, o: Option<Json>): (r: map<string, Json>)
    ensures o.Some? ==> r == m[k := o.value]
    ensures o.None? ==> r == m - {k}
  {
    if o.Some? then m[k := o.value] else m - {k}
  }

  function StrJson(o: Option<string>): Option<Json>
  {
    if o.Some? then Some(JStr(o.value)) else None
  }

  function NumJson(o: Option<int>): Option<Json>
  {
    if o.Some? then Some(JNum(o.value)) else None
  }

  function BoolJson(o: Option<bool>): Option<Json>
  {
    if o.Some? then Some(JBool(o.value)) else None
  }

  function PositionJson(o: Option<Position>): Option<Json>
  {
    if o.Some? then Some(JStr(PositionName(o.value))) else None
  }

  function StyleJson(o: Option<Style>): Option<Json>
  {
    if o.Some? then Some(JStr(StyleName(o.value))) else None
  }

  function BaseJson(t: ActionType, b: Base): map<string, Json>
  {
    Put(Put(Put(map["type" := JStr(TagName(t))], "description", StrJson(b.description)),
      "skipVtt", BoolJson(b.skipVtt)), "skipChapter", BoolJson(b.skipChapter))
  }

  function SelectValueJson(v: SelectValue): Json
  {
    match v
    case One(s) => JStr(s)
    case Many(ss) => JArr(seq(|ss|, i requires 0 <= i < |ss| => JStr(ss[i])))
  }

  function OverlayJson(o: Option<OverlayOptions>): Option<Json>
  {
    if o.None? then None
    else Some(JObj(Put(Put(Put(Put(map[], "title", StrJson(o.value.title)),
      "instruction", StrJson(o.value.instruction)), "backdrop", BoolJson(o.value.backdrop)),
      "progress", BoolJson(o.value.progress))))
  }

  /** The JSON object a workflow file would hold for `a`. */
  function ActionJson(a: Action): Json
  {
    var m := BaseJson(a.Tag(), a.base);
    JObj(match a
      case GotoAction(_, url) => m["url" := JStr(url)]
      case ClickAction(_, selector) => m["selector" := JStr(selector)]
      case FillAction(_, selector, value) => m["selector" := JStr(selector)]["value" := JStr(value)]
      case TypeAction(_, selector, text) => m["selector" := JStr(selector)]["text" := JStr(text)]
      case PressAction(_, key) => m["key" := JStr(key)]
      case HoverAction(_, selector) => m["selector" := JStr(selector)]
      case ScreenshotAction(_, path, filename, fullPage) =>
        Put(Put(Put(m, "path", StrJson(path)), "filename", StrJson(filename)), "fullPage", BoolJson(fullPage))
      case WaitForSelectorAction(_, selector) => m["selector" := JStr(selector)]
      case WaitForTimeoutAction(_, timeout) => m["timeout" := JNum(timeout)]
      case WaitForManualActionAction(_, message, continueSelector, continueText, timeout, showOverlay, overlay) =>
        Put(Put(Put(Put(Put(Put(m, "message", StrJson(message)), "continueSelector", StrJson(continueSelector)),
          "continueText", StrJson(continueText)), "timeout", NumJson(timeout)),
          "showOverlay", BoolJson(showOverlay)), "overlayOptions", OverlayJson(overlay))
      case SelectOptionAction(_, selector, choice) => m["selector" := JStr(selector)]["value" := SelectValueJson(choice)]
      case CheckAction(_, selector) => m["selector" := JStr(selector)]
      case UncheckAction(_, selector) => m["selector" := JStr(selector)]
      case EvaluateAction(_, script) => m["script" := JStr(script)]
      case ShowMessageAction(_, message, position, duration, style, closeButton, waitForClose) =>
        Put(Put(Put(Put(Put(m["message" := JStr(message)],
          "position", PositionJson(position)),
          "duration", NumJson(duration)),
          "style", StyleJson(style)),
          "closeButton", BoolJson(closeButton)), "waitForClose", BoolJson(waitForClose)))
  }

  // ---------------------------------------------------------------------------------------------
  // Round trip: a valid typed action, written as JSON, parses back to itself

  /** `m` holds `o` at `k`, or nothing when `o` is `None`. */
  predicate Agrees(m: map<string, Json>, k: string, o: Option<Json>)
  {
    if o.Some? then k in m && m[k] == o.value else k !in m
  }

  predicate BaseAgrees(t: ActionType, b: Base, m: map<string, Json>)
  {
    && "type" in m && m["type"] == JStr(TagName(t))
    && Agrees(m, "description", StrJson(b.description))
    && Agrees(m, "skipVtt", BoolJson(b.skipVtt))
    && Agrees(m, "skipChapter", BoolJson(b.skipChapter))
  }

  lemma {:induction false} FieldsIssuesAppend(m: map<string, Json>, fs1: seq<Field>, fs2: seq<Field>, parent: Schema, path: seq<Segment>)
    requires forall i :: 0 <= i < |fs1| ==> fs1[i].schema < parent
    requires forall i :: 0 <= i < |fs2| ==> fs2[i].schema < parent
    ensures FieldsIssues(m, fs1 + fs2, parent, path) == FieldsIssues(m, fs1, parent, path) + FieldsIssues(m, fs2, parent, path)
    decreases |fs1|
  {
    if fs1 == [] {
      assert fs1 + fs2 == fs2;
    } else {
      assert (fs1 + fs2)[1..] == fs1[1..] + fs2;
      FieldsIssuesAppend(m, fs1[1..], fs2, parent, path);
    }
  }

  /** The issues of an action object are those of its base fields followed by its own. */
  lemma ActionIssuesSplit(t: ActionType, m: map<string, Json>, path: seq<Segment>)
    ensures forall i :: 0 <= i < |BaseFields(t)| ==> BaseFields(t)[i].schema < ActionSchema(t)
    ensures forall i :: 0 <= i < |VariantFields(t)| ==> VariantFields(t)[i].schema < ActionSchema(t)
    ensures Issues(JObj(m), ActionSchema(t), path)
         == FieldsIssues(m, BaseFields(t), ActionSchema(t), path) + FieldsIssues(m, VariantFields(t), ActionSchema(t), path)
  {
    var fs := BaseFields(t) + VariantFields(t);
    assert forall i :: 0 <= i < |BaseFields(t)| ==> BaseFields(t)[i] == fs[i];
    assert forall i :: 0 <= i < |VariantFields(t)| ==> VariantFields(t)[i] == fs[|BaseFields(t)| + i];
    FieldsIssuesAppend(m, BaseFields(t), VariantFields(t), ActionSchema(t), path);
  }

  lemma BaseRoundTrip(t: ActionType, b: Base, m: map<string, Json>, path: seq<Segment>)
    requires BaseAgrees(t, b, m)
    ensures forall i :: 0 <= i < |BaseFields(t)| ==> BaseFields(t)[i].schema < ActionSchema(t)
    ensures FieldsIssues(m, BaseFields(t), ActionSchema(t), path) == []
    ensures GetBase(m) == b
  {
    ActionIssuesSplit(t, m, path);
    var fs := BaseFields(t);
    var p := ActionSchema(t);
    assert FieldIssues(m, fs[0], p, path) == [];
    assert FieldIssues(m, fs[1], p, path) == [];
    assert FieldIssues(m, fs[2], p, path) == [];
    assert FieldIssues(m, fs[3], p, path) == [];
    assert FieldsIssues(m, fs[3..], p, path) == [];
    assert FieldsIssues(m, fs[2..], p, path) == [] by { assert fs[2..][1..] == fs[3..]; }
    assert FieldsIssues(m, fs[1..], p, path) == [] by { assert fs[1..][1..] == fs[2..]; }
  }

  lemma PutAgrees(m: map<string, Json>, k: string, o: Option<Json>, k2: string, o2: Option<Json>)
    ensures Agrees(Put(m, k, o), k, o)
    ensures k2 != k ==> (Agrees(Put(m, k, o), k2, o2) <==> Agrees(m, k2, o2))
  {
  }

  lemma BaseAgreesInit(t: ActionType, b: Base)
    ensures BaseAgrees(t, b, BaseJson(t, b))
  {
    var m0 := map["type" := JStr(TagName(t))];
    var m1 := Put(m0, "description", StrJson(b.description));
    var m2 := Put(m1, "skipVtt", BoolJson(b.skipVtt));
    PutAgrees(m0, "description", StrJson(b.description), "skipVtt", None);
    PutAgrees(m1, "skipVtt", BoolJson(b.skipVtt), "description", StrJson(b.description));
    PutAgrees(m2, "skipChapter", BoolJson(b.skipChapter), "description", StrJson(b.description));
    PutAgrees(m2, "skipChapter", BoolJson(b.skipChapter), "skipVtt", BoolJson(b.skipVtt));
    PutAgrees(m1, "skipVtt", BoolJson(b.skipVtt), "skipChapter", None);
    PutAgrees(m0, "description", StrJson(b.description), "skipChapter", None);
  }

  lemma BaseAgreesPut(t: ActionType, b: Base, m: map<string, Json>, k: string, o: Option<Json>)
    requires BaseAgrees(t, b, m)
    requires k != "type" && k != "description" && k != "skipVtt" && k != "skipChapter"
    ensures BaseAgrees(t, b, Put(m, k, o))
  {
    PutAgrees(m, k, o, "description", StrJson(b.description));
    PutAgrees(m, k, o, "skipVtt", BoolJson(b.skipVtt));
    PutAgrees(m, k, o, "skipChapter", BoolJson(b.skipChapter));
  }

  /** An optional member read back is the value written. */
  lemma GetAgrees(m: map<string, Json>, k: string, s: Option<string>, n: Option<int>, b: Option<bool>)
    ensures Agrees(m, k, StrJson(s)) ==> GetOptStr(m, k) == s
    ensures Agrees(m, k, NumJson(n)) ==> GetOptNum(m, k) == n
    ensures Agrees(m, k, BoolJson(b)) ==> GetOptBool(m, k) == b
  {
  }

  lemma StrFieldOk(m: map<string, Json>, f: Field, parent: Schema, path: seq<Segment>, s: string)
    requires f.schema < parent && f.schema.SString? && f.key in m && m[f.key] == JStr(s)
    requires forall i :: 0 <= i < |f.schema.checks| ==> StringCheckHolds(s, f.schema.checks[i])
    ensures FieldIssues(m, f, parent, path) == []
  {
    StringCheckIssuesEmpty(s, f.schema.checks, path + [Key(f.key)]);
  }

  lemma NumFieldOk(m: map<string, Json>, f: Field, parent: Schema, path: seq<Segment>, n: int)
    requires f.schema < parent && f.schema.SNumber? && f.key in m && m[f.key] == JNum(n)
    requires forall i :: 0 <= i < |f.schema.checks| ==> NumberCheckHolds(n, f.schema.checks[i])
    ensures FieldIssues(m, f, parent, path) == []
  {
    NumberCheckIssuesEmpty(n, f.schema.checks, path + [Key(f.key)]);
  }

  lemma OptFieldOk(m: map<string, Json>, f: Field, parent: Schema, path: seq<Segment>, o: Option<Json>)
    requires f.schema < parent && (f.optional || o.Some?) && Agrees(m, f.key, o)
    requires o.Some? ==> Issues(o.value, f.schema, path + [Key(f.key)]) == []
    ensures FieldIssues(m, f, parent, path) == []
  {
  }

  lemma PositionNameRoundTrip(p: Position)
    ensures PositionName(p) in PositionNames()
    ensures ParsePosition(PositionName(p)) == Some(p)
  {
  }

  lemma StyleNameRoundTrip(st: Style)
    ensures StyleName(st) in StyleNames()
    ensures ParseStyle(StyleName(st)) == Some(st)
  {
  }

  /** A present optional string, number or boolean passes an unrefined schema of its type. */
  lemma OptScalarsOk(o: Option<string>, n: Option<int>, b: Option<bool>, path: seq<Segment>)
    ensures StrJson(o).Some? ==> Issues(StrJson(o).value, SString([]), path) == []
    ensures BoolJson(b).Some? ==> Issues(BoolJson(b).value, SBoolean, path) == []
    ensures NumJson(n).Some? ==> Issues(NumJson(n).value, SNumber([]), path) == []
  {
  }

  /** The action object's issues are empty and it builds to `a`, given its parts do. */
  lemma ParseFromParts(a: Action, m: map<string, Json>, path: seq<Segment>)
    requires BaseAgrees(a.Tag(), a.base, m)
    requires forall i :: 0 <= i < |VariantFields(a.Tag())| ==> VariantFields(a.Tag())[i].schema < ActionSchema(a.Tag())
    requires FieldsIssues(m, VariantFields(a.Tag()), ActionSchema(a.Tag()), path) == []
    requires BuildAction(a.Tag(), m) == a
    ensures ParseActionAt(JObj(m), path) == Ok(a)
  {
    var t := a.Tag();
    BaseRoundTrip(t, a.base, m, path);
    ActionIssuesSplit(t, m, path);
    TagNameRoundTrip(t, TagName(t));
  }

  lemma OverlayRoundTrip(o: OverlayOptions, path: seq<Segment>)
    ensures OverlayJson(Some(o)).Some? && OverlayJson(Some(o)).value.JObj?
    ensures Issues(OverlayJson(Some(o)).value, OverlayOptionsSchema(), path) == []
    ensures OverlayOf(OverlayJson(Some(o)).value.fields) == o
  {
    var m1 := Put(map[], "title", StrJson(o.title));
    var m2 := Put(m1, "instruction", StrJson(o.instruction));
    var m3 := Put(m2, "backdrop", BoolJson(o.backdrop));
    var m := Put(m3, "progress", BoolJson(o.progress));
    assert OverlayJson(Some(o)).value.fields == m;
    PutAgrees(map[], "title", StrJson(o.title), "title", None);
    PutAgrees(m1, "instruction", StrJson(o.instruction), "title", StrJson(o.title));
    PutAgrees(m2, "backdrop", BoolJson(o.backdrop), "title", StrJson(o.title));
    PutAgrees(m2, "backdrop", BoolJson(o.backdrop), "instruction", StrJson(o.instruction));
    PutAgrees(m3, "progress", BoolJson(o.progress), "title", StrJson(o.title));
    PutAgrees(m3, "progress", BoolJson(o.progress), "instruction", StrJson(o.instruction));
    PutAgrees(m3, "progress", BoolJson(o.progress), "backdrop", BoolJson(o.backdrop));
    var s := OverlayOptionsSchema();
    var fs := s.fields;
    OptScalarsOk(o.title, None, o.backdrop, path + [Key("title")]);
    OptScalarsOk(o.instruction, None, o.backdrop, path + [Key("instruction")]);
    OptScalarsOk(None, None, o.backdrop, path + [Key("backdrop")]);
    OptScalarsOk(None, None, o.progress, path + [Key("progress")]);
    OptFieldOk(m, fs[0], s, path, StrJson(o.title));
    OptFieldOk(m, fs[1], s, path, StrJson(o.instruction));
    OptFieldOk(m, fs[2], s, path, BoolJson(o.backdrop));
    OptFieldOk(m, fs[3], s, path, BoolJson(o.progress));
    FieldsIssuesEmpty(m, fs, s, path);
    GetAgrees(m, "title", o.title, None, None);
    GetAgrees(m, "instruction", o.instruction, None, None);
    GetAgrees(m, "backdrop", None, None, o.backdrop);
    GetAgrees(m, "progress", None, None, o.progress);
  }

  lemma OverlayFieldOk(m: map<string, Json>, f: Field, parent: Schema, path: seq<Segment>, o: Option<OverlayOptions>)
    requires f.schema == OverlayOptionsSchema() && f.optional && f.schema < parent
    requires Agrees(m, f.key, OverlayJson(o))
    ensures FieldIssues(m, f, parent, path) == []
    ensures GetOptOverlay(m, f.key) == o
  {
    if o.Some? {
      OverlayRoundTrip(o.value, path + [Key(f.key)]);
    }
  }

  lemma SelectValueRoundTrip(v: SelectValue, path: seq<Segment>)
    ensures Issues(SelectValueJson(v), SStringOrStrings, path) == []
    ensures SelectValueOf(SelectValueJson(v)) == v
  {
    if v.Many? {
      var items := SelectValueJson(v).items;
      assert seq(|items|, i requires 0 <= i < |items| => if items[i].JStr? then items[i].s else "") == v.options;
    }
  }

  /** Every valid action survives being written as JSON and parsed again, at any path. */
  lemma ActionRoundTrip(a: Action, path: seq<Segment>)
    requires ValidAction(a)
    ensures ParseActionAt(ActionJson(a), path) == Ok(a)
  {
    if a.Tag() in {Goto, Click, Fill, TypeText, Press, Hover, Screenshot} {
      EarlyActionRoundTrip(a, path);
    } else {
      LateActionRoundTrip(a, path);
    }
  }

  lemma EarlyActionRoundTrip(a: Action, path: seq<Segment>)
    requires ValidAction(a) && a.Tag() in {Goto, Click, Fill, TypeText, Press, Hover, Screenshot}
    ensures ParseActionAt(ActionJson(a), path) == Ok(a)
  {
    match a
    case GotoAction(_, _) =>
      GotoJsonAgrees(a);
      GotoParts(a, ActionJson(a).fields, path);
    case ClickAction(_, _) =>
      ClickJsonAgrees(a);
      ClickParts(a, ActionJson(a).fields, path);
    case FillAction(_, _, _) =>
      FillJsonAgrees(a);
      FillParts(a, ActionJson(a).fields, path);
    case TypeAction(_, _, _) =>
      TypeJsonAgrees(a);
      TypeParts(a, ActionJson(a).fields, path);
    case PressAction(_, _) =>
      PressJsonAgrees(a);
      PressParts(a, ActionJson(a).fields, path);
    case HoverAction(_, _) =>
      HoverJsonAgrees(a);
      HoverParts(a, ActionJson(a).fields, path);
    case ScreenshotAction(_, _, _, _) =>
      ScreenshotJsonAgrees(a);
      ScreenshotParts(a, ActionJson(a).fields, path);
  }

  lemma LateActionRoundTrip(a: Action, path: seq<Segment>)
    requires ValidAction(a) && a.Tag() !in {Goto, Click, Fill, TypeText, Press, Hover, Screenshot}
    ensures ParseActionAt(ActionJson(a), path) == Ok(a)
  {
    match a
    case WaitForSelectorAction(_, _) =>
      WaitForSelectorJsonAgrees(a);
      WaitForSelectorParts(a, ActionJson(a).fields, path);
    case WaitForTimeoutAction(_, _) =>
      WaitForTimeoutJsonAgrees(a);
      WaitForTimeoutParts(a, ActionJson(a).fields, path);
    case WaitForManualActionAction(_, _, _, _, _, _, _) =>
      WaitForManualActionJsonAgrees(a);
      WaitForManualActionParts(a, ActionJson(a).fields, path);
    case SelectOptionAction(_, _, _) =>
      SelectOptionJsonAgrees(a);
      SelectOptionParts(a, ActionJson(a).fields, path);
    case CheckAction(_, _) =>
      CheckJsonAgrees(a);
      CheckParts(a, ActionJson(a).fields, path);
    case UncheckAction(_, _) =>
      UncheckJsonAgrees(a);
      UncheckParts(a, ActionJson(a).fields, path);
    case EvaluateAction(_, _) =>
      EvaluateJsonAgrees(a);
      EvaluateParts(a, ActionJson(a).fields, path);
    case ShowMessageAction(_, _, _, _, _, _, _) =>
      ShowMessageJsonAgrees(a);
      ShowMessageParts(a, ActionJson(a).fields, path);
  }

  lemma GotoJsonAgrees(a: Action)
    requires a.GotoAction?
    ensures BaseAgrees(a.Tag(), a.base, ActionJson(a).fields)
    ensures Agrees(ActionJson(a).fields, "url", Some(JStr(a.url)))
  {
    var t := a.Tag();
    var m0 := BaseJson(t, a.base);
    BaseAgreesInit(t, a.base);
    var m1 := Put(m0, "url", Some(JStr(a.url)));
    assert ActionJson(a).fields == m1;
    BaseAgreesPut(t, a.base, m0, "url", Some(JStr(a.url)));
    PutAgrees(m0, "url", Some(JStr(a.url)), "url", None);
  }

  /** Any object holding `a`'s members parses to `a`, whatever other keys it carries. */
  lemma GotoParts(a: Action, m: map<string, Json>, path: seq<Segment>)
    requires a.GotoAction? && ValidAction(a)
    requires BaseAgrees(a.Tag(), a.base, m)
    requires Agrees(m, "url", Some(JStr(a.url)))
    ensures ParseActionAt(JObj(m), path) == Ok(a)
  {
    var t := a.Tag();
    var fs := VariantFields(t);
    var p := ActionSchema(t);
    ActionIssuesSplit(t, m, path);
    StrFieldOk(m, fs[0], p, path, a.url);
    ParseFromParts(a, m, path);
  }

  lemma ClickJsonAgrees(a: Action)
    requires a.ClickAction?
    ensures BaseAgrees(a.Tag(), a.base, ActionJson(a).fields)
    ensures Agrees(ActionJson(a).fields, "selector", Some(JStr(a.selector)))
  {
    var t := a.Tag();
    var m0 := BaseJson(t, a.base);
    BaseAgreesInit(t, a.base);
    var m1 := Put(m0, "selector", Some(JStr(a.selector)));
    assert ActionJson(a).fields == m1;
    BaseAgreesPut(t, a.base, m0, "selector", Some(JStr(a.selector)));
    PutAgrees(m0, "selector", Some(JStr(a.selector)), "selector", None);
  }

  /** Any object holding `a`'s members parses to `a`, whatever other keys it carries. */
  lemma ClickParts(a: Action, m: map<string, Json>, path: seq<Segment>)
    requires a.ClickAction? && ValidAction(a)
    requires BaseAgrees(a.Tag(), a.base, m)
    requires Agrees(m, "selector", Some(JStr(a.selector)))
    ensures ParseActionAt(JObj(m), path) == Ok(a)
  {
    var t := a.Tag();
    var fs := VariantFields(t);
    var p := ActionSchema(t);
    ActionIssuesSplit(t, m, path);
    StrFieldOk(m, fs[0], p, path, a.selector);
    ParseFromParts(a, m, path);
  }

  lemma FillJsonAgrees(a: Action)
    requires a.FillAction?
    ensures BaseAgrees(a.Tag(), a.base, ActionJson(a).fields)
    ensures Agrees(ActionJson(a).fields, "selector", Some(JStr(a.selector)))
    ensures Agrees(ActionJson(a).fields, "value", Some(JStr(a.value)))
  {
    var t := a.Tag();
    var m0 := BaseJson(t, a.base);
    BaseAgreesInit(t, a.base);
    var m1 := Put(m0, "selector", Some(JStr(a.selector)));
    var m2 := Put(m1, "value", Some(JStr(a.value)));
    assert ActionJson(a).fields == m2;
    BaseAgreesPut(t, a.base, m0, "selector", Some(JStr(a.selector)));
    BaseAgreesPut(t, a.base, m1, "value", Some(JStr(a.value)));
    PutAgrees(m0, "selector", Some(JStr(a.selector)), "selector", None);
    PutAgrees(m1, "value", Some(JStr(a.value)), "value", None);
    PutAgrees(m1, "value", Some(JStr(a.value)), "selector", Some(JStr(a.selector)));
  }

  /** Any object holding `a`'s members parses to `a`, whatever other keys it carries. */
  lemma FillParts(a: Action, m: map<string, Json>, path: seq<Segment>)
    requires a.FillAction? && ValidAction(a)
    requires BaseAgrees(a.Tag(), a.base, m)
    requires Agrees(m, "selector", Some(JStr(a.selector)))
    requires Agrees(m, "value", Some(JStr(a.value)))
    ensures ParseActionAt(JObj(m), path) == Ok(a)
  {
    var t := a.Tag();
    var fs := VariantFields(t);
    var p := ActionSchema(t);
    ActionIssuesSplit(t, m, path);
    StrFieldOk(m, fs[0], p, path, a.selector);
    StrFieldOk(m, fs[1], p, path, a.value);
    FieldsIssuesEmpty(m, fs, p, path);
    ParseFromParts(a, m, path);
  }

  lemma TypeJsonAgrees(a: Action)
    requires a.TypeAction?
    ensures BaseAgrees(a.Tag(), a.base, ActionJson(a).fields)
    ensures Agrees(ActionJson(a).fields, "selector", Some(JStr(a.selector)))
    ensures Agrees(ActionJson(a).fields, "text", Some(JStr(a.text)))
  {
    var t := a.Tag();
    var m0 := BaseJson(t, a.base);
    BaseAgreesInit(t, a.base);
    var m1 := Put(m0, "selector", Some(JStr(a.selector)));
    var m2 := Put(m1, "text", Some(JStr(a.text)));
    assert ActionJson(a).fields == m2;
    BaseAgreesPut(t, a.base, m0, "selector", Some(JStr(a.selector)));
    BaseAgreesPut(t, a.base, m1, "text", Some(JStr(a.text)));
    PutAgrees(m0, "selector", Some(JStr(a.selector)), "selector", None);
    PutAgrees(m1, "text", Some(JStr(a.text)), "text", None);
    PutAgrees(m1, "text", Some(JStr(a.text)), "selector", Some(JStr(a.selector)));
  }

  /** Any object holding `a`'s members parses to `a`, whatever other keys it carries. */
  lemma TypeParts(a: Action, m: map<string, Json>, path: seq<Segment>)
    requires a.TypeAction? && ValidAction(a)
    requires BaseAgrees(a.Tag(), a.base, m)
    requires Agrees(m, "selector", Some(JStr(a.selector)))
    requires Agrees(m, "text", Some(JStr(a.text)))
    ensures ParseActionAt(JObj(m), path) == Ok(a)
  {
    var t := a.Tag();
    var fs := VariantFields(t);
    var p := ActionSchema(t);
    ActionIssuesSplit(t, m, path);
    StrFieldOk(m, fs[0], p, path, a.selector);
    StrFieldOk(m, fs[1], p, path, a.text);
    FieldsIssuesEmpty(m, fs, p, path);
    ParseFromParts(a, m, path);
  }

  lemma PressJsonAgrees(a: Action)
    requires a.PressAction?
    ensures BaseAgrees(a.Tag(), a.base, ActionJson(a).fields)
    ensures Agrees(ActionJson(a).fields, "key", Some(JStr(a.key)))
  {
    var t := a.Tag();
    var m0 := BaseJson(t, a.base);
    BaseAgreesInit(t, a.base);
    var m1 := Put(m0, "key", Some(JStr(a.key)));
    assert ActionJson(a).fields == m1;
    BaseAgreesPut(t, a.base, m0, "key", Some(JStr(a.key)));
    PutAgrees(m0, "key", Some(JStr(a.key)), "key", None);
  }

  /** Any object holding `a`'s members parses to `a`, whatever other keys it carries. */
  lemma PressParts(a: Action, m: map<string, Json>, path: seq<Segment>)
    requires a.PressAction? && ValidAction(a)
    requires BaseAgrees(a.Tag(), a.base, m)
    requires Agrees(m, "key", Some(JStr(a.key)))
    ensures ParseActionAt(JObj(m), path) == Ok(a)
  {
    var t := a.Tag();
    var fs := VariantFields(t);
    var p := ActionSchema(t);
    ActionIssuesSplit(t, m, path);
    StrFieldOk(m, fs[0], p, path, a.key);
    ParseFromParts(a, m, path);
  }

  lemma HoverJsonAgrees(a: Action)
    requires a.HoverAction?
    ensures BaseAgrees(a.Tag(), a.base, ActionJson(a).fields)
    ensures Agrees(ActionJson(a).fields, "selector", Some(JStr(a.selector)))
  {
    var t := a.Tag();
    var m0 := BaseJson(t, a.base);
    BaseAgreesInit(t, a.base);
    var m1 := Put(m0, "selector", Some(JStr(a.selector)));
    assert ActionJson(a).fields == m1;
    BaseAgreesPut(t, a.base, m0, "selector", Some(JStr(a.selector)));
    PutAgrees(m0, "selector", Some(JStr(a.selector)), "selector", None);
  }

  /** Any object holding `a`'s members parses to `a`, whatever other keys it carries. */
  lemma HoverParts(a: Action, m: map<string, Json>, path: seq<Segment>)
    requires a.HoverAction? && ValidAction(a)
    requires BaseAgrees(a.Tag(), a.base, m)
    requires Agrees(m, "selector", Some(JStr(a.selector)))
    ensures ParseActionAt(JObj(m), path) == Ok(a)
  {
    var t := a.Tag();
    var fs := VariantFields(t);
    var p := ActionSchema(t);
    ActionIssuesSplit(t, m, path);
    StrFieldOk(m, fs[0], p, path, a.selector);
    ParseFromParts(a, m, path);
  }

  lemma ScreenshotJsonAgrees(a: Action)
    requires a.ScreenshotAction?
    ensures BaseAgrees(a.Tag(), a.base, ActionJson(a).fields)
    ensures Agrees(ActionJson(a).fields, "path", StrJson(a.path))
    ensures Agrees(ActionJson(a).fields, "filename", StrJson(a.filename))
    ensures Agrees(ActionJson(a).fields, "fullPage", BoolJson(a.fullPage))
  {
    var t := a.Tag();
    var m0 := BaseJson(t, a.base);
    BaseAgreesInit(t, a.base);
    var m1 := Put(m0, "path", StrJson(a.path));
    var m2 := Put(m1, "filename", StrJson(a.filename));
    var m3 := Put(m2, "fullPage", BoolJson(a.fullPage));
    assert ActionJson(a).fields == m3;
    BaseAgreesPut(t, a.base, m0, "path", StrJson(a.path));
    BaseAgreesPut(t, a.base, m1, "filename", StrJson(a.filename));
    BaseAgreesPut(t, a.base, m2, "fullPage", BoolJson(a.fullPage));
    PutAgrees(m0, "path", StrJson(a.path), "path", None);
    PutAgrees(m1, "filename", StrJson(a.filename), "filename", None);
    PutAgrees(m1, "filename", StrJson(a.filename), "path", StrJson(a.path));
    PutAgrees(m2, "fullPage", BoolJson(a.fullPage), "fullPage", None);
    PutAgrees(m2, "fullPage", BoolJson(a.fullPage), "path", StrJson(a.path));
    PutAgrees(m2, "fullPage", BoolJson(a.fullPage), "filename", StrJson(a.filename));
  }

  /** Any object holding `a`'s members parses to `a`, whatever other keys it carries. */
  lemma ScreenshotParts(a: Action, m: map<string, Json>, path: seq<Segment>)
    requires a.ScreenshotAction? && ValidAction(a)
    requires BaseAgrees(a.Tag(), a.base, m)
    requires Agrees(m, "path", StrJson(a.path))
    requires Agrees(m, "filename", StrJson(a.filename))
    requires Agrees(m, "fullPage", BoolJson(a.fullPage))
    ensures ParseActionAt(JObj(m), path) == Ok(a)
  {
    var t := a.Tag();
    var fs := VariantFields(t);
    var p := ActionSchema(t);
    ActionIssuesSplit(t, m, path);
    OptScalarsOk(a.path, None, None, path + [Key("path")]);
    GetAgrees(m, "path", a.path, None, None);
    OptFieldOk(m, fs[0], p, path, StrJson(a.path));
    OptScalarsOk(a.filename, None, None, path + [Key("filename")]);
    GetAgrees(m, "filename", a.filename, None, None);
    OptFieldOk(m, fs[1], p, path, StrJson(a.filename));
    OptScalarsOk(None, None, a.fullPage, path + [Key("fullPage")]);
    GetAgrees(m, "fullPage", None, None, a.fullPage);
    OptFieldOk(m, fs[2], p, path, BoolJson(a.fullPage));
    FieldsIssuesEmpty(m, fs, p, path);
    ParseFromParts(a, m, path);
  }

  lemma WaitForSelectorJsonAgrees(a: Action)
    requires a.WaitForSelectorAction?
    ensures BaseAgrees(a.Tag(), a.base, ActionJson(a).fields)
    ensures Agrees(ActionJson(a).fields, "selector", Some(JStr(a.selector)))
  {
    var t := a.Tag();
    var m0 := BaseJson(t, a.base);
    BaseAgreesInit(t, a.base);
    var m1 := Put(m0, "selector", Some(JStr(a.selector)));
    assert ActionJson(a).fields == m1;
    BaseAgreesPut(t, a.base, m0, "selector", Some(JStr(a.selector)));
    PutAgrees(m0, "selector", Some(JStr(a.selector)), "selector", None);
  }

  /** Any object holding `a`'s members parses to `a`, whatever other keys it carries. */
  lemma WaitForSelectorParts(a: Action, m: map<string, Json>, path: seq<Segment>)
    requires a.WaitForSelectorAction? && ValidAction(a)
    requires BaseAgrees(a.Tag(), a.base, m)
    requires Agrees(m, "selector", Some(JStr(a.selector)))
    ensures ParseActionAt(JObj(m), path) == Ok(a)
  {
    var t := a.Tag();
    var fs := VariantFields(t);
    var p := ActionSchema(t);
    ActionIssuesSplit(t, m, path);
    StrFieldOk(m, fs[0], p, path, a.selector);
    ParseFromParts(a, m, path);
  }

  lemma WaitForTimeoutJsonAgrees(a: Action)
    requires a.WaitForTimeoutAction?
    ensures BaseAgrees(a.Tag(), a.base, ActionJson(a).fields)
    ensures Agrees(ActionJson(a).fields, "timeout", Some(JNum(a.timeout)))
  {
    var t := a.Tag();
    var m0 := BaseJson(t, a.base);
    BaseAgreesInit(t, a.base);
    var m1 := Put(m0, "timeout", Some(JNum(a.timeout)));
    assert ActionJson(a).fields == m1;
    BaseAgreesPut(t, a.base, m0, "timeout", Some(JNum(a.timeout)));
    PutAgrees(m0, "timeout", Some(JNum(a.timeout)), "timeout", None);
  }

  /** Any object holding `a`'s members parses to `a`, whatever other keys it carries. */
  lemma WaitForTimeoutParts(a: Action, m: map<string, Json>, path: seq<Segment>)
    requires a.WaitForTimeoutAction? && ValidAction(a)
    requires BaseAgrees(a.Tag(), a.base, m)
    requires Agrees(m, "timeout", Some(JNum(a.timeout)))
    ensures ParseActionAt(JObj(m), path) == Ok(a)
  {
    var t := a.Tag();
    var fs := VariantFields(t);
    var p := ActionSchema(t);
    ActionIssuesSplit(t, m, path);
    NumFieldOk(m, fs[0], p, path, a.timeout);
    ParseFromParts(a, m, path);
  }

  lemma WaitForManualActionJsonAgrees(a: Action)
    requires a.WaitForManualActionAction?
    ensures BaseAgrees(a.Tag(), a.base, ActionJson(a).fields)
    ensures Agrees(ActionJson(a).fields, "message", StrJson(a.gateMessage))
    ensures Agrees(ActionJson(a).fields, "continueSelector", StrJson(a.continueSelector))
    ensures Agrees(ActionJson(a).fields, "continueText", StrJson(a.continueText))
    ensures Agrees(ActionJson(a).fields, "timeout", NumJson(a.gateTimeout))
    ensures Agrees(ActionJson(a).fields, "showOverlay", BoolJson(a.showOverlay))
    ensures Agrees(ActionJson(a).fields, "overlayOptions", OverlayJson(a.overlayOptions))
  {
    var t := a.Tag();
    var m0 := BaseJson(t, a.base);
    BaseAgreesInit(t, a.base);
    var m1 := Put(m0, "message", StrJson(a.gateMessage));
    var m2 := Put(m1, "continueSelector", StrJson(a.continueSelector));
    var m3 := Put(m2, "continueText", StrJson(a.continueText));
    var m4 := Put(m3, "timeout", NumJson(a.gateTimeout));
    var m5 := Put(m4, "showOverlay", BoolJson(a.showOverlay));
    var m6 := Put(m5, "overlayOptions", OverlayJson(a.overlayOptions));
    assert ActionJson(a).fields == m6;
    BaseAgreesPut(t, a.base, m0, "message", StrJson(a.gateMessage));
    BaseAgreesPut(t, a.base, m1, "continueSelector", StrJson(a.continueSelector));
    BaseAgreesPut(t, a.base, m2, "continueText", StrJson(a.continueText));
    BaseAgreesPut(t, a.base, m3, "timeout", NumJson(a.gateTimeout));
    BaseAgreesPut(t, a.base, m4, "showOverlay", BoolJson(a.showOverlay));
    BaseAgreesPut(t, a.base, m5, "overlayOptions", OverlayJson(a.overlayOptions));
    PutAgrees(m0, "message", StrJson(a.gateMessage), "message", None);
    PutAgrees(m1, "continueSelector", StrJson(a.continueSelector), "continueSelector", None);
    PutAgrees(m1, "continueSelector", StrJson(a.continueSelector), "message", StrJson(a.gateMessage));
    PutAgrees(m2, "continueText", StrJson(a.continueText), "continueText", None);
    PutAgrees(m2, "continueText", StrJson(a.continueText), "message", StrJson(a.gateMessage));
    PutAgrees(m2, "continueText", StrJson(a.continueText), "continueSelector", StrJson(a.continueSelector));
    PutAgrees(m3, "timeout", NumJson(a.gateTimeout), "timeout", None);
    PutAgrees(m3, "timeout", NumJson(a.gateTimeout), "message", StrJson(a.gateMessage));
    PutAgrees(m3, "timeout", NumJson(a.gateTimeout), "continueSelector", StrJson(a.continueSelector));
    PutAgrees(m3, "timeout", NumJson(a.gateTimeout), "continueText", StrJson(a.continueText));
    PutAgrees(m4, "showOverlay", BoolJson(a.showOverlay), "showOverlay", None);
    PutAgrees(m4, "showOverlay", BoolJson(a.showOverlay), "message", StrJson(a.gateMessage));
    PutAgrees(m4, "showOverlay", BoolJson(a.showOverlay), "continueSelector", StrJson(a.continueSelector));
    PutAgrees(m4, "showOverlay", BoolJson(a.showOverlay), "continueText", StrJson(a.continueText));
    PutAgrees(m4, "showOverlay", BoolJson(a.showOverlay), "timeout", NumJson(a.gateTimeout));
    PutAgrees(m5, "overlayOptions", OverlayJson(a.overlayOptions), "overlayOptions", None);
    PutAgrees(m5, "overlayOptions", OverlayJson(a.overlayOptions), "message", StrJson(a.gateMessage));
    PutAgrees(m5, "overlayOptions", OverlayJson(a.overlayOptions), "continueSelector", StrJson(a.continueSelector));
    PutAgrees(m5, "overlayOptions", OverlayJson(a.overlayOptions), "continueText", StrJson(a.continueText));
    PutAgrees(m5, "overlayOptions", OverlayJson(a.overlayOptions), "timeout", NumJson(a.gateTimeout));
    PutAgrees(m5, "overlayOptions", OverlayJson(a.overlayOptions), "showOverlay", BoolJson(a.showOverlay));
  }

  /** Any object holding `a`'s members parses to `a`, whatever other keys it carries. */
  lemma WaitForManualActionParts(a: Action, m: map<string, Json>, path: seq<Segment>)
    requires a.WaitForManualActionAction? && ValidAction(a)
    requires BaseAgrees(a.Tag(), a.base, m)
    requires Agrees(m, "message", StrJson(a.gateMessage))
    requires Agrees(m, "continueSelector", StrJson(a.continueSelector))
    requires Agrees(m, "continueText", StrJson(a.continueText))
    requires Agrees(m, "timeout", NumJson(a.gateTimeout))
    requires Agrees(m, "showOverlay", BoolJson(a.showOverlay))
    requires Agrees(m, "overlayOptions", OverlayJson(a.overlayOptions))
    ensures ParseActionAt(JObj(m), path) == Ok(a)
  {
    ActionIssuesSplit(a.Tag(), m, path);
    WaitForManualActionFieldsOk(a, m, path);
    WaitForManualActionBuildsFrom(a, m);
    ParseFromFields(a, m, path);
  }

  lemma WaitForManualActionFieldsOk(a: Action, m: map<string, Json>, path: seq<Segment>)
    requires a.WaitForManualActionAction? && ValidAction(a) && VariantFieldsNested(WaitForManualAction)
    requires Agrees(m, "message", StrJson(a.gateMessage))
    requires Agrees(m, "continueSelector", StrJson(a.continueSelector))
    requires Agrees(m, "continueText", StrJson(a.continueText))
    requires Agrees(m, "timeout", NumJson(a.gateTimeout))
    requires Agrees(m, "showOverlay", BoolJson(a.showOverlay))
    requires Agrees(m, "overlayOptions", OverlayJson(a.overlayOptions))
    ensures forall i :: 0 <= i < |VariantFields(WaitForManualAction)| ==>
      FieldIssues(m, VariantFields(WaitForManualAction)[i], ActionSchema(WaitForManualAction), path) == []
  {
    var fs := VariantFields(WaitForManualAction);
    var p := ActionSchema(WaitForManualAction);
    OptScalarsOk(a.gateMessage, None, None, path + [Key("message")]);
    OptFieldOk(m, fs[0], p, path, StrJson(a.gateMessage));
    OptScalarsOk(a.continueSelector, None, None, path + [Key("continueSelector")]);
    OptFieldOk(m, fs[1], p, path, StrJson(a.continueSelector));
    OptScalarsOk(a.continueText, None, None, path + [Key("continueText")]);
    OptFieldOk(m, fs[2], p, path, StrJson(a.continueText));
    if a.gateTimeout.Some? {
      NumberCheckIssuesEmpty(a.gateTimeout.value, [Positive], path + [Key("timeout")]);
    }
    OptFieldOk(m, fs[3], p, path, NumJson(a.gateTimeout));
    OptScalarsOk(None, None, a.showOverlay, path + [Key("showOverlay")]);
    OptFieldOk(m, fs[4], p, path, BoolJson(a.showOverlay));
    OverlayFieldOk(m, fs[5], p, path, a.overlayOptions);
  }

  lemma WaitForManualActionBuildsFrom(a: Action, m: map<string, Json>)
    requires a.WaitForManualActionAction? && BaseAgrees(a.Tag(), a.base, m)
    requires Agrees(m, "message", StrJson(a.gateMessage))
    requires Agrees(m, "continueSelector", StrJson(a.continueSelector))
    requires Agrees(m, "continueText", StrJson(a.continueText))
    requires Agrees(m, "timeout", NumJson(a.gateTimeout))
    requires Agrees(m, "showOverlay", BoolJson(a.showOverlay))
    requires Agrees(m, "overlayOptions", OverlayJson(a.overlayOptions))
    ensures BuildAction(WaitForManualAction, m) == a
  {
    ActionIssuesSplit(WaitForManualAction, m, []);
    BaseRoundTrip(a.Tag(), a.base, m, []);
    GetAgrees(m, "message", a.gateMessage, None, None);
    GetAgrees(m, "continueSelector", a.continueSelector, None, None);
    GetAgrees(m, "continueText", a.continueText, None, None);
    GetAgrees(m, "timeout", None, a.gateTimeout, None);
    GetAgrees(m, "showOverlay", None, None, a.showOverlay);
    OverlayFieldOk(m, VariantFields(WaitForManualAction)[5], ActionSchema(WaitForManualAction), [], a.overlayOptions);
  }

  lemma SelectOptionJsonAgrees(a: Action)
    requires a.SelectOptionAction?
    ensures BaseAgrees(a.Tag(), a.base, ActionJson(a).fields)
    ensures Agrees(ActionJson(a).fields, "selector", Some(JStr(a.selector)))
    ensures Agrees(ActionJson(a).fields, "value", Some(SelectValueJson(a.choice)))
  {
    var t := a.Tag();
    var m0 := BaseJson(t, a.base);
    BaseAgreesInit(t, a.base);
    var m1 := Put(m0, "selector", Some(JStr(a.selector)));
    var m2 := Put(m1, "value", Some(SelectValueJson(a.choice)));
    assert ActionJson(a).fields == m2;
    BaseAgreesPut(t, a.base, m0, "selector", Some(JStr(a.selector)));
    BaseAgreesPut(t, a.base, m1, "value", Some(SelectValueJson(a.choice)));
    PutAgrees(m0, "selector", Some(JStr(a.selector)), "selector", None);
    PutAgrees(m1, "value", Some(SelectValueJson(a.choice)), "value", None);
    PutAgrees(m1, "value", Some(SelectValueJson(a.choice)), "selector", Some(JStr(a.selector)));
  }

  /** Any object holding `a`'s members parses to `a`, whatever other keys it carries. */
  lemma SelectOptionParts(a: Action, m: map<string, Json>, path: seq<Segment>)
    requires a.SelectOptionAction? && ValidAction(a)
    requires BaseAgrees(a.Tag(), a.base, m)
    requires Agrees(m, "selector", Some(JStr(a.selector)))
    requires Agrees(m, "value", Some(SelectValueJson(a.choice)))
    ensures ParseActionAt(JObj(m), path) == Ok(a)
  {
    var t := a.Tag();
    var fs := VariantFields(t);
    var p := ActionSchema(t);
    ActionIssuesSplit(t, m, path);
    StrFieldOk(m, fs[0], p, path, a.selector);
    SelectValueRoundTrip(a.choice, path + [Key("value")]);
    OptFieldOk(m, fs[1], p, path, Some(SelectValueJson(a.choice)));
    FieldsIssuesEmpty(m, fs, p, path);
    ParseFromParts(a, m, path);
  }

  lemma CheckJsonAgrees(a: Action)
    requires a.CheckAction?
    ensures BaseAgrees(a.Tag(), a.base, ActionJson(a).fields)
    ensures Agrees(ActionJson(a).fields, "selector", Some(JStr(a.selector)))
  {
    var t := a.Tag();
    var m0 := BaseJson(t, a.base);
    BaseAgreesInit(t, a.base);
    var m1 := Put(m0, "selector", Some(JStr(a.selector)));
    assert ActionJson(a).fields == m1;
    BaseAgreesPut(t, a.base, m0, "selector", Some(JStr(a.selector)));
    PutAgrees(m0, "selector", Some(JStr(a.selector)), "selector", None);
  }

  /** Any object holding `a`'s members parses to `a`, whatever other keys it carries. */
  lemma CheckParts(a: Action, m: map<string, Json>, path: seq<Segment>)
    requires a.CheckAction? && ValidAction(a)
    requires BaseAgrees(a.Tag(), a.base, m)
    requires Agrees(m, "selector", Some(JStr(a.selector)))
    ensures ParseActionAt(JObj(m), path) == Ok(a)
  {
    var t := a.Tag();
    var fs := VariantFields(t);
    var p := ActionSchema(t);
    ActionIssuesSplit(t, m, path);
    StrFieldOk(m, fs[0], p, path, a.selector);
    ParseFromParts(a, m, path);
  }

  lemma UncheckJsonAgrees(a: Action)
    requires a.UncheckAction?
    ensures BaseAgrees(a.Tag(), a.base, ActionJson(a).fields)
    ensures Agrees(ActionJson(a).fields, "selector", Some(JStr(a.selector)))
  {
    var t := a.Tag();
    var m0 := BaseJson(t, a.base);
    BaseAgreesInit(t, a.base);
    var m1 := Put(m0, "selector", Some(JStr(a.selector)));
    assert ActionJson(a).fields == m1;
    BaseAgreesPut(t, a.base, m0, "selector", Some(JStr(a.selector)));
    PutAgrees(m0, "selector", Some(JStr(a.selector)), "selector", None);
  }

  /** Any object holding `a`'s members parses to `a`, whatever other keys it carries. */
  lemma UncheckParts(a: Action, m: map<string, Json>, path: seq<Segment>)
    requires a.UncheckAction? && ValidAction(a)
    requires BaseAgrees(a.Tag(), a.base, m)
    requires Agrees(m, "selector", Some(JStr(a.selector)))
    ensures ParseActionAt(JObj(m), path) == Ok(a)
  {
    var t := a.Tag();
    var fs := VariantFields(t);
    var p := ActionSchema(t);
    ActionIssuesSplit(t, m, path);
    StrFieldOk(m, fs[0], p, path, a.selector);
    ParseFromParts(a, m, path);
  }

  lemma EvaluateJsonAgrees(a: Action)
    requires a.EvaluateAction?
    ensures BaseAgrees(a.Tag(), a.base, ActionJson(a).fields)
    ensures Agrees(ActionJson(a).fields, "script", Some(JStr(a.script)))
  {
    var t := a.Tag();
    var m0 := BaseJson(t, a.base);
    BaseAgreesInit(t, a.base);
    var m1 := Put(m0, "script", Some(JStr(a.script)));
    assert ActionJson(a).fields == m1;
    BaseAgreesPut(t, a.base, m0, "script", Some(JStr(a.script)));
    PutAgrees(m0, "script", Some(JStr(a.script)), "script", None);
  }

  /** Any object holding `a`'s members parses to `a`, whatever other keys it carries. */
  lemma EvaluateParts(a: Action, m: map<string, Json>, path: seq<Segment>)
    requires a.EvaluateAction? && ValidAction(a)
    requires BaseAgrees(a.Tag(), a.base, m)
    requires Agrees(m, "script", Some(JStr(a.script)))
    ensures ParseActionAt(JObj(m), path) == Ok(a)
  {
    var t := a.Tag();
    var fs := VariantFields(t);
    var p := ActionSchema(t);
    ActionIssuesSplit(t, m, path);
    StrFieldOk(m, fs[0], p, path, a.script);
    ParseFromParts(a, m, path);
  }

  lemma ShowMessageJsonAgrees(a: Action)
    requires a.ShowMessageAction?
    ensures BaseAgrees(a.Tag(), a.base, ActionJson(a).fields)
    ensures Agrees(ActionJson(a).fields, "message", Some(JStr(a.message)))
    ensures Agrees(ActionJson(a).fields, "position", PositionJson(a.position))
    ensures Agrees(ActionJson(a).fields, "duration", NumJson(a.duration))
    ensures Agrees(ActionJson(a).fields, "style", StyleJson(a.style))
    ensures Agrees(ActionJson(a).fields, "closeButton", BoolJson(a.closeButton))
    ensures Agrees(ActionJson(a).fields, "waitForClose", BoolJson(a.waitForClose))
  {
    var t := a.Tag();
    var m0 := BaseJson(t, a.base);
    BaseAgreesInit(t, a.base);
    var m1 := Put(m0, "message", Some(JStr(a.message)));
    var m2 := Put(m1, "position", PositionJson(a.position));
    var m3 := Put(m2, "duration", NumJson(a.duration));
    var m4 := Put(m3, "style", StyleJson(a.style));
    var m5 := Put(m4, "closeButton", BoolJson(a.closeButton));
    var m6 := Put(m5, "waitForClose", BoolJson(a.waitForClose));
    assert ActionJson(a).fields == m6;
    BaseAgreesPut(t, a.base, m0, "message", Some(JStr(a.message)));
    BaseAgreesPut(t, a.base, m1, "position", PositionJson(a.position));
    BaseAgreesPut(t, a.base, m2, "duration", NumJson(a.duration));
    BaseAgreesPut(t, a.base, m3, "style", StyleJson(a.style));
    BaseAgreesPut(t, a.base, m4, "closeButton", BoolJson(a.closeButton));
    BaseAgreesPut(t, a.base, m5, "waitForClose", BoolJson(a.waitForClose));
    PutAgrees(m0, "message", Some(JStr(a.message)), "message", None);
    PutAgrees(m1, "position", PositionJson(a.position), "position", None);
    PutAgrees(m1, "position", PositionJson(a.position), "message", Some(JStr(a.message)));
    PutAgrees(m2, "duration", NumJson(a.duration), "duration", None);
    PutAgrees(m2, "duration", NumJson(a.duration), "message", Some(JStr(a.message)));
    PutAgrees(m2, "duration", NumJson(a.duration), "position", PositionJson(a.position));
    PutAgrees(m3, "style", StyleJson(a.style), "style", None);
    PutAgrees(m3, "style", StyleJson(a.style), "message", Some(JStr(a.message)));
    PutAgrees(m3, "style", StyleJson(a.style), "position", PositionJson(a.position));
    PutAgrees(m3, "style", StyleJson(a.style), "duration", NumJson(a.duration));
    PutAgrees(m4, "closeButton", BoolJson(a.closeButton), "closeButton", None);
    PutAgrees(m4, "closeButton", BoolJson(a.closeButton), "message", Some(JStr(a.message)));
    PutAgrees(m4, "closeButton", BoolJson(a.closeButton), "position", PositionJson(a.position));
    PutAgrees(m4, "closeButton", BoolJson(a.closeButton), "duration", NumJson(a.duration));
    PutAgrees(m4, "closeButton", BoolJson(a.closeButton), "style", StyleJson(a.style));
    PutAgrees(m5, "waitForClose", BoolJson(a.waitForClose), "waitForClose", None);
    PutAgrees(m5, "waitForClose", BoolJson(a.waitForClose), "message", Some(JStr(a.message)));
    PutAgrees(m5, "waitForClose", BoolJson(a.waitForClose), "position", PositionJson(a.position));
    PutAgrees(m5, "waitForClose", BoolJson(a.waitForClose), "duration", NumJson(a.duration));
    PutAgrees(m5, "waitForClose", BoolJson(a.waitForClose), "style", StyleJson(a.style));
    PutAgrees(m5, "waitForClose", BoolJson(a.waitForClose), "closeButton", BoolJson(a.closeButton));
  }

  /** Any object holding `a`'s members parses to `a`, whatever other keys it carries. */
  lemma ShowMessageParts(a: Action, m: map<string, Json>, path: seq<Segment>)
    requires a.ShowMessageAction? && ValidAction(a)
    requires BaseAgrees(a.Tag(), a.base, m)
    requires Agrees(m, "message", Some(JStr(a.message)))
    requires Agrees(m, "position", PositionJson(a.position))
    requires Agrees(m, "duration", NumJson(a.duration))
    requires Agrees(m, "style", StyleJson(a.style))
    requires Agrees(m, "closeButton", BoolJson(a.closeButton))
    requires Agrees(m, "waitForClose", BoolJson(a.waitForClose))
    ensures ParseActionAt(JObj(m), path) == Ok(a)
  {
    ActionIssuesSplit(a.Tag(), m, path);
    ShowMessageFieldsOk(a, m, path);
    ShowMessageBuildsFrom(a, m);
    ParseFromFields(a, m, path);
  }

  lemma ShowMessageFieldsOk(a: Action, m: map<string, Json>, path: seq<Segment>)
    requires a.ShowMessageAction? && ValidAction(a) && VariantFieldsNested(ShowMessage)
    requires Agrees(m, "message", Some(JStr(a.message)))
    requires Agrees(m, "position", PositionJson(a.position))
    requires Agrees(m, "duration", NumJson(a.duration))
    requires Agrees(m, "style", StyleJson(a.style))
    requires Agrees(m, "closeButton", BoolJson(a.closeButton))
    requires Agrees(m, "waitForClose", BoolJson(a.waitForClose))
    ensures forall i :: 0 <= i < |VariantFields(ShowMessage)| ==>
      FieldIssues(m, VariantFields(ShowMessage)[i], ActionSchema(ShowMessage), path) == []
  {
    ShowMessageTextFieldsOk(a, m, path);
    ShowMessageLookFieldsOk(a, m, path);
  }

  /** The message, its position and its duration. */
  lemma ShowMessageTextFieldsOk(a: Action, m: map<string, Json>, path: seq<Segment>)
    requires a.ShowMessageAction? && ValidAction(a) && VariantFieldsNested(ShowMessage)
    requires Agrees(m, "message", Some(JStr(a.message)))
    requires Agrees(m, "position", PositionJson(a.position))
    requires Agrees(m, "duration", NumJson(a.duration))
    ensures forall i :: 0 <= i < 3 ==>
      FieldIssues(m, VariantFields(ShowMessage)[i], ActionSchema(ShowMessage), path) == []
  {
    var fs := VariantFields(ShowMessage);
    var p := ActionSchema(ShowMessage);
    StrFieldOk(m, fs[0], p, path, a.message);
    if a.position.Some? {
      PositionNameRoundTrip(a.position.value);
    }
    OptFieldOk(m, fs[1], p, path, PositionJson(a.position));
    if a.duration.Some? {
      NumberCheckIssuesEmpty(a.duration.value, [NonNegative], path + [Key("duration")]);
    }
    OptFieldOk(m, fs[2], p, path, NumJson(a.duration));
  }

  /** The style and the two flags. */
  lemma ShowMessageLookFieldsOk(a: Action, m: map<string, Json>, path: seq<Segment>)
    requires a.ShowMessageAction? && VariantFieldsNested(ShowMessage)
    requires Agrees(m, "style", StyleJson(a.style))
    requires Agrees(m, "closeButton", BoolJson(a.closeButton))
    requires Agrees(m, "waitForClose", BoolJson(a.waitForClose))
    ensures forall i :: 3 <= i < 6 ==>
      FieldIssues(m, VariantFields(ShowMessage)[i], ActionSchema(ShowMessage), path) == []
  {
    var fs := VariantFields(ShowMessage);
    var p := ActionSchema(ShowMessage);
    if a.style.Some? {
      StyleNameRoundTrip(a.style.value);
    }
    OptFieldOk(m, fs[3], p, path, StyleJson(a.style));
    OptScalarsOk(None, None, a.closeButton, path + [Key("closeButton")]);
    OptFieldOk(m, fs[4], p, path, BoolJson(a.closeButton));
    OptScalarsOk(None, None, a.waitForClose, path + [Key("waitForClose")]);
    OptFieldOk(m, fs[5], p, path, BoolJson(a.waitForClose));
  }

  lemma ShowMessageBuildsFrom(a: Action, m: map<string, Json>)
    requires a.ShowMessageAction? && BaseAgrees(a.Tag(), a.base, m)
    requires Agrees(m, "message", Some(JStr(a.message)))
    requires Agrees(m, "position", PositionJson(a.position))
    requires Agrees(m, "duration", NumJson(a.duration))
    requires Agrees(m, "style", StyleJson(a.style))
    requires Agrees(m, "closeButton", BoolJson(a.closeButton))
    requires Agrees(m, "waitForClose", BoolJson(a.waitForClose))
    ensures BuildAction(ShowMessage, m) == a
  {
    BaseRoundTrip(a.Tag(), a.base, m, []);
    if a.position.Some? {
      PositionNameRoundTrip(a.position.value);
    }
    if a.style.Some? {
      StyleNameRoundTrip(a.style.value);
    }
    GetAgrees(m, "duration", None, a.duration, None);
    GetAgrees(m, "closeButton", None, None, a.closeButton);
    GetAgrees(m, "waitForClose", None, None, a.waitForClose);
  }

  /** An action object parses to `a` when its base agrees, each of its own fields passes and it
      builds to `a`. */
  lemma ParseFromFields(a: Action, m: map<string, Json>, path: seq<Segment>)
    requires BaseAgrees(a.Tag(), a.base, m) && VariantFieldsNested(a.Tag())
    requires forall i :: 0 <= i < |VariantFields(a.Tag())| ==>
      FieldIssues(m, VariantFields(a.Tag())[i], ActionSchema(a.Tag()), path) == []
    requires BuildAction(a.Tag(), m) == a
    ensures ParseActionAt(JObj(m), path) == Ok(a)
  {
    FieldsIssuesEmpty(m, VariantFields(a.Tag()), ActionSchema(a.Tag()), path);
    ParseFromParts(a, m, path);
  }

  /** Building from the written object gives back every member, valid or not. */
  lemma BuildActionJson(a: Action)
    ensures BuildAction(a.Tag(), ActionJson(a).fields) == a
  {
    match a
    case GotoAction(_, _) => GotoBuild(a);
    case ClickAction(_, _) => ClickBuild(a);
    case FillAction(_, _, _) => FillBuild(a);
    case TypeAction(_, _, _) => TypeBuild(a);
    case PressAction(_, _) => PressBuild(a);
    case HoverAction(_, _) => HoverBuild(a);
    case ScreenshotAction(_, _, _, _) => ScreenshotBuild(a);
    case WaitForSelectorAction(_, _) => WaitForSelectorBuild(a);
    case WaitForTimeoutAction(_, _) => WaitForTimeoutBuild(a);
    case WaitForManualActionAction(_, _, _, _, _, _, _) => WaitForManualActionBuild(a);
    case SelectOptionAction(_, _, _) => SelectOptionBuild(a);
    case CheckAction(_, _) => CheckBuild(a);
    case UncheckAction(_, _) => UncheckBuild(a);
    case EvaluateAction(_, _) => EvaluateBuild(a);
    case ShowMessageAction(_, _, _, _, _, _, _) => ShowMessageBuild(a);
  }

  lemma GotoBuild(a: Action)
    requires a.GotoAction?
    ensures BuildAction(a.Tag(), ActionJson(a).fields) == a
  {
    var m := ActionJson(a).fields;
    GetAgrees(m, "description", a.base.description, None, None);
    GetAgrees(m, "skipVtt", None, None, a.base.skipVtt);
    GetAgrees(m, "skipChapter", None, None, a.base.skipChapter);
    GotoJsonAgrees(a);
  }

  lemma ClickBuild(a: Action)
    requires a.ClickAction?
    ensures BuildAction(a.Tag(), ActionJson(a).fields) == a
  {
    var m := ActionJson(a).fields;
    GetAgrees(m, "description", a.base.description, None, None);
    GetAgrees(m, "skipVtt", None, None, a.base.skipVtt);
    GetAgrees(m, "skipChapter", None, None, a.base.skipChapter);
    ClickJsonAgrees(a);
  }

  lemma FillBuild(a: Action)
    requires a.FillAction?
    ensures BuildAction(a.Tag(), ActionJson(a).fields) == a
  {
    var m := ActionJson(a).fields;
    GetAgrees(m, "description", a.base.description, None, None);
    GetAgrees(m, "skipVtt", None, None, a.base.skipVtt);
    GetAgrees(m, "skipChapter", None, None, a.base.skipChapter);
    FillJsonAgrees(a);
  }

  lemma TypeBuild(a: Action)
    requires a.TypeAction?
    ensures BuildAction(a.Tag(), ActionJson(a).fields) == a
  {
    var m := ActionJson(a).fields;
    GetAgrees(m, "description", a.base.description, None, None);
    GetAgrees(m, "skipVtt", None, None, a.base.skipVtt);
    GetAgrees(m, "skipChapter", None, None, a.base.skipChapter);
    TypeJsonAgrees(a);
  }

  lemma PressBuild(a: Action)
    requires a.PressAction?
    ensures BuildAction(a.Tag(), ActionJson(a).fields) == a
  {
    var m := ActionJson(a).fields;
    GetAgrees(m, "description", a.base.description, None, None);
    GetAgrees(m, "skipVtt", None, None, a.base.skipVtt);
    GetAgrees(m, "skipChapter", None, None, a.base.skipChapter);
    PressJsonAgrees(a);
  }

  lemma HoverBuild(a: Action)
    requires a.HoverAction?
    ensures BuildAction(a.Tag(), ActionJson(a).fields) == a
  {
    var m := ActionJson(a).fields;
    GetAgrees(m, "description", a.base.description, None, None);
    GetAgrees(m, "skipVtt", None, None, a.base.skipVtt);
    GetAgrees(m, "skipChapter", None, None, a.base.skipChapter);
    HoverJsonAgrees(a);
  }

  lemma ScreenshotBuild(a: Action)
    requires a.ScreenshotAction?
    ensures BuildAction(a.Tag(), ActionJson(a).fields) == a
  {
    var m := ActionJson(a).fields;
    GetAgrees(m, "description", a.base.description, None, None);
    GetAgrees(m, "skipVtt", None, None, a.base.skipVtt);
    GetAgrees(m, "skipChapter", None, None, a.base.skipChapter);
    ScreenshotJsonAgrees(a);
    GetAgrees(m, "path", a.path, None, None);
    GetAgrees(m, "filename", a.filename, None, None);
    GetAgrees(m, "fullPage", None, None, a.fullPage);
  }

  lemma WaitForSelectorBuild(a: Action)
    requires a.WaitForSelectorAction?
    ensures BuildAction(a.Tag(), ActionJson(a).fields) == a
  {
    var m := ActionJson(a).fields;
    GetAgrees(m, "description", a.base.description, None, None);
    GetAgrees(m, "skipVtt", None, None, a.base.skipVtt);
    GetAgrees(m, "skipChapter", None, None, a.base.skipChapter);
    WaitForSelectorJsonAgrees(a);
  }

  lemma WaitForTimeoutBuild(a: Action)
    requires a.WaitForTimeoutAction?
    ensures BuildAction(a.Tag(), ActionJson(a).fields) == a
  {
    var m := ActionJson(a).fields;
    GetAgrees(m, "description", a.base.description, None, None);
    GetAgrees(m, "skipVtt", None, None, a.base.skipVtt);
    GetAgrees(m, "skipChapter", None, None, a.base.skipChapter);
    WaitForTimeoutJsonAgrees(a);
  }

  lemma WaitForManualActionBuild(a: Action)
    requires a.WaitForManualActionAction?
    ensures BuildAction(a.Tag(), ActionJson(a).fields) == a
  {
    WaitForManualActionJsonAgrees(a);
    WaitForManualActionBuildsFrom(a, ActionJson(a).fields);
  }

  lemma SelectOptionBuild(a: Action)
    requires a.SelectOptionAction?
    ensures BuildAction(a.Tag(), ActionJson(a).fields) == a
  {
    var m := ActionJson(a).fields;
    GetAgrees(m, "description", a.base.description, None, None);
    GetAgrees(m, "skipVtt", None, None, a.base.skipVtt);
    GetAgrees(m, "skipChapter", None, None, a.base.skipChapter);
    SelectOptionJsonAgrees(a);
    SelectValueRoundTrip(a.choice, []);
  }

  lemma CheckBuild(a: Action)
    requires a.CheckAction?
    ensures BuildAction(a.Tag(), ActionJson(a).fields) == a
  {
    var m := ActionJson(a).fields;
    GetAgrees(m, "description", a.base.description, None, None);
    GetAgrees(m, "skipVtt", None, None, a.base.skipVtt);
    GetAgrees(m, "skipChapter", None, None, a.base.skipChapter);
    CheckJsonAgrees(a);
  }

  lemma UncheckBuild(a: Action)
    requires a.UncheckAction?
    ensures BuildAction(a.Tag(), ActionJson(a).fields) == a
  {
    var m := ActionJson(a).fields;
    GetAgrees(m, "description", a.base.description, None, None);
    GetAgrees(m, "skipVtt", None, None, a.base.skipVtt);
    GetAgrees(m, "skipChapter", None, None, a.base.skipChapter);
    UncheckJsonAgrees(a);
  }

  lemma EvaluateBuild(a: Action)
    requires a.EvaluateAction?
    ensures BuildAction(a.Tag(), ActionJson(a).fields) == a
  {
    var m := ActionJson(a).fields;
    GetAgrees(m, "description", a.base.description, None, None);
    GetAgrees(m, "skipVtt", None, None, a.base.skipVtt);
    GetAgrees(m, "skipChapter", None, None, a.base.skipChapter);
    EvaluateJsonAgrees(a);
  }

  lemma ShowMessageBuild(a: Action)
    requires a.ShowMessageAction?
    ensures BuildAction(a.Tag(), ActionJson(a).fields) == a
  {
    ShowMessageJsonAgrees(a);
    ShowMessageBuildsFrom(a, ActionJson(a).fields);
  }

  // ---------------------------------------------------------------------------------------------
  // Soundness: whatever parses satisfies the schema's refinements

  lemma StrFieldSound(m: map<string, Json>, f: Field, parent: Schema, path: seq<Segment>)
    requires f.schema < parent && f.schema.SString? && !f.optional
    requires FieldIssues(m, f, parent, path) == []
    ensures f.key in m && m[f.key].JStr?
    ensures forall i :: 0 <= i < |f.schema.checks| ==> StringCheckHolds(m[f.key].s, f.schema.checks[i])
  {
    StringCheckIssuesEmpty(m[f.key].s, f.schema.checks, path + [Key(f.key)]);
  }

  lemma NumFieldSound(m: map<string, Json>, f: Field, parent: Schema, path: seq<Segment>)
    requires f.schema < parent && f.schema.SNumber?
    requires FieldIssues(m, f, parent, path) == []
    requires !f.optional || f.key in m
    ensures f.key in m && m[f.key].JNum?
    ensures forall i :: 0 <= i < |f.schema.checks| ==> NumberCheckHolds(m[f.key].n, f.schema.checks[i])
  {
    NumberCheckIssuesEmpty(m[f.key].n, f.schema.checks, path + [Key(f.key)]);
  }

  /** A parsed action is built from the object by its tag and meets every refinement. */
  lemma ActionSound(v: Json, path: seq<Segment>)
    requires ParseActionAt(v, path).Ok?
    ensures v.JObj? && Discriminator(v.fields).Some?
    ensures ParseActionAt(v, path).value == BuildAction(Discriminator(v.fields).value, v.fields)
    ensures ValidAction(ParseActionAt(v, path).value)
  {
    var m := v.fields;
    var t := Discriminator(m).value;
    ActionIssuesEmptySplit(t, m, path);
    VariantSound(t, m, path);
  }

  lemma VariantSound(t: ActionType, m: map<string, Json>, path: seq<Segment>)
    requires forall i :: 0 <= i < |VariantFields(t)| ==> VariantFields(t)[i].schema < ActionSchema(t)
    requires FieldsIssues(m, VariantFields(t), ActionSchema(t), path) == []
    ensures ValidAction(BuildAction(t, m))
  {
    if t == Screenshot {
    } else if t == WaitForTimeout || t == WaitForManualAction || t == ShowMessage {
      NumberVariantSound(t, m, path);
    } else {
      FirstStrFieldSound(t, m, path);
    }
  }

  /** The tags whose refined field is a number: the timeouts and the message duration. */
  lemma NumberVariantSound(t: ActionType, m: map<string, Json>, path: seq<Segment>)
    requires t == WaitForTimeout || t == WaitForManualAction || t == ShowMessage
    requires forall i :: 0 <= i < |VariantFields(t)| ==> VariantFields(t)[i].schema < ActionSchema(t)
    requires FieldsIssues(m, VariantFields(t), ActionSchema(t), path) == []
    ensures ValidAction(BuildAction(t, m))
  {
    FieldsIssuesEmpty(m, VariantFields(t), ActionSchema(t), path);
    match t
    case WaitForTimeout =>
      NumFieldSound(m, VariantFields(t)[0], ActionSchema(t), path);
    case WaitForManualAction =>
      if "timeout" in m {
        NumFieldSound(m, VariantFields(t)[3], ActionSchema(t), path);
      }
    case ShowMessage =>
      if "duration" in m {
        NumFieldSound(m, VariantFields(t)[2], ActionSchema(t), path);
      }
  }

  /** The tags whose refined field is their first, a required string (a selector, URL, key or
      script): that string meets the field's check. */
  lemma FirstStrFieldSound(t: ActionType, m: map<string, Json>, path: seq<Segment>)
    requires forall i :: 0 <= i < |VariantFields(t)| ==> VariantFields(t)[i].schema < ActionSchema(t)
    requires FieldsIssues(m, VariantFields(t), ActionSchema(t), path) == []
    requires t !in {Screenshot, WaitForTimeout, WaitForManualAction, ShowMessage}
    ensures ValidAction(BuildAction(t, m))
  {
    var fs := VariantFields(t);
    assert FieldIssues(m, fs[0], ActionSchema(t), path) == [];
    StrFieldSound(m, fs[0], ActionSchema(t), path);
    assert StringCheckHolds(m[fs[0].key].s, fs[0].schema.checks[0]);
  }

  /** The issues of an object under the tag's schema vanish only if its own fields pass. */
  lemma ActionIssuesEmptySplit(t: ActionType, m: map<string, Json>, path: seq<Segment>)
    requires Issues(JObj(m), ActionSchema(t), path) == []
    ensures forall i :: 0 <= i < |VariantFields(t)| ==> VariantFields(t)[i].schema < ActionSchema(t)
    ensures FieldsIssues(m, VariantFields(t), ActionSchema(t), path) == []
  {
    ActionIssuesSplit(t, m, path);
  }

  lemma ActionJsonTag(a: Action)
    ensures ActionJson(a).JObj? && Discriminator(ActionJson(a).fields) == Some(a.Tag())
  {
    var m := ActionJson(a).fields;
    assert "type" in m && m["type"] == JStr(TagName(a.Tag())) by {
      match a
      case GotoAction(_, _) => GotoJsonAgrees(a);
      case ClickAction(_, _) => ClickJsonAgrees(a);
      case FillAction(_, _, _) => FillJsonAgrees(a);
      case TypeAction(_, _, _) => TypeJsonAgrees(a);
      case PressAction(_, _) => PressJsonAgrees(a);
      case HoverAction(_, _) => HoverJsonAgrees(a);
      case ScreenshotAction(_, _, _, _) => ScreenshotJsonAgrees(a);
      case WaitForSelectorAction(_, _) => WaitForSelectorJsonAgrees(a);
      case WaitForTimeoutAction(_, _) => WaitForTimeoutJsonAgrees(a);
      case WaitForManualActionAction(_, _, _, _, _, _, _) => WaitForManualActionJsonAgrees(a);
      case SelectOptionAction(_, _, _) => SelectOptionJsonAgrees(a);
      case CheckAction(_, _) => CheckJsonAgrees(a);
      case UncheckAction(_, _) => UncheckJsonAgrees(a);
      case EvaluateAction(_, _) => EvaluateJsonAgrees(a);
      case ShowMessageAction(_, _, _, _, _, _, _) => ShowMessageJsonAgrees(a);
    }
    TagNameRoundTrip(a.Tag(), TagName(a.Tag()));
  }

  /** A written action is accepted exactly when it is valid, and then parses to itself. */
  lemma ActionJsonAcceptedIffValid(a: Action, path: seq<Segment>)
    ensures ParseActionAt(ActionJson(a), path).Ok? <==> ValidAction(a)
    ensures ValidAction(a) ==> ParseActionAt(ActionJson(a), path) == Ok(a)
  {
    var v := ActionJson(a);
    if ValidAction(a) {
      ActionRoundTrip(a, path);
    } else if ParseActionAt(v, path).Ok? {
      ActionJsonTag(a);
      BuildActionJson(a);
      ActionSound(v, path);
      assert false;
    }
  }

  // ---------------------------------------------------------------------------------------------
  // Where issues are reported

  /** `path` is a prefix of `p`. */
  predicate Under(p: seq<Segment>, path: seq<Segment>)
  {
    |path| <= |p| && p[..|path|] == path
  }

  predicate AllUnder(issues: seq<Issue>, path: seq<Segment>)
  {
    forall i :: 0 <= i < |issues| ==> Under(issues[i].path, path)
  }

  lemma {:induction false} StringCheckIssuesAt(s: string, checks: seq<Check>, path: seq<Segment>)
    ensures forall i :: 0 <= i < |StringCheckIssues(s, checks, path)| ==> StringCheckIssues(s, checks, path)[i].path == path
    decreases |checks|
  {
    if checks != [] {
      StringCheckIssuesAt(s, checks[1..], path);
    }
  }

  lemma {:induction false} NumberCheckIssuesAt(n: int, checks: seq<Check>, path: seq<Segment>)
    ensures forall i :: 0 <= i < |NumberCheckIssues(n, checks, path)| ==> NumberCheckIssues(n, checks, path)[i].path == path
    decreases |checks|
  {
    if checks != [] {
      NumberCheckIssuesAt(n, checks[1..], path);
    }
  }

  /** Every issue is located at or below the path where checking started. */
  lemma {:induction false} IssuesUnder(v: Json, s: Schema, path: seq<Segment>)
    ensures AllUnder(Issues(v, s, path), path)
    decreases s, 1
  {
    match s
    case SString(checks) =>
      if v.JStr? { StringCheckIssuesAt(v.s, checks, path); }
    case SNumber(checks) =>
      if v.JNum? { NumberCheckIssuesAt(v.n, checks, path); }
    case SObject(fields) =>
      if v.JObj? { FieldsIssuesUnder(v.fields, fields, s, path); }
    case _ =>
  }

  lemma {:induction false} FieldsIssuesUnder(m: map<string, Json>, fs: seq<Field>, parent: Schema, path: seq<Segment>)
    requires forall i :: 0 <= i < |fs| ==> fs[i].schema < parent
    ensures AllUnder(FieldsIssues(m, fs, parent, path), path)
    decreases parent, 0, |fs|
  {
    if fs != [] {
      FieldIssuesUnder(m, fs[0], parent, path);
      FieldsIssuesUnder(m, fs[1..], parent, path);
      var a := FieldIssues(m, fs[0], parent, path);
      var b := FieldsIssues(m, fs[1..], parent, path);
      assert forall i :: |a| <= i < |a + b| ==> (a + b)[i] == b[i - |a|];
    }
  }

  lemma {:induction false} FieldIssuesUnder(m: map<string, Json>, f: Field, parent: Schema, path: seq<Segment>)
    requires f.schema < parent
    ensures AllUnder(FieldIssues(m, f, parent, path), path)
    decreases parent, 0, 0
  {
    if f.key in m {
      var p := path + [Key(f.key)];
      IssuesUnder(m[f.key], f.schema, p);
      forall i | 0 <= i < |Issues(m[f.key], f.schema, p)|
        ensures Under(Issues(m[f.key], f.schema, p)[i].path, path)
      {
        var q := Issues(m[f.key], f.schema, p)[i].path;
        assert q[..|path|] == q[..|p|][..|path|];
      }
    } else if !f.optional {
      assert (path + [Key(f.key)])[..|path|] == path;
    }
  }

  /** The issues of an action are located at or below its path. */
  lemma ActionIssuesUnder(v: Json, path: seq<Segment>)
    ensures ParseActionAt(v, path).Err? ==> AllUnder(ParseActionAt(v, path).error, path)
  {
    if v.JObj? {
      match Discriminator(v.fields)
      case None =>
        assert (path + [Key("type")])[..|path|] == path;
      case Some(t) =>
        IssuesUnder(v, ActionSchema(t), path);
    }
  }

  // ---------------------------------------------------------------------------------------------
  // Config schemas

  function SizeSchema(): Schema
  {
    SObject([Field("width", SNumber([Positive]), false), Field("height", SNumber([Positive]), false)])
  }

  function BrowserConfigSchema(): Schema
  {
    SObject([Field("headless", SBoolean, false),
             Field("slowMo", SNumber([NonNegative]), false),
             Field("viewport", SizeSchema(), false),
             Field("showBrowserUI", SBoolean, true),
             Field("defaultTimeout", SNumber([Positive]), true),
             Field("navigationTimeout", SNumber([Positive]), true)])
  }

  function VideoConfigSchema(): Schema
  {
    SObject([Field("size", SizeSchema(), false),
             Field("fps", SNumber([Positive, AtMost(60)]), false),
             Field("skipAllVtt", SBoolean, true),
             Field("skipAllChapters", SBoolean, true)])
  }

  function GlobalConfigSchema(): Schema
  {
    SObject([Field("browser", BrowserConfigSchema(), false), Field("video", VideoConfigSchema(), false)])
  }

  /** `.partial()`: every top-level field becomes optional; nested objects keep their own rules. */
  function Partial(fs: seq<Field>): (r: seq<Field>)
    ensures |r| == |fs|
    ensures forall i :: 0 <= i < |fs| ==> r[i] == fs[i].(optional := true)
  {
    if fs == [] then [] else [fs[0].(optional := true)] + Partial(fs[1..])
  }

  function WorkflowConfigSchema(): Schema
  {
    SObject([Field("browser", SObject(Partial(BrowserConfigSchema().fields)), true),
             Field("video", SObject(Partial(VideoConfigSchema().fields)), true)])
  }

  /** `m[k]`, with an absent key read as `null`. */
  function Lookup(m: map<string, Json>, k: string): Json
  {
    if k in m then m[k] else JNull
  }

  function ObjectFields(j: Json): map<string, Json>
  {
    if j.JObj? then j.fields else map[]
  }

  function GetSize(m: map<string, Json>, k: string): Size
  {
    var o := ObjectFields(Lookup(m, k));
    Size(GetNum(o, "width"), GetNum(o, "height"))
  }

  function GetOptSize(m: map<string, Json>, k: string): Option<SizeOverride>
  {
    if k in m && m[k].JObj? then Some(SizeOverride(GetOptNum(m[k].fields, "width"), GetOptNum(m[k].fields, "height")))
    else None
  }

  function BuildBrowserConfig(m: map<string, Json>): BrowserConfig
  {
    BrowserConfig(GetBool(m, "headless"), GetNum(m, "slowMo"), GetSize(m, "viewport"),
      GetOptBool(m, "showBrowserUI"), GetOptNum(m, "defaultTimeout"), GetOptNum(m, "navigationTimeout"))
  }

  function BuildVideoConfig(m: map<string, Json>): VideoConfig
  {
    VideoConfig(GetSize(m, "size"), GetNum(m, "fps"), GetOptBool(m, "skipAllVtt"), GetOptBool(m, "skipAllChapters"))
  }

  function BuildGlobalConfig(m: map<string, Json>): GlobalConfig
  {
    GlobalConfig(BuildBrowserConfig(ObjectFields(Lookup(m, "browser"))), BuildVideoConfig(ObjectFields(Lookup(m, "video"))))
  }

  function BuildBrowserOverride(m: map<string, Json>): BrowserOverride
  {
    BrowserOverride(GetOptBool(m, "headless"), GetOptNum(m, "slowMo"), GetOptSize(m, "viewport"),
      GetOptBool(m, "showBrowserUI"), GetOptNum(m, "defaultTimeout"), GetOptNum(m, "navigationTimeout"))
  }

  function BuildVideoOverride(m: map<string, Json>): VideoOverride
  {
    VideoOverride(GetOptSize(m, "size"), GetOptNum(m, "fps"), GetOptBool(m, "skipAllVtt"), GetOptBool(m, "skipAllChapters"))
  }

  function BuildWorkflowConfig(m: map<string, Json>): WorkflowConfig
  {
    WorkflowConfig(
      if "browser" in m && m["browser"].JObj? then Some(BuildBrowserOverride(m["browser"].fields)) else None,
      if "video" in m && m["video"].JObj? then Some(BuildVideoOverride(m["video"].fields)) else None)
  }

  function ParseGlobalConfig(v: Json): (r: Result<GlobalConfig, seq<Issue>>)
    ensures r.Err? ==> |r.error| > 0
  {
    var issues := Issues(v, GlobalConfigSchema(), []);
    if issues != [] then Err(issues) else Ok(BuildGlobalConfig(ObjectFields(v)))
  }

  function ParseWorkflowConfig(v: Json): (r: Result<WorkflowConfig, seq<Issue>>)
    ensures r.Err? ==> |r.error| > 0
  {
    ParseWorkflowConfigAt(v, [])
  }

  function ParseWorkflowConfigAt(v: Json, path: seq<Segment>): (r: Result<WorkflowConfig, seq<Issue>>)
    ensures r.Err? ==> |r.error| > 0
  {
    var issues := Issues(v, WorkflowConfigSchema(), path);
    if issues != [] then Err(issues) else Ok(BuildWorkflowConfig(ObjectFields(v)))
  }

  /** The bounds the config schemas put on a full configuration. */
  predicate ValidSize(s: Size) { s.width > 0 && s.height > 0 }

  predicate ValidBrowserConfig(b: BrowserConfig)
  {
    && b.slowMo >= 0
    && ValidSize(b.viewport)
    && (b.defaultTimeout.Some? ==> b.defaultTimeout.value > 0)
    && (b.navigationTimeout.Some? ==> b.navigationTimeout.value > 0)
  }

  predicate ValidVideoConfig(v: VideoConfig)
  {
    ValidSize(v.size) && 0 < v.fps <= 60
  }

  predicate ValidGlobalConfig(g: GlobalConfig)
  {
    ValidBrowserConfig(g.browser) && ValidVideoConfig(g.video)
  }

  /** A size override that passed the schema names both dimensions, each positive. */
  predicate ValidSizeOverride(o: Option<SizeOverride>)
  {
    o.Some? ==> o.value.width.Some? && o.value.height.Some? && o.value.width.value > 0 && o.value.height.value > 0
  }

  predicate ValidWorkflowConfig(w: WorkflowConfig)
  {
    && (w.browser.Some? ==>
         && (w.browser.value.slowMo.Some? ==> w.browser.value.slowMo.value >= 0)
         && ValidSizeOverride(w.browser.value.viewport)
         && (w.browser.value.defaultTimeout.Some? ==> w.browser.value.defaultTimeout.value > 0)
         && (w.browser.value.navigationTimeout.Some? ==> w.browser.value.navigationTimeout.value > 0))
    && (w.video.Some? ==>
         && ValidSizeOverride(w.video.value.size)
         && (w.video.value.fps.Some? ==> 0 < w.video.value.fps.value <= 60))
  }

  /** An object without issues has a clean field for every field of its schema. */
  lemma ObjectIssuesEmpty(v: Json, s: Schema, path: seq<Segment>)
    requires s.SObject? && Issues(v, s, path) == []
    ensures v.JObj?
    ensures forall i :: 0 <= i < |s.fields| ==> s.fields[i].schema < s && FieldIssues(v.fields, s.fields[i], s, path) == []
  {
    FieldsIssuesEmpty(v.fields, s.fields, s, path);
  }

  lemma FieldClean(m: map<string, Json>, f: Field, parent: Schema, path: seq<Segment>)
    requires f.schema < parent && FieldIssues(m, f, parent, path) == []
    requires !f.optional || f.key in m
    ensures f.key in m && Issues(m[f.key], f.schema, path + [Key(f.key)]) == []
  {
  }

  lemma SizeSound(j: Json, path: seq<Segment>)
    requires Issues(j, SizeSchema(), path) == []
    ensures j.JObj? && ValidSize(Size(GetNum(j.fields, "width"), GetNum(j.fields, "height")))
    ensures GetOptNum(j.fields, "width").Some? && GetOptNum(j.fields, "height").Some?
  {
    var s := SizeSchema();
    ObjectIssuesEmpty(j, s, path);
    NumFieldSound(j.fields, s.fields[0], s, path);
    NumFieldSound(j.fields, s.fields[1], s, path);
  }

  lemma SizeFieldSound(m: map<string, Json>, f: Field, parent: Schema, path: seq<Segment>)
    requires f.schema == SizeSchema() && f.schema < parent && FieldIssues(m, f, parent, path) == []
    requires !f.optional || f.key in m
    ensures ValidSize(GetSize(m, f.key))
    ensures ValidSizeOverride(GetOptSize(m, f.key))
  {
    SizeSound(m[f.key], path + [Key(f.key)]);
  }

  lemma BrowserConfigSound(j: Json, path: seq<Segment>)
    requires Issues(j, BrowserConfigSchema(), path) == []
    ensures ValidBrowserConfig(BuildBrowserConfig(ObjectFields(j)))
  {
    var s := BrowserConfigSchema();
    ObjectIssuesEmpty(j, s, path);
    var m := j.fields;
    NumFieldSound(m, s.fields[1], s, path);
    SizeFieldSound(m, s.fields[2], s, path);
    if "defaultTimeout" in m { NumFieldSound(m, s.fields[4], s, path); }
    if "navigationTimeout" in m { NumFieldSound(m, s.fields[5], s, path); }
  }

  lemma VideoConfigSound(j: Json, path: seq<Segment>)
    requires Issues(j, VideoConfigSchema(), path) == []
    ensures ValidVideoConfig(BuildVideoConfig(ObjectFields(j)))
  {
    var s := VideoConfigSchema();
    ObjectIssuesEmpty(j, s, path);
    var m := j.fields;
    SizeFieldSound(m, s.fields[0], s, path);
    NumFieldSound(m, s.fields[1], s, path);
    assert NumberCheckHolds(m["fps"].n, s.fields[1].schema.checks[1]);
  }

  /** A global config that passes its schema meets every bound. */
  lemma GlobalConfigSound(v: Json)
    requires ParseGlobalConfig(v).Ok?
    ensures ValidGlobalConfig(ParseGlobalConfig(v).value)
  {
    var s := GlobalConfigSchema();
    assert Issues(v, s, []) == [];
    ObjectIssuesEmpty(v, s, []);
    FieldClean(v.fields, s.fields[0], s, []);
    FieldClean(v.fields, s.fields[1], s, []);
    BrowserConfigSound(v.fields["browser"], [] + [Key("browser")]);
    VideoConfigSound(v.fields["video"], [] + [Key("video")]);
  }

  lemma BrowserOverrideSound(j: Json, path: seq<Segment>)
    requires Issues(j, SObject(Partial(BrowserConfigSchema().fields)), path) == []
    ensures var b := BuildBrowserOverride(j.fields);
      && (b.slowMo.Some? ==> b.slowMo.value >= 0)
      && ValidSizeOverride(b.viewport)
      && (b.defaultTimeout.Some? ==> b.defaultTimeout.value > 0)
      && (b.navigationTimeout.Some? ==> b.navigationTimeout.value > 0)
  {
    var s := SObject(Partial(BrowserConfigSchema().fields));
    ObjectIssuesEmpty(j, s, path);
    var m := j.fields;
    OptNumberSound(m, s.fields[1], s, path);
    if "viewport" in m { SizeFieldSound(m, s.fields[2], s, path); }
    OptNumberSound(m, s.fields[4], s, path);
    OptNumberSound(m, s.fields[5], s, path);
  }

  /** A present member under a number schema with one check is a number that meets the check. */
  lemma OptNumberSound(m: map<string, Json>, f: Field, parent: Schema, path: seq<Segment>)
    requires f.schema < parent && f.schema.SNumber? && |f.schema.checks| == 1
    requires FieldIssues(m, f, parent, path) == []
    ensures GetOptNum(m, f.key).Some? ==> NumberCheckHolds(GetOptNum(m, f.key).value, f.schema.checks[0])
  {
    if f.key in m {
      NumFieldSound(m, f, parent, path);
    }
  }

  lemma VideoOverrideSound(j: Json, path: seq<Segment>)
    requires Issues(j, SObject(Partial(VideoConfigSchema().fields)), path) == []
    ensures var o := BuildVideoOverride(j.fields);
      ValidSizeOverride(o.size) && (o.fps.Some? ==> 0 < o.fps.value <= 60)
  {
    var s := SObject(Partial(VideoConfigSchema().fields));
    ObjectIssuesEmpty(j, s, path);
    var m := j.fields;
    if "size" in m { SizeFieldSound(m, s.fields[0], s, path); }
    if "fps" in m {
      NumFieldSound(m, s.fields[1], s, path);
      assert NumberCheckHolds(m["fps"].n, s.fields[1].schema.checks[1]);
    }
  }

  /** A workflow config that passes its schema meets every bound, and any viewport or size it
      carries names both dimensions: `.partial()` is shallow. */
  lemma WorkflowConfigSound(v: Json, path: seq<Segment>)
    requires ParseWorkflowConfigAt(v, path).Ok?
    ensures ValidWorkflowConfig(ParseWorkflowConfigAt(v, path).value)
  {
    var s := WorkflowConfigSchema();
    ObjectIssuesEmpty(v, s, path);
    var m := v.fields;
    if "browser" in m {
      assert FieldIssues(m, s.fields[0], s, path) == [];
      if m["browser"].JObj? { BrowserOverrideSound(m["browser"], path + [Key("browser")]); }
    }
    if "video" in m {
      assert FieldIssues(m, s.fields[1], s, path) == [];
      if m["video"].JObj? { VideoOverrideSound(m["video"], path + [Key("video")]); }
    }
  }

  /** An object schema whose fields are all optional accepts the empty object. */
  lemma EmptyObjectPasses(s: Schema, path: seq<Segment>)
    requires s.SObject? && forall i :: 0 <= i < |s.fields| ==> s.fields[i].optional
    ensures Issues(JObj(map[]), s, path) == []
  {
    assert forall i :: 0 <= i < |s.fields| ==> s.fields[i].schema < s by {
      forall i | 0 <= i < |s.fields| ensures s.fields[i].schema < s {
        assert s.fields[i] in s.fields;
      }
    }
    FieldsIssuesEmpty(map[], s.fields, s, path);
  }

  /** Every section of a workflow config may be left out. */
  lemma EmptyWorkflowConfigAccepted(path: seq<Segment>)
    ensures ParseWorkflowConfigAt(JObj(map[]), path) == Ok(WorkflowConfig(None, None))
  {
    EmptyObjectPasses(WorkflowConfigSchema(), path);
  }

  /** Every field of each section may be left out too. */
  lemma EmptySectionsAccepted(path: seq<Segment>)
    ensures ParseWorkflowConfigAt(JObj(map["browser" := JObj(map[]), "video" := JObj(map[])]), path)
         == Ok(WorkflowConfig(Some(BrowserOverride(None, None, None, None, None, None)), Some(VideoOverride(None, None, None, None))))
  {
    EmptySectionsPass(path);
  }

  lemma EmptySectionsPass(path: seq<Segment>)
    ensures Issues(JObj(map["browser" := JObj(map[]), "video" := JObj(map[])]), WorkflowConfigSchema(), path) == []
  {
    var s := WorkflowConfigSchema();
    var m := map["browser" := JObj(map[]), "video" := JObj(map[])];
    EmptyObjectPasses(s.fields[0].schema, path + [Key("browser")]);
    EmptyObjectPasses(s.fields[1].schema, path + [Key("video")]);
    assert FieldIssues(m, s.fields[0], s, path) == [];
    assert FieldIssues(m, s.fields[1], s, path) == [];
    FieldsIssuesEmpty(m, s.fields, s, path);
  }

  // ---------------------------------------------------------------------------------------------
  // Workflows

  function ItemPath(i: nat): seq<Segment> { [Key("actions"), Idx(i)] }

  /** Results of the elements, in order: the values if all succeeded, else every issue. */
  function Collect(rs: seq<Result<Action, seq<Issue>>>): (r: Result<seq<Action>, seq<Issue>>)
    requires ErrorsNonEmpty(rs)
    ensures r.Err? ==> |r.error| > 0
    decreases |rs|
  {
    if rs == [] then Ok([])
    else
      var k := |rs| - 1;
      match (Collect(rs[..k]), rs[k])
      case (Ok(prefix), Ok(a)) => Ok(prefix + [a])
      case (Ok(_), Err(e)) => Err(e)
      case (Err(e), Ok(_)) => Err(e)
      case (Err(e1), Err(e2)) => Err(e1 + e2)
  }

  predicate ErrorsNonEmpty(rs: seq<Result<Action, seq<Issue>>>)
  {
    forall i :: 0 <= i < |rs| && rs[i].Err? ==> rs[i].error != []
  }

  function ItemResults(items: seq<Json>): (rs: seq<Result<Action, seq<Issue>>>)
    ensures |rs| == |items| && ErrorsNonEmpty(rs)
  {
    seq(|items|, i requires 0 <= i < |items| => ParseActionAt(items[i], ItemPath(i)))
  }

  /** Every element of `actions`, each checked at its own index; all issues are kept. */
  function ParseActions(items: seq<Json>): (r: Result<seq<Action>, seq<Issue>>)
    ensures r.Err? ==> |r.error| > 0
  {
    Collect(ItemResults(items))
  }

  lemma {:induction false} CollectOk(rs: seq<Result<Action, seq<Issue>>>)
    requires ErrorsNonEmpty(rs)
    ensures Collect(rs).Ok? <==> forall i :: 0 <= i < |rs| ==> rs[i].Ok?
    ensures Collect(rs).Ok? ==> |Collect(rs).value| == |rs|
    ensures Collect(rs).Ok? ==> forall i :: 0 <= i < |rs| ==> Collect(rs).value[i] == rs[i].value
    decreases |rs|
  {
    if rs != [] {
      var k := |rs| - 1;
      assert ErrorsNonEmpty(rs[..k]);
      CollectOk(rs[..k]);
      assert forall i :: 0 <= i < k ==> rs[..k][i] == rs[i];
    }
  }

  /** A failing element makes the whole list fail, and all of its issues are reported. */
  lemma {:induction false} CollectKeepsErrors(rs: seq<Result<Action, seq<Issue>>>, i: nat)
    requires ErrorsNonEmpty(rs) && i < |rs| && rs[i].Err?
    ensures Collect(rs).Err? && multiset(rs[i].error) <= multiset(Collect(rs).error)
    decreases |rs|
  {
    var k := |rs| - 1;
    assert ErrorsNonEmpty(rs[..k]);
    if i < k {
      assert rs[..k][i] == rs[i];
      CollectKeepsErrors(rs[..k], i);
    }
  }

  /** Every reported issue lies under a common prefix when every element's issues do. */
  lemma {:induction false} CollectUnder(rs: seq<Result<Action, seq<Issue>>>, prefix: seq<Segment>)
    requires ErrorsNonEmpty(rs)
    requires forall i :: 0 <= i < |rs| && rs[i].Err? ==> AllUnder(rs[i].error, prefix)
    ensures Collect(rs).Err? ==> AllUnder(Collect(rs).error, prefix)
    decreases |rs|
  {
    if rs != [] {
      var k := |rs| - 1;
      assert ErrorsNonEmpty(rs[..k]);
      assert forall i :: 0 <= i < k ==> rs[..k][i] == rs[i];
      CollectUnder(rs[..k], prefix);
    }
  }

  lemma UnderItemPath(issues: seq<Issue>, i: nat)
    requires AllUnder(issues, ItemPath(i))
    ensures AllUnder(issues, [Key("actions")])
  {
    forall j | 0 <= j < |issues|
      ensures Under(issues[j].path, [Key("actions")])
    {
      var p := issues[j].path;
      assert p[..1] == p[..2][..1];
    }
  }

  /** The list parses exactly when every element does, element by element. */
  lemma ParseActionsOk(items: seq<Json>)
    ensures ParseActions(items).Ok? <==> forall i :: 0 <= i < |items| ==> ParseActionAt(items[i], ItemPath(i)).Ok?
    ensures ParseActions(items).Ok? ==>
      && |ParseActions(items).value| == |items|
      && forall i :: 0 <= i < |items| ==> ParseActions(items).value[i] == ParseActionAt(items[i], ItemPath(i)).value
  {
    var rs := ItemResults(items);
    CollectOk(rs);
    assert forall i :: 0 <= i < |items| ==> rs[i] == ParseActionAt(items[i], ItemPath(i));
  }

  /** Every issue of a failing element is reported, and nothing outside `actions` is. */
  lemma ParseActionsErrors(items: seq<Json>, i: nat)
    requires i < |items| && ParseActionAt(items[i], ItemPath(i)).Err?
    ensures ParseActions(items).Err?
    ensures multiset(ParseActionAt(items[i], ItemPath(i)).error) <= multiset(ParseActions(items).error)
  {
    CollectKeepsErrors(ItemResults(items), i);
  }

  lemma ParseActionsUnder(items: seq<Json>)
    ensures ParseActions(items).Err? ==> AllUnder(ParseActions(items).error, [Key("actions")])
  {
    var rs := ItemResults(items);
    forall i | 0 <= i < |rs| && rs[i].Err?
      ensures AllUnder(rs[i].error, [Key("actions")])
    {
      ActionIssuesUnder(items[i], ItemPath(i));
      UnderItemPath(rs[i].error, i);
    }
    CollectUnder(rs, [Key("actions")]);
  }

  function NameIssues(m: map<string, Json>): seq<Issue>
  {
    if "name" !in m then [Issue(Required, [Key("name")])]
    else Issues(m["name"], SString([MinLength(1)]), [Key("name")])
  }

  function ActionsIssues(m: map<string, Json>): seq<Issue>
  {
    if "actions" !in m then [Issue(Required, [Key("actions")])]
    else if !m["actions"].JArr? then [Issue(InvalidType, [Key("actions")])]
    else match ParseActions(m["actions"].items)
      case Ok(_) => []
      case Err(e) => e
  }

  function ConfigIssues(m: map<string, Json>): seq<Issue>
  {
    if "config" !in m then [] else Issues(m["config"], WorkflowConfigSchema(), [Key("config")])
  }

  /** `WorkflowSchema.parse`: `name`, `actions` and `config` are checked in that order and every
      issue is kept; the workflow is built only when there is none. */
  function ParseWorkflow(v: Json): (r: Result<Workflow, seq<Issue>>)
    ensures r.Err? ==> |r.error| > 0
  {
    if !v.JObj? then Err([Issue(InvalidType, [])])
    else
      var m := v.fields;
      var issues := NameIssues(m) + ActionsIssues(m) + ConfigIssues(m);
      if issues != [] then Err(issues)
      else
        var actions := ParseActions(m["actions"].items);
        Ok(Workflow(GetStr(m, "name"), actions.value,
          if "config" in m then Some(BuildWorkflowConfig(ObjectFields(m["config"]))) else None))
  }

  /** An accepted workflow has a non-empty name, one valid action per element, in order, and a
      config within bounds. */
  lemma WorkflowSound(v: Json)
    requires ParseWorkflow(v).Ok?
    ensures v.JObj? && "actions" in v.fields && v.fields["actions"].JArr?
    ensures var w := ParseWorkflow(v).value; var items := v.fields["actions"].items;
      && |w.name| >= 1
      && |w.actions| == |items|
      && (forall i :: 0 <= i < |items| ==> ParseActionAt(items[i], ItemPath(i)) == Ok(w.actions[i]))
      && (forall i :: 0 <= i < |items| ==> ValidAction(w.actions[i]))
      && (w.config.Some? ==> ValidWorkflowConfig(w.config.value))
  {
    var m := v.fields;
    var items := m["actions"].items;
    var w := ParseWorkflow(v).value;
    StringCheckIssuesEmpty(m["name"].s, [MinLength(1)], [Key("name")]);
    assert StringCheckHolds(m["name"].s, [MinLength(1)][0]);
    ParseActionsOk(items);
    forall i | 0 <= i < |items|
      ensures ValidAction(w.actions[i])
    {
      ActionSound(items[i], ItemPath(i));
    }
    if "config" in m {
      assert ParseWorkflowConfigAt(m["config"], [Key("config")]).Ok?;
      WorkflowConfigSound(m["config"], [Key("config")]);
    }
  }

  /** An empty action list is a valid workflow. */
  lemma EmptyActionsAccepted(name: string)
    requires |name| >= 1
    ensures ParseWorkflow(JObj(map["name" := JStr(name), "actions" := JArr([])])) == Ok(Workflow(name, [], None))
  {
    StringCheckIssuesEmpty(name, [MinLength(1)], [Key("name")]);
  }

  /** An empty name is rejected. */
  lemma EmptyNameRejected(m: map<string, Json>)
    requires "name" in m && m["name"] == JStr("")
    ensures ParseWorkflow(JObj(m)).Err?
    ensures Issue(TooSmall, [Key("name")]) in ParseWorkflow(JObj(m)).error
  {
    assert NameIssues(m) == [Issue(TooSmall, [Key("name")])];
  }

  /** A single invalid action rejects the whole workflow, and its issues are all reported. */
  lemma InvalidActionRejectsWorkflow(m: map<string, Json>, i: nat)
    requires "actions" in m && m["actions"].JArr? && i < |m["actions"].items|
    requires ParseActionAt(m["actions"].items[i], ItemPath(i)).Err?
    ensures ParseWorkflow(JObj(m)).Err?
    ensures multiset(ParseActionAt(m["actions"].items[i], ItemPath(i)).error) <= multiset(ParseWorkflow(JObj(m)).error)
  {
    var items := m["actions"].items;
    ParseActionsErrors(items, i);
    var a := NameIssues(m);
    var b := ActionsIssues(m);
    var c := ConfigIssues(m);
    assert multiset(a + b + c) == multiset(a) + multiset(b) + multiset(c);
  }

  // ---------------------------------------------------------------------------------------------
  // The two entry points

  function SegmentText(s: Segment): string
  {
    match s
    case Key(k) => k
    case Idx(i) => NatToString(i)
  }

  /** `path.join('.')`. */
  function JoinPath(path: seq<Segment>): string
  {
    Join(seq(|path|, i requires 0 <= i < |path| => SegmentText(path[i])), ".")
  }

  /** An issue path below element `i` of `actions` is reported as `actions.<i>` or below it. */
  lemma ItemFieldText(i: nat, rest: seq<Segment>)
    ensures JoinPath(ItemPath(i) + rest)
         == "actions." + NatToString(i) + (if rest == [] then "" else "." + JoinPath(rest))
  {
    var p := ItemPath(i) + rest;
    var parts := seq(|p|, j requires 0 <= j < |p| => SegmentText(p[j]));
    var head := ["actions", NatToString(i)];
    var tail := seq(|rest|, j requires 0 <= j < |rest| => SegmentText(rest[j]));
    assert parts == head + tail;
    assert Join(head, ".") == "actions." + NatToString(i) by {
      assert head[..1] == ["actions"];
    }
    if rest != [] {
      JoinAppend(head, tail, ".");
    } else {
      assert parts == head;
    }
  }

  /** What a reported error says: a schema issue, or the fallback for any other failure. */
  datatype Message = IssueMessage(code: IssueCode) | UnknownValidationError

  datatype ValidationError = ValidationError(message: Message, actionIndex: Option<int>, field: Option<string>)

  datatype Report<T> = Valid(data: T) | Invalid(errors: seq<ValidationError>)

  /** How a `parse` call ended: with data, with schema issues, or with some other exception. */
  datatype ParseOutcome<T> = Parsed(value: T) | SchemaFailure(issues: seq<Issue>) | OtherFailure

  function Outcome<T>(r: Result<T, seq<Issue>>): ParseOutcome<T>
  {
    match r
    case Ok(x) => Parsed(x)
    case Err(e) => SchemaFailure(e)
  }

  function IssueError(issue: Issue, index: Option<int>): ValidationError
  {
    ValidationError(IssueMessage(issue.code), index, Some(JoinPath(issue.path)))
  }

  /** The catch block of both entry points: each schema issue becomes one error carrying the
      index and the joined path; any other failure becomes one 'Unknown validation error'. */
  function ReportOf<T>(o: ParseOutcome<T>, index: Option<int>): (r: Report<T>)
    ensures r.Valid? <==> o.Parsed?
    ensures o.Parsed? ==> r.data == o.value
    ensures o.SchemaFailure? ==> |r.errors| == |o.issues|
    ensures o.SchemaFailure? ==>
      forall i :: 0 <= i < |o.issues| ==>
        && r.errors[i].message == IssueMessage(o.issues[i].code)
        && r.errors[i].actionIndex == index
        && r.errors[i].field == Some(JoinPath(o.issues[i].path))
    ensures o.OtherFailure? ==> r.errors == [ValidationError(UnknownValidationError, index, None)]
  {
    match o
    case Parsed(x) => Valid(x)
    case SchemaFailure(issues) => Invalid(seq(|issues|, i requires 0 <= i < |issues| => IssueError(issues[i], index)))
    case OtherFailure => Invalid([ValidationError(UnknownValidationError, index, None)])
  }

  function ValidateAction(v: Json, index: Option<int>): Report<Action>
  {
    ReportOf(Outcome(ParseAction(v)), index)
  }

  function ValidateWorkflow(v: Json): Report<Workflow>
  {
    ReportOf(Outcome(ParseWorkflow(v)), None)
  }

  /** Every error `validateAction` reports carries the index it was given. */
  lemma ValidateActionTagsIndex(v: Json, index: Option<int>)
    ensures ValidateAction(v, index).Valid? <==> ParseAction(v).Ok?
    ensures ValidateAction(v, index).Valid? ==> ValidAction(ValidateAction(v, index).data)
    ensures ValidateAction(v, index).Invalid? ==>
      |ValidateAction(v, index).errors| > 0 &&
      forall i :: 0 <= i < |ValidateAction(v, index).errors| ==> ValidateAction(v, index).errors[i].actionIndex == index
  {
    if ParseAction(v).Ok? {
      ActionSound(v, []);
    }
  }

  /** An action that fails its schema makes the workflow invalid, with an error whose field
      starts at `actions.<i>`. */
  lemma ValidateWorkflowRejectsInvalidAction(m: map<string, Json>, i: nat)
    requires "actions" in m && m["actions"].JArr? && i < |m["actions"].items|
    requires ParseActionAt(m["actions"].items[i], ItemPath(i)).Err?
    ensures ValidateWorkflow(JObj(m)).Invalid?
    ensures exists e :: e in ValidateWorkflow(JObj(m)).errors && e.field.Some? && StartsWith(e.field.value, "actions." + NatToString(i))
  {
    InvalidActionRejectsWorkflow(m, i);
    var item := ParseActionAt(m["actions"].items[i], ItemPath(i));
    ActionIssuesUnder(m["actions"].items[i], ItemPath(i));
    var issue := item.error[0];
    assert issue in multiset(ParseWorkflow(JObj(m)).error);
    var issues := ParseWorkflow(JObj(m)).error;
    var k :| 0 <= k < |issues| && issues[k] == issue;
    var rest := issue.path[2..];
    assert issue.path == ItemPath(i) + rest;
    ItemFieldText(i, rest);
    var e := ValidateWorkflow(JObj(m)).errors[k];
    assert e.field == Some(JoinPath(issue.path));
    assert StartsWith(e.field.value, "actions." + NatToString(i));
  }

  // Concrete cases

  lemma GotoWithoutUrl()
    ensures ValidateAction(JObj(map["type" := JStr("goto")]), Some(0))
         == Invalid([ValidationError(IssueMessage(Required), Some(0), Some("url"))])
  {
    var m := map["type" := JStr("goto")];
    TagNameRoundTrip(Goto, "goto");
    assert Discriminator(m) == Some(Goto);
    ActionIssuesSplit(Goto, m, []);
    BaseRoundTrip(Goto, Base(None, None, None), m, []);
    assert JoinPath([Key("url")]) == "url";
  }

  lemma NotAUrl()
    ensures !ValidUrl("not-a-url")
  {
    ColonInScheme("not-a-url"[1..]);
    assert "not-a-url"[1..] == "ot-a-url";
  }

  /** A parse failing with one issue is reported as one error at that issue's field. */
  lemma OneIssueReport(v: Json, index: Option<int>, issue: Issue, field: string)
    requires ParseAction(v) == Err([issue]) && JoinPath(issue.path) == field
    ensures ValidateAction(v, index) == Invalid([ValidationError(IssueMessage(issue.code), index, Some(field))])
  {
  }

  /** Each field of a variant is a part of the action's schema (what `FieldsIssues` needs). */
  ghost predicate VariantFieldsNested(t: ActionType)
  {
    forall i :: 0 <= i < |VariantFields(t)| ==> VariantFields(t)[i].schema < ActionSchema(t)
  }

  /** An action object whose base fields are absent fails with exactly the issues of its own fields. */
  lemma VariantIssuesOnly(t: ActionType, m: map<string, Json>, issues: seq<Issue>)
    requires VariantFieldsNested(t)
    requires "type" in m && m["type"] == JStr(TagName(t))
    requires "description" !in m && "skipVtt" !in m && "skipChapter" !in m
    requires FieldsIssues(m, VariantFields(t), ActionSchema(t), []) == issues && issues != []
    ensures ParseAction(JObj(m)) == Err(issues)
  {
    TagNameRoundTrip(t, TagName(t));
    assert Discriminator(m) == Some(t);
    ActionIssuesSplit(t, m, []);
    BaseRoundTrip(t, Base(None, None, None), m, []);
    assert Issues(JObj(m), ActionSchema(t), []) == issues;
  }

  lemma GotoBadUrlIssues(m: map<string, Json>)
    requires m == map["type" := JStr("goto"), "url" := JStr("not-a-url")]
    requires VariantFieldsNested(Goto)
    ensures FieldsIssues(m, VariantFields(Goto), ActionSchema(Goto), []) == [Issue(InvalidUrl, [Key("url")])]
  {
    NotAUrl();
    SingleCheckIssues("not-a-url", IsUrl, [] + [Key("url")]);
    assert [] + [Key("url")] == [Key("url")];
    var fs := VariantFields(Goto);
    assert FieldIssues(m, fs[0], ActionSchema(Goto), []) == [Issue(InvalidUrl, [Key("url")])];
  }

  lemma GotoWithBadUrl()
    ensures ValidateAction(JObj(map["type" := JStr("goto"), "url" := JStr("not-a-url")]), None)
         == Invalid([ValidationError(IssueMessage(InvalidUrl), None, Some("url"))])
  {
    var m := map["type" := JStr("goto"), "url" := JStr("not-a-url")];
    ActionIssuesSplit(Goto, m, []);
    GotoBadUrlIssues(m);
    VariantIssuesOnly(Goto, m, [Issue(InvalidUrl, [Key("url")])]);
    assert JoinPath([Key("url")]) == "url";
    OneIssueReport(JObj(m), None, Issue(InvalidUrl, [Key("url")]), "url");
  }

  lemma ClickEmptySelectorIssues(m: map<string, Json>)
    requires m == map["type" := JStr("click"), "selector" := JStr("")]
    requires VariantFieldsNested(Click)
    ensures FieldsIssues(m, VariantFields(Click), ActionSchema(Click), []) == [Issue(TooSmall, [Key("selector")])]
  {
    var fs := VariantFields(Click);
    SingleCheckIssues("", MinLength(1), [] + [Key("selector")]);
    assert [] + [Key("selector")] == [Key("selector")];
    assert FieldIssues(m, fs[0], ActionSchema(Click), []) == [Issue(TooSmall, [Key("selector")])];
  }

  lemma ClickWithEmptySelector()
    ensures ValidateAction(JObj(map["type" := JStr("click"), "selector" := JStr("")]), None)
         == Invalid([ValidationError(IssueMessage(TooSmall), None, Some("selector"))])
  {
    var m := map["type" := JStr("click"), "selector" := JStr("")];
    ActionIssuesSplit(Click, m, []);
    ClickEmptySelectorIssues(m);
    VariantIssuesOnly(Click, m, [Issue(TooSmall, [Key("selector")])]);
    assert JoinPath([Key("selector")]) == "selector";
    OneIssueReport(JObj(m), None, Issue(TooSmall, [Key("selector")]), "selector");
  }

  lemma BareScreenshotAccepted()
    ensures ValidateAction(JObj(map["type" := JStr("screenshot")]), None)
         == Valid(ScreenshotAction(Base(None, None, None), None, None, None))
  {
    var a := ScreenshotAction(Base(None, None, None), None, None, None);
    ScreenshotParts(a, map["type" := JStr("screenshot")], []);
  }

  lemma UnknownTypeRejected(name: string)
    requires ParseTag(name).None?
    ensures ValidateAction(JObj(map["type" := JStr(name)]), None)
         == Invalid([ValidationError(IssueMessage(InvalidDiscriminator), None, Some("type"))])
  {
    assert JoinPath([Key("type")]) == "type";
  }
}
