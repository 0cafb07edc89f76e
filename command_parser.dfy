/**
 * The command template scanner and the property resolver.
 *
 * A template is text with commands such as {edit.text}; every command is
 * replaced by the text of a property of a widget of the current form.
 * The widget tree is an abstract lookup: a widget name maps to the ordered
 * list of properties of the widget's form description, or to None when no
 * form description could be built for it; a name that is absent from the
 * map names no widget.
 */
module CommandParser {
  import opened Strings

  const Opened: char := '{'
  const Closed: char := '}'
  const Escaped: char := '\\'
  const Separator: char := '.'

  /** The value of one property of a form description, one case per kind.
      Floating-point values carry the text they are formatted to. */
  datatype PropertyValue =
    | Bool(text: string)
    | Color(red: int, green: int, blue: int)
    | Cstring(text: string)
    | Cursor(number: int)
    | CursorShape(text: string)
    | Enum(text: string)
    | Font(family: string, pointSize: int, weight: int, italic: bool, bold: bool,
           underline: bool, strikeOut: bool, antialiasing: bool,
           styleStrategy: string, kerning: bool)
    | IconSet(normalOff: string, normalOn: string, disabledOff: string, disabledOn: string,
              activeOff: string, activeOn: string, selectedOff: string, selectedOn: string)
    | Pixmap(text: string)
    | Point(x: int, y: int)
    | Rect(x: int, y: int, width: int, height: int)
    | Set(text: string)
    | Locale(text: string)
    | SizePolicy(hSizeType: int, vSizeType: int, horStretch: int, verStretch: int)
    | Size(width: int, height: int)
    | String(text: string)
    | StringList(items: seq<string>)
    | Number(number: int)
    | Float(formatted: string)
    | Double(formatted: string)
    | Date(year: int, month: int, day: int)
    | Time(hour: int, minute: int, second: int)
    | DateTime(hour: int, minute: int, second: int, year: int, month: int, day: int)
    | PointF(xText: string, yText: string)
    | RectF(xText: string, yText: string, widthText: string, heightText: string)
    | SizeF(widthText: string, heightText: string)
    | LongLong(number: int)
    | Char(number: int)
    | Url(text: string)
    | UInt(unsigned: nat)
    | ULongLong(unsigned: nat)
    | Palette
    | Brush
    | Unknown

  datatype Property = Property(name: string, value: PropertyValue)

  type WidgetTree = map<string, Option<seq<Property>>>

  /** The sentinel for a command that cannot be resolved: the command put
      back between its braces. */
  function BadResult(command: string): (r: string)
    ensures |r| == |command| + 2 && r[0] == Opened && r[|r| - 1] == Closed
    ensures r[1..|r| - 1] == command
  {
    [Opened] + command + [Closed]
  }

  function TrueFalse(b: bool): string {
    if b then "true" else "false"
  }

  // ---------------------------------------------------------------------
  // Elements of the composite kinds
  // ---------------------------------------------------------------------

  const ColorNames: set<string> := {"red", "green", "blue"}
  const FontNames: set<string> := {"family", "pointsize", "weight", "italic", "bold",
    "underline", "strikeout", "antialiasing", "stylestrategy", "kerning"}
  const IconSetNames: set<string> := {"normaloff", "normalon", "disabledoff", "disabledon",
    "activeoff", "activeon", "selectedoff", "selectedon"}
  const PointNames: set<string> := {"x", "y"}
  const RectNames: set<string> := {"x", "y", "width", "height"}
  const SizePolicyNames: set<string> := {"hsizetype", "vsizetype", "horstretch", "verstretch"}
  const SizeNames: set<string> := {"width", "height"}
  const DateNames: set<string> := {"year", "month", "day"}
  const TimeNames: set<string> := {"hour", "minute", "second"}
  const DateTimeNames: set<string> := {"hour", "minute", "second", "year", "month", "day"}

  function ColorElement(v: PropertyValue, element: string): (r: Option<string>)
    requires v.Color?
    ensures r.Some? <==> element in ColorNames
  {
    if element == "red" then Some(NumberText(v.red))
    else if element == "green" then Some(NumberText(v.green))
    else if element == "blue" then Some(NumberText(v.blue))
    else None
  }

  function FontElement(v: PropertyValue, element: string): (r: Option<string>)
    requires v.Font?
    ensures r.Some? <==> element in FontNames
  {
    if element == "family" then Some(v.family)
    else if element == "pointsize" then Some(NumberText(v.pointSize))
    else if element == "weight" then Some(NumberText(v.weight))
    else if element == "italic" then Some(TrueFalse(v.italic))
    else if element == "bold" then Some(TrueFalse(v.bold))
    else if element == "underline" then Some(TrueFalse(v.underline))
    else if element == "strikeout" then Some(TrueFalse(v.strikeOut))
    else if element == "antialiasing" then Some(TrueFalse(v.antialiasing))
    else if element == "stylestrategy" then Some(v.styleStrategy)
    else if element == "kerning" then Some(TrueFalse(v.kerning))
    else None
  }

  function IconSetElement(v: PropertyValue, element: string): (r: Option<string>)
    requires v.IconSet?
    ensures r.Some? <==> element in IconSetNames
  {
    if element == "normaloff" then Some(v.normalOff)
    else if element == "normalon" then Some(v.normalOn)
    else if element == "disabledoff" then Some(v.disabledOff)
    else if element == "disabledon" then Some(v.disabledOn)
    else if element == "activeoff" then Some(v.activeOff)
    else if element == "activeon" then Some(v.activeOn)
    else if element == "selectedoff" then Some(v.selectedOff)
    else if element == "selectedon" then Some(v.selectedOn)
    else None
  }

  function PointElement(v: PropertyValue, element: string): (r: Option<string>)
    requires v.Point?
    ensures r.Some? <==> element in PointNames
  {
    if element == "x" then Some(NumberText(v.x))
    else if element == "y" then Some(NumberText(v.y))
    else None
  }

  function RectElement(v: PropertyValue, element: string): (r: Option<string>)
    requires v.Rect?
    ensures r.Some? <==> element in RectNames
  {
    if element == "x" then Some(NumberText(v.x))
    else if element == "y" then Some(NumberText(v.y))
    else if element == "width" then Some(NumberText(v.width))
    else if element == "height" then Some(NumberText(v.height))
    else None
  }

  function SizePolicyElement(v: PropertyValue, element: string): (r: Option<string>)
    requires v.SizePolicy?
    ensures r.Some? <==> element in SizePolicyNames
  {
    if element == "hsizetype" then Some(NumberText(v.hSizeType))
    else if element == "vsizetype" then Some(NumberText(v.vSizeType))
    else if element == "horstretch" then Some(NumberText(v.horStretch))
    else if element == "verstretch" then Some(NumberText(v.verStretch))
    else None
  }

  function SizeElement(v: PropertyValue, element: string): (r: Option<string>)
    requires v.Size?
    ensures r.Some? <==> element in SizeNames
  {
    if element == "width" then Some(NumberText(v.width))
    else if element == "height" then Some(NumberText(v.height))
    else None
  }

  function DateElement(v: PropertyValue, element: string): (r: Option<string>)
    requires v.Date?
    ensures r.Some? <==> element in DateNames
  {
    if element == "year" then Some(NumberText(v.year))
    else if element == "month" then Some(NumberText(v.month))
    else if element == "day" then Some(NumberText(v.day))
    else None
  }

  function TimeElement(v: PropertyValue, element: string): (r: Option<string>)
    requires v.Time?
    ensures r.Some? <==> element in TimeNames
  {
    if element == "hour" then Some(NumberText(v.hour))
    else if element == "minute" then Some(NumberText(v.minute))
    else if element == "second" then Some(NumberText(v.second))
    else None
  }

  function DateTimeElement(v: PropertyValue, element: string): (r: Option<string>)
    requires v.DateTime?
    ensures r.Some? <==> element in DateTimeNames
  {
    if element == "hour" then Some(NumberText(v.hour))
    else if element == "minute" then Some(NumberText(v.minute))
    else if element == "second" then Some(NumberText(v.second))
    else if element == "year" then Some(NumberText(v.year))
    else if element == "month" then Some(NumberText(v.month))
    else if element == "day" then Some(NumberText(v.day))
    else None
  }

  function PointFElement(v: PropertyValue, element: string): (r: Option<string>)
    requires v.PointF?
    ensures r.Some? <==> element in PointNames
  {
    if element == "x" then Some(v.xText)
    else if element == "y" then Some(v.yText)
    else None
  }

  function RectFElement(v: PropertyValue, element: string): (r: Option<string>)
    requires v.RectF?
    ensures r.Some? <==> element in RectNames
  {
    if element == "x" then Some(v.xText)
    else if element == "y" then Some(v.yText)
    else if element == "width" then Some(v.widthText)
    else if element == "height" then Some(v.heightText)
    else None
  }

  function SizeFElement(v: PropertyValue, element: string): (r: Option<string>)
    requires v.SizeF?
    ensures r.Some? <==> element in SizeNames
  {
    if element == "width" then Some(v.widthText)
    else if element == "height" then Some(v.heightText)
    else None
  }

  /** The kinds that are read through a third, element token. */
  predicate IsComposite(v: PropertyValue) {
    || v.Color? || v.Font? || v.IconSet? || v.Point? || v.Rect? || v.SizePolicy?
    || v.Size? || v.Date? || v.Time? || v.DateTime? || v.PointF? || v.RectF? || v.SizeF?
  }

  /** The element names a composite kind accepts. */
  function ElementNames(v: PropertyValue): set<string>
    requires IsComposite(v)
  {
    if v.Color? then ColorNames
    else if v.Font? then FontNames
    else if v.IconSet? then IconSetNames
    else if v.Point? || v.PointF? then PointNames
    else if v.Rect? || v.RectF? then RectNames
    else if v.SizePolicy? then SizePolicyNames
    else if v.Size? || v.SizeF? then SizeNames
    else if v.Date? then DateNames
    else if v.Time? then TimeNames
    else DateTimeNames
  }

  /** The value of one element of a composite property. */
  function Element(v: PropertyValue, element: string): (r: Option<string>)
    requires IsComposite(v)
    ensures r.Some? <==> element in ElementNames(v)
  {
    if v.Color? then ColorElement(v, element)
    else if v.Font? then FontElement(v, element)
    else if v.IconSet? then IconSetElement(v, element)
    else if v.Point? then PointElement(v, element)
    else if v.Rect? then RectElement(v, element)
    else if v.SizePolicy? then SizePolicyElement(v, element)
    else if v.Size? then SizeElement(v, element)
    else if v.Date? then DateElement(v, element)
    else if v.Time? then TimeElement(v, element)
    else if v.DateTime? then DateTimeElement(v, element)
    else if v.PointF? then PointFElement(v, element)
    else if v.RectF? then RectFElement(v, element)
    else SizeFElement(v, element)
  }

  /** A composite property needs a third token; it names the element
      regardless of letter case. */
  function Composite(v: PropertyValue, command: string, tokens: seq<string>): string
    requires IsComposite(v)
  {
    if |tokens| < 3 then BadResult(command)
    else match Element(v, ToLower(tokens[2]))
      case Some(t) => t
      case None => BadResult(command)
  }

  /** The kinds whose text is the value itself. */
  predicate IsScalar(v: PropertyValue) {
    !IsComposite(v) && !v.Palette? && !v.Brush? && !v.Unknown?
  }

  /** The text of a property of a kind that has no elements. */
  function ScalarText(v: PropertyValue): string
    requires IsScalar(v)
  {
    match v
    case Bool(t) => t
    case Cstring(t) => t
    case Cursor(n) => NumberText(n)
    case CursorShape(t) => t
    case Enum(t) => t
    case Pixmap(t) => t
    case Set(t) => t
    case Locale(t) => t
    case String(t) => t
    case StringList(items) => Join(items, ',')
    case Number(n) => NumberText(n)
    case Float(t) => t
    case Double(t) => t
    case LongLong(n) => NumberText(n)
    case Char(n) => NumberText(n)
    case Url(t) => t
    case UInt(n) => NumberText(n)
    case ULongLong(n) => NumberText(n)
  }

  /** The text of a property, chosen by its kind. */
  function Dispatch(v: PropertyValue, command: string, tokens: seq<string>): (r: string)
    ensures v.Palette? || v.Brush? || v.Unknown? ==> r == BadResult(command)
    ensures IsComposite(v) && |tokens| < 3 ==> r == BadResult(command)
    ensures IsComposite(v) && |tokens| >= 3 && ToLower(tokens[2]) !in ElementNames(v) ==>
      r == BadResult(command)
    ensures IsComposite(v) && |tokens| >= 3 && ToLower(tokens[2]) in ElementNames(v) ==>
      Some(r) == Element(v, ToLower(tokens[2]))
  {
    if v.Palette? || v.Brush? || v.Unknown? then BadResult(command)
    else if IsComposite(v) then Composite(v, command, tokens)
    else ScalarText(v)
  }

  // ---------------------------------------------------------------------
  // Resolving one command
  // ---------------------------------------------------------------------

  /** The position of the first property called name. */
  function FindProperty(props: seq<Property>, name: string): (r: Option<nat>)
    ensures r.None? ==> forall i :: 0 <= i < |props| ==> props[i].name != name
    ensures r.Some? ==> r.value < |props| && props[r.value].name == name
    ensures r.Some? ==> forall j :: 0 <= j < r.value ==> props[j].name != name
  {
    if props == [] then None
    else if props[0].name == name then Some(0)
    else match FindProperty(props[1..], name)
      case None => None
      case Some(i) => Some(i + 1)
  }

  /** The text of the first property called name, or the sentinel. */
  function Lookup(props: seq<Property>, name: string, command: string, tokens: seq<string>): string {
    match FindProperty(props, name)
    case None => BadResult(command)
    case Some(i) => Dispatch(props[i].value, command, tokens)
  }

  /** What a command resolves to: its first token names the widget, its
      second the property, a third the element of a composite property. */
  function Resolved(tree: WidgetTree, command: string): string {
    var tokens := Split(command, Separator);
    var widgetName := if |tokens| >= 1 then tokens[0] else [];
    var propertyName := if |tokens| >= 2 then tokens[1] else [];
    if widgetName == [] || propertyName == [] then BadResult(command)
    else if widgetName !in tree || tree[widgetName].None? then BadResult(command)
    else Lookup(tree[widgetName].value, propertyName, command, tokens)
  }

  // ---------------------------------------------------------------------
  // The scanner, one character at a time
  // ---------------------------------------------------------------------

  /** The scanner's variables: text produced, command text being captured,
      whether a command is being captured, whether an escaped brace is due. */
  datatype ScanState = ScanState(result: string, item: string, fetch: bool, escape: bool)

  const Idle := ScanState([], [], false, false)

  /** The effect of the character at position i. */
  function Step(resolve: string -> string, input: string, i: nat, st: ScanState): ScanState
    requires i < |input|
  {
    var c := input[i];
    if c == Escaped && i + 1 < |input| && input[i + 1] == Opened && !st.fetch then
      st.(escape := true)
    else if c == Opened && !st.fetch && !st.escape then
      st.(fetch := true)
    else if c == Closed && st.fetch then
      st.(result := st.result + resolve(st.item), item := [], fetch := false)
    else
      var st' := if c == Opened || c == Closed then st.(escape := false) else st;
      if st'.fetch then st'.(item := st'.item + [c]) else st'.(result := st'.result + [c])
  }

  /** The scanner's variables after the first n characters. */
  function ScanTo(resolve: string -> string, input: string, n: nat): ScanState
    requires n <= |input|
  {
    if n == 0 then Idle else Step(resolve, input, n - 1, ScanTo(resolve, input, n - 1))
  }

  /** An unterminated command is put back as its brace and captured text. */
  function Finish(st: ScanState): string {
    if st.fetch then st.result + [Opened] + st.item else st.result
  }

  /** The markup escapes: [[ becomes < and then ]] becomes >. */
  function Brackets(s: string): string {
    ReplacePair(ReplacePair(s, '[', '<'), ']', '>')
  }

  /** A template read in one pass, independent of the scanner's variables:
      \{ is a literal brace, {X} is what X resolves to, a brace without a
      closing one is kept together with the rest of the text. */
  function Reference(resolve: string -> string, s: string): string
    decreases |s|
  {
    if s == [] then []
    else if |s| >= 2 && s[0] == Escaped && s[1] == Opened then [Opened] + Reference(resolve, s[2..])
    else if s[0] == Opened then
      match IndexOf(s[1..], Closed)
      case None => s
      case Some(k) => resolve(s[1..1 + k]) + Reference(resolve, s[2 + k..])
    else [s[0]] + Reference(resolve, s[1..])
  }

  /** The resolver the scanner hands each command to. */
  function ResolverOf(tree: WidgetTree): string -> string {
    command => Resolved(tree, command)
  }

  /** The result of parsing input against the form root: without a form or
      without input the input is returned as it is, otherwise commands are
      resolved and markup escapes replaced. */
  function ParsedInput(root: Option<WidgetTree>, input: string): (r: string)
    ensures input == [] || root.None? ==> r == input
    ensures root.Some? ==> r == Brackets(Reference(ResolverOf(root.value), input))
  {
    if input == [] || root.None? then input
    else
      var resolve := ResolverOf(root.value);
      ScanFollowsReference(resolve, input, 0, []);
      assert input[0..] == input;
      assert [] + Reference(resolve, input) == Reference(resolve, input);
      Brackets(Finish(ScanTo(resolve, input, |input|)))
  }

  lemma ScanStepPlain(resolve: string -> string, input: string, i: nat, res: string)
    requires i < |input| && input[i] != Opened
    requires !(input[i] == Escaped && i + 1 < |input| && input[i + 1] == Opened)
    requires ScanTo(resolve, input, i) == ScanState(res, [], false, false)
    ensures ScanTo(resolve, input, i + 1) == ScanState(res + [input[i]], [], false, false)
  {
  }

  lemma ScanStepEscape(resolve: string -> string, input: string, i: nat, res: string)
    requires i + 1 < |input| && input[i] == Escaped && input[i + 1] == Opened
    requires ScanTo(resolve, input, i) == ScanState(res, [], false, false)
    ensures ScanTo(resolve, input, i + 2) == ScanState(res + [Opened], [], false, false)
  {
    assert ScanTo(resolve, input, i + 1) == ScanState(res, [], false, true);
  }

  lemma ScanStepOpen(resolve: string -> string, input: string, i: nat, res: string)
    requires i < |input| && input[i] == Opened
    requires ScanTo(resolve, input, i) == ScanState(res, [], false, false)
    ensures ScanTo(resolve, input, i + 1) == ScanState(res, [], true, false)
  {
  }

  lemma ScanStepClose(resolve: string -> string, input: string, m: nat, res: string, item: string)
    requires m < |input| && input[m] == Closed
    requires ScanTo(resolve, input, m) == ScanState(res, item, true, false)
    ensures ScanTo(resolve, input, m + 1) == ScanState(res + resolve(item), [], false, false)
  {
  }

  lemma ScanStepCapture(resolve: string -> string, input: string, m: nat, res: string, item: string)
    requires m < |input| && input[m] != Closed
    requires ScanTo(resolve, input, m) == ScanState(res, item, true, false)
    ensures ScanTo(resolve, input, m + 1) == ScanState(res, item + [input[m]], true, false)
  {
  }

  lemma {:induction false} CaptureRun(resolve: string -> string, input: string, i: nat, m: nat, res: string)
    requires i < m <= |input|
    requires ScanTo(resolve, input, i + 1) == ScanState(res, [], true, false)
    requires forall j :: i < j < m ==> input[j] != Closed
    ensures ScanTo(resolve, input, m) == ScanState(res, input[i + 1..m], true, false)
    decreases m
  {
    if m > i + 1 {
      CaptureRun(resolve, input, i, m - 1, res);
      ScanStepCapture(resolve, input, m - 1, res, input[i + 1..m - 1]);
      assert input[i + 1..m] == input[i + 1..m - 1] + [input[m - 1]];
    } else {
      assert input[i + 1..m] == [];
    }
  }

  /** From an idle point the scanner produces what the reference reading
      of the rest of the input gives. */
  lemma {:induction false} ScanFollowsReference(resolve: string -> string, input: string, i: nat, res: string)
    requires i <= |input|
    requires ScanTo(resolve, input, i) == ScanState(res, [], false, false)
    ensures Finish(ScanTo(resolve, input, |input|)) == res + Reference(resolve, input[i..])
    decreases |input| - i, 2
  {
    if i == |input| {
      assert input[i..] == [];
    } else if i + 1 < |input| && input[i] == Escaped && input[i + 1] == Opened {
      EscapeFollowsReference(resolve, input, i, res);
    } else if input[i] == Opened {
      CommandFollowsReference(resolve, input, i, res);
    } else {
      PlainFollowsReference(resolve, input, i, res);
    }
  }

  lemma {:induction false} EscapeFollowsReference(resolve: string -> string, input: string, i: nat, res: string)
    requires i + 1 < |input| && input[i] == Escaped && input[i + 1] == Opened
    requires ScanTo(resolve, input, i) == ScanState(res, [], false, false)
    ensures Finish(ScanTo(resolve, input, |input|)) == res + Reference(resolve, input[i..])
    decreases |input| - i, 0
  {
    ScanStepEscape(resolve, input, i, res);
    ReferenceEscapeAt(resolve, input, i);
    ScanFollowsReference(resolve, input, i + 2, res + [Opened]);
    Regroup(Finish(ScanTo(resolve, input, |input|)), res, [Opened],
            Reference(resolve, input[i + 2..]), Reference(resolve, input[i..]));
  }

  lemma {:induction false} PlainFollowsReference(resolve: string -> string, input: string, i: nat, res: string)
    requires i < |input| && input[i] != Opened
    requires !(i + 1 < |input| && input[i] == Escaped && input[i + 1] == Opened)
    requires ScanTo(resolve, input, i) == ScanState(res, [], false, false)
    ensures Finish(ScanTo(resolve, input, |input|)) == res + Reference(resolve, input[i..])
    decreases |input| - i, 0
  {
    ScanStepPlain(resolve, input, i, res);
    ReferencePlainAt(resolve, input, i);
    ScanFollowsReference(resolve, input, i + 1, res + [input[i]]);
    Regroup(Finish(ScanTo(resolve, input, |input|)), res, [input[i]],
            Reference(resolve, input[i + 1..]), Reference(resolve, input[i..]));
  }

  lemma {:induction false} CommandFollowsReference(resolve: string -> string, input: string, i: nat, res: string)
    requires i < |input| && input[i] == Opened
    requires ScanTo(resolve, input, i) == ScanState(res, [], false, false)
    ensures Finish(ScanTo(resolve, input, |input|)) == res + Reference(resolve, input[i..])
    decreases |input| - i, 1
  {
    ScanStepOpen(resolve, input, i, res);
    var found := IndexOf(input[i + 1..], Closed);
    if found.None? {
      Unterminated(resolve, input, i, res);
    } else {
      ClosedCommandFollows(resolve, input, i, found.value, res);
    }
  }

  lemma {:induction false} ClosedCommandFollows(resolve: string -> string, input: string, i: nat, k: nat,
                                                res: string)
    requires i < |input| && input[i] == Opened
    requires ScanTo(resolve, input, i + 1) == ScanState(res, [], true, false)
    requires IndexOf(input[i + 1..], Closed) == Some(k)
    ensures Finish(ScanTo(resolve, input, |input|)) == res + Reference(resolve, input[i..])
    decreases |input| - i, 0
  {
    var m := i + 1 + k;
    var command := input[i + 1..m];
    Terminated(resolve, input, i, m, res);
    ScanFollowsReference(resolve, input, m + 1, res + resolve(command));
    Regroup(Finish(ScanTo(resolve, input, |input|)), res, resolve(command),
            Reference(resolve, input[m + 1..]), Reference(resolve, input[i..]));
  }

  lemma Reassociate(x: string, a: string, b: string, c: string)
    requires x == a + (b + c)
    ensures x == (a + b) + c
  {
  }

  lemma Regroup(x: string, a: string, b: string, c: string, y: string)
    requires x == (a + b) + c && y == b + c
    ensures x == a + y
  {
  }

  lemma ReferenceEscapeAt(resolve: string -> string, input: string, i: nat)
    requires i + 1 < |input| && input[i] == Escaped && input[i + 1] == Opened
    ensures Reference(resolve, input[i..]) == [Opened] + Reference(resolve, input[i + 2..])
  {
    var s := input[i..];
    assert s[0] == Escaped && s[1] == Opened && s[2..] == input[i + 2..];
  }

  lemma ReferencePlainAt(resolve: string -> string, input: string, i: nat)
    requires i < |input| && input[i] != Opened
    requires !(i + 1 < |input| && input[i] == Escaped && input[i + 1] == Opened)
    ensures Reference(resolve, input[i..]) == [input[i]] + Reference(resolve, input[i + 1..])
  {
    var s := input[i..];
    assert s[0] == input[i] && s[1..] == input[i + 1..];
  }

  lemma NotInSlice(input: string, lo: nat, hi: nat, c: char)
    requires lo <= hi <= |input| && c !in input[lo..hi]
    ensures forall j :: lo <= j < hi ==> input[j] != c
  {
    forall j | lo <= j < hi ensures input[j] != c {
      assert input[j] == input[lo..hi][j - lo];
    }
  }

  lemma Unterminated(resolve: string -> string, input: string, i: nat, res: string)
    requires i < |input| && input[i] == Opened
    requires ScanTo(resolve, input, i + 1) == ScanState(res, [], true, false)
    requires IndexOf(input[i + 1..], Closed).None?
    ensures Finish(ScanTo(resolve, input, |input|)) == res + Reference(resolve, input[i..])
  {
    UnterminatedScan(resolve, input, i, res);
    UnterminatedReference(resolve, input, i);
    Regroup(Finish(ScanTo(resolve, input, |input|)), res, [Opened], input[i + 1..],
            Reference(resolve, input[i..]));
  }

  lemma UnterminatedScan(resolve: string -> string, input: string, i: nat, res: string)
    requires i < |input|
    requires ScanTo(resolve, input, i + 1) == ScanState(res, [], true, false)
    requires Closed !in input[i + 1..]
    ensures Finish(ScanTo(resolve, input, |input|)) == res + [Opened] + input[i + 1..]
  {
    NotInSlice(input, i + 1, |input|, Closed);
    CaptureRun(resolve, input, i, |input|, res);
  }

  lemma UnterminatedReference(resolve: string -> string, input: string, i: nat)
    requires i < |input| && input[i] == Opened
    requires IndexOf(input[i + 1..], Closed).None?
    ensures Reference(resolve, input[i..]) == input[i..] == [Opened] + input[i + 1..]
  {
    var s := input[i..];
    assert s[0] == Opened && s[1..] == input[i + 1..];
  }


  /** A command closed at position m, the first closing brace after the
      opening one at i. */
  lemma Terminated(resolve: string -> string, input: string, i: nat, m: nat, res: string)
    requires i < m < |input| && input[i] == Opened
    requires ScanTo(resolve, input, i + 1) == ScanState(res, [], true, false)
    requires IndexOf(input[i + 1..], Closed) == Some(m - i - 1)
    ensures ScanTo(resolve, input, m + 1) == ScanState(res + resolve(input[i + 1..m]), [], false, false)
    ensures Reference(resolve, input[i..]) == resolve(input[i + 1..m]) + Reference(resolve, input[m + 1..])
  {
    TerminatedScan(resolve, input, i, m, res);
    TerminatedReference(resolve, input, i, m);
  }

  lemma TerminatedScan(resolve: string -> string, input: string, i: nat, m: nat, res: string)
    requires i < m < |input|
    requires ScanTo(resolve, input, i + 1) == ScanState(res, [], true, false)
    requires IndexOf(input[i + 1..], Closed) == Some(m - i - 1)
    ensures ScanTo(resolve, input, m + 1) == ScanState(res + resolve(input[i + 1..m]), [], false, false)
  {
    ClosedAt(input, i, m);
    CaptureRun(resolve, input, i, m, res);
    ScanStepClose(resolve, input, m, res, input[i + 1..m]);
  }

  /** Where the first closing brace after position i is. */
  lemma ClosedAt(input: string, i: nat, m: nat)
    requires i < m < |input| && IndexOf(input[i + 1..], Closed) == Some(m - i - 1)
    ensures input[m] == Closed
    ensures forall j :: i < j < m ==> input[j] != Closed
  {
    assert input[i + 1..][..m - i - 1] == input[i + 1..m];
    assert input[m] == input[i + 1..][m - i - 1];
    NotInSlice(input, i + 1, m, Closed);
  }

  lemma TerminatedReference(resolve: string -> string, input: string, i: nat, m: nat)
    requires i < m < |input| && input[i] == Opened
    requires IndexOf(input[i + 1..], Closed) == Some(m - i - 1)
    ensures Reference(resolve, input[i..]) == resolve(input[i + 1..m]) + Reference(resolve, input[m + 1..])
  {
    var s := input[i..];
    assert s[0] == Opened && s[1..] == input[i + 1..];
    assert s[1..1 + (m - i - 1)] == input[i + 1..m];
    assert s[2 + (m - i - 1)..] == input[m + 1..];
  }

  // ---------------------------------------------------------------------
  // The parser's methods
  // ---------------------------------------------------------------------

  /** The tokens of a command: every separator closes a token, even an
      empty one, and a final empty token is dropped. */
  method SplitCommand(command: string) returns (tokens: seq<string>)
    ensures tokens == Split(command, Separator)
  {
    var item: string := [];
    tokens := [];
    for i := 0 to |command|
      invariant SplitState(command[..i], Separator) == Pieces(tokens, item)
    {
      assert command[..i + 1][..i] == command[..i];
      if command[i] == Separator {
        tokens := tokens + [item];
        item := [];
      } else {
        item := item + [command[i]];
      }
    }
    assert command[..|command|] == command;
    if item != [] {
      tokens := tokens + [item];
    }
  }

  /** The items of a string list joined by commas, with no trailing comma. */
  method ParseStringList(items: seq<string>) returns (r: string)
    ensures r == Join(items, ',')
  {
    r := [];
    var n := |items|;
    for i := 0 to n
      invariant r == if i == 0 then [] else Join(items[..i], ',') + (if i < n then [','] else [])
    {
      if i == 0 {
        assert Join(items[..1], ',') == items[0];
      } else {
        assert items[..i + 1][..i] == items[..i];
      }
      r := r + items[i];
      if i + 1 < n {
        r := r + [','];
      }
    }
    assert items[..n] == items;
  }

  /** The text of the first property called name, or the sentinel when
      there is none. */
  method ParseProperty(props: seq<Property>, name: string, command: string, tokens: seq<string>)
    returns (result: string)
    ensures result == Lookup(props, name, command, tokens)
  {
    result := BadResult(command);
    var i := 0;
    while i < |props|
      invariant 0 <= i <= |props|
      invariant forall j :: 0 <= j < i ==> props[j].name != name
      invariant result == BadResult(command)
    {
      if props[i].name == name {
        var v := props[i].value;
        if v.StringList? {
          result := ParseStringList(v.items);
        } else {
          result := Dispatch(v, command, tokens);
        }
        assert FindProperty(props, name) == Some(i);
        return;
      }
      i := i + 1;
    }
  }

  /** One command, without braces, resolved against the form root. */
  method ParseCommand(root: Option<WidgetTree>, command: string) returns (r: string)
    ensures root.None? ==> r == BadResult(command)
    ensures root.Some? ==> r == Resolved(root.value, command)
  {
    if root.None? {
      return BadResult(command);
    }
    var tokens := SplitCommand(command);
    var widgetName := if |tokens| >= 1 then tokens[0] else [];
    var propertyName := if |tokens| >= 2 then tokens[1] else [];
    if widgetName == [] || propertyName == [] {
      return BadResult(command);
    }
    var tree := root.value;
    if widgetName !in tree {
      return BadResult(command);
    }
    var dom := tree[widgetName];
    if dom.None? {
      return BadResult(command);
    }
    r := ParseProperty(dom.value, propertyName, command, tokens);
  }

  /** A template with every command replaced by its value. */
  method Parse(root: Option<WidgetTree>, input: string) returns (r: string)
    ensures r == ParsedInput(root, input)
  {
    if input == [] || root.None? {
      return input;
    }
    ghost var resolve := ResolverOf(root.value);
    var result: string := [];
    var item: string := [];
    var fetch := false;
    var escape := false;
    for i := 0 to |input|
      invariant ScanTo(resolve, input, i) == ScanState(result, item, fetch, escape)
    {
      var c := input[i];
      if c == Escaped && i + 1 < |input| && input[i + 1] == Opened && !fetch {
        escape := true;
        continue;
      }
      if c == Opened {
        if !fetch && !escape {
          fetch := true;
          continue;
        }
        escape := false;
      }
      if c == Closed {
        if fetch {
          fetch := false;
          var value := ParseCommand(root, item);
          result := result + value;
          item := [];
          continue;
        }
        escape := false;
      }
      if fetch {
        item := item + [c];
        continue;
      }
      result := result + [c];
    }
    if fetch {
      result := result + [Opened] + item;
    }
    r := Brackets(result);
  }

  // ---------------------------------------------------------------------
  // Properties of the scanner
  // ---------------------------------------------------------------------

  /** Text without an opening brace reads as itself. */
  lemma {:induction false} ReferencePlain(resolve: string -> string, s: string)
    requires Opened !in s
    ensures Reference(resolve, s) == s
    decreases |s|
  {
    if s != [] {
      assert s[0] != Opened;
      if |s| >= 2 {
        assert s[1] != Opened;
      }
      assert forall c :: c in s[1..] ==> c in s;
      ReferencePlain(resolve, s[1..]);
    }
  }

  /** Plain text in front of the rest is copied, provided it does not end
      in the escape character. */
  lemma ReferencePrefix(resolve: string -> string, a: string, t: string)
    requires Opened !in a && (a == [] || a[|a| - 1] != Escaped)
    ensures Reference(resolve, a + t) == a + Reference(resolve, t)
  {
    var s := a + t;
    forall k | 0 <= k < |a| ensures s[k] != Opened {
      assert s[k] == a[k];
    }
    ReferenceFrom(resolve, s, 0, |a|);
    assert s[0..] == s && s[0..|a|] == a && s[|a|..] == t;
  }

  /** The plain run s[j..i] is copied as it is. */
  lemma {:induction false} ReferenceFrom(resolve: string -> string, s: string, j: nat, i: nat)
    requires j <= i <= |s|
    requires forall k :: j <= k < i ==> s[k] != Opened
    requires j == i || s[i - 1] != Escaped
    ensures Reference(resolve, s[j..]) == s[j..i] + Reference(resolve, s[i..])
    decreases i - j
  {
    if j < i {
      ReferencePlainAt(resolve, s, j);
      ReferenceFrom(resolve, s, j + 1, i);
      assert s[j..i] == [s[j]] + s[j + 1..i];
      Reassociate(Reference(resolve, s[j..]), [s[j]], s[j + 1..i], Reference(resolve, s[i..]));
    }
  }

  /** A template without an opening brace is only subject to the markup
      escapes; without a form it is not even that. */
  lemma NoCommandOnlyBrackets(tree: WidgetTree, s: string)
    requires Opened !in s
    ensures ParsedInput(Some(tree), s) == Brackets(s)
    ensures ParsedInput(None, s) == s
  {
    ReferencePlain(ResolverOf(tree), s);
  }

  /** An escaped brace is a literal brace and starts no command: \{x} reads
      as {x} whatever the form holds. */
  lemma EscapedBraceIsLiteral(tree: WidgetTree, literal: string)
    requires Opened !in literal
    ensures ParsedInput(Some(tree), [Escaped, Opened] + literal + [Closed]) ==
      Brackets([Opened] + literal + [Closed])
  {
    var resolve := ResolverOf(tree);
    var s := [Escaped, Opened] + literal + [Closed];
    assert s[2..] == literal + [Closed];
    assert Opened !in literal + [Closed];
    ReferencePlain(resolve, literal + [Closed]);
    assert Reference(resolve, s) == [Opened] + literal + [Closed];
  }

  lemma ReferenceClosedAt(resolve: string -> string, s: string, k: nat)
    requires k + 2 <= |s| && s[0] == Opened && s[k + 1] == Closed && Closed !in s[1..k + 1]
    ensures Reference(resolve, s) == resolve(s[1..k + 1]) + Reference(resolve, s[k + 2..])
  {
    assert s[1..][..k] == s[1..k + 1];
    IndexOfAt(s[1..], Closed, k);
  }

  lemma ReferenceRegion(resolve: string -> string, a: string, x: string, b: string)
    requires Opened !in a && (a == [] || a[|a| - 1] != Escaped)
    requires Closed !in x
    ensures Reference(resolve, a + [Opened] + x + [Closed] + b) == a + resolve(x) + Reference(resolve, b)
  {
    var t := [Opened] + x + [Closed] + b;
    assert t[1..|x| + 1] == x;
    assert t[|x| + 2..] == b;
    assert a + [Opened] + x + [Closed] + b == a + t;
    ReferenceClosedAt(resolve, t, |x|);
    ReferencePrefix(resolve, a, t);
  }

  /** A terminated command contributes exactly its resolution, without its
      braces; an opening brace inside it is part of the command text. */
  lemma CommandRegion(tree: WidgetTree, a: string, x: string, b: string)
    requires Opened !in a && (a == [] || a[|a| - 1] != Escaped)
    requires Closed !in x
    ensures ParsedInput(Some(tree), a + [Opened] + x + [Closed] + b) ==
      Brackets(a + Resolved(tree, x) + Reference(ResolverOf(tree), b))
  {
    ReferenceRegion(ResolverOf(tree), a, x, b);
  }

  /** A command left open at the end of the input is kept as written. */
  lemma UnterminatedCommandKept(tree: WidgetTree, a: string, x: string)
    requires Opened !in a && (a == [] || a[|a| - 1] != Escaped)
    requires Closed !in x
    ensures ParsedInput(Some(tree), a + [Opened] + x) == Brackets(a + [Opened] + x)
  {
    var resolve := ResolverOf(tree);
    var t := [Opened] + x;
    assert a + [Opened] + x == a + t;
    ReferencePrefix(resolve, a, t);
    assert t[1..] == x;
  }

  /** After the markup escapes no [[ or ]] remains, so applying them again
      changes nothing. */
  lemma BracketsLeaveNoPairs(s: string)
    ensures PairFree(Brackets(s), '[') && PairFree(Brackets(s), ']')
    ensures Brackets(Brackets(s)) == Brackets(s)
  {
    var t := ReplacePair(s, '[', '<');
    ReplacePairRemoves(s, '[', '<');
    ReplacePairKeeps(t, ']', '>', '[');
    ReplacePairRemoves(t, ']', '>');
    BracketsOfPairFree(Brackets(s));
  }

  lemma BracketsOfPairFree(s: string)
    requires PairFree(s, '[') && PairFree(s, ']')
    ensures Brackets(s) == s
  {
    ReplacePairAbsent(s, '[', '<');
    ReplacePairAbsent(s, ']', '>');
  }

  // ---------------------------------------------------------------------
  // Properties of the resolver
  // ---------------------------------------------------------------------

  /** Reading text only extends the pieces read before it. */
  lemma {:induction false} SplitStateExtends(p: string, q: string, sep: char)
    ensures var a := SplitState(p, sep).closed;
      var b := SplitState(p + q, sep).closed;
      |a| <= |b| && b[..|a|] == a
    decreases |q|
  {
    if q != [] {
      var q' := q[..|q| - 1];
      assert (p + q)[..|p + q| - 1] == p + q';
      SplitStateExtends(p, q', sep);
    } else {
      assert p + q == p;
    }
  }

  /** A word followed by a separator is one closed piece. */
  lemma WordThenSeparator(w: string, sep: char)
    requires sep !in w
    ensures SplitState(w + [sep], sep) == Pieces([w], [])
  {
    SplitStateAppend([], w, sep);
    assert [] + w == w;
    SplitStateSep(w, sep);
  }

  /** Reading w.v leaves w closed and v open. */
  lemma TwoWords(w: string, v: string)
    requires Separator !in w && Separator !in v
    ensures SplitState(w + [Separator] + v, Separator) == Pieces([w], v)
  {
    WordThenSeparator(w, Separator);
    SplitStateAppend(w + [Separator], v, Separator);
  }

  /** The tokens of w.v followed by a separator and more text start with
      w and v. */
  lemma MoreTokens(w: string, v: string, rest: string)
    requires Separator !in w && Separator !in v
    requires rest != [] && rest[0] == Separator
    ensures var tokens := Split(w + [Separator] + v + rest, Separator);
      |tokens| >= 2 && tokens[0] == w && tokens[1] == v
  {
    var sep := Separator;
    var p := w + [sep] + v;
    TwoWords(w, v);
    SplitStateSep(p, sep);
    assert SplitState(p + [sep], sep).closed == [w, v];
    SplitStateExtends(p + [sep], rest[1..], sep);
    assert p + [sep] + rest[1..] == p + rest;
    var all := SplitState(p + rest, sep);
    assert all.closed[..2] == [w, v];
    var tokens := Split(p + rest, sep);
    assert tokens[..|all.closed|] == all.closed;
  }

  /** The first two tokens of w.v followed by nothing or by a separator. */
  lemma CommandTokens(w: string, v: string, rest: string)
    requires Separator !in w && Separator !in v
    requires rest == [] || rest[0] == Separator
    ensures var tokens := Split(w + [Separator] + v + rest, Separator);
      |tokens| >= 1 && tokens[0] == w &&
      (v != [] ==> |tokens| >= 2 && tokens[1] == v) &&
      (v == [] ==> |tokens| < 2 || tokens[1] == [])
  {
    if rest == [] {
      TwoWords(w, v);
      assert w + [Separator] + v + rest == w + [Separator] + v;
    } else {
      MoreTokens(w, v, rest);
    }
  }

  /** The widget name is the text before the first separator, the property
      name the text up to the next one; either missing gives the sentinel. */
  lemma CommandNames(tree: WidgetTree, w: string, v: string, rest: string)
    requires Separator !in w && Separator !in v
    requires rest == [] || rest[0] == Separator
    ensures var command := w + [Separator] + v + rest;
      Resolved(tree, command) ==
        if w == [] || v == [] || w !in tree || tree[w].None? then BadResult(command)
        else Lookup(tree[w].value, v, command, Split(command, Separator))
  {
    CommandTokens(w, v, rest);
  }

  /** A command without a separator names no property. */
  lemma NoSeparatorIsBad(tree: WidgetTree, command: string)
    requires Separator !in command
    ensures Resolved(tree, command) == BadResult(command)
  {
    SplitWithoutSep(command, Separator);
  }

  /** Only the first property with the requested name is consulted. */
  lemma FirstMatchWins(before: seq<Property>, p: Property, after: seq<Property>,
                       command: string, tokens: seq<string>)
    requires forall q :: q in before ==> q.name != p.name
    ensures Lookup(before + [p] + after, p.name, command, tokens) == Dispatch(p.value, command, tokens)
  {
    var props := before + [p] + after;
    forall j | 0 <= j < |before| ensures props[j].name != p.name {
      assert props[j] == before[j];
    }
    assert props[|before|] == p;
  }

  /** The element token is compared without regard to letter case, and
      nothing beyond it matters. */
  lemma ElementCaseInsensitive(v: PropertyValue, command: string, t1: seq<string>, t2: seq<string>)
    requires |t1| >= 3 && |t2| >= 3 && ToLower(t1[2]) == ToLower(t2[2])
    ensures Dispatch(v, command, t1) == Dispatch(v, command, t2)
  {
  }

  // ---------------------------------------------------------------------
  // Worked examples
  // ---------------------------------------------------------------------

  /** A form with a button btn whose text is OK and whose colour is (10, 20, 30). */
  function ButtonForm(): WidgetTree {
    map["btn" := Some([Property("text", String("OK")), Property("color", Color(10, 20, 30))])]
  }

  /** A template that is one command reads as that command's resolution. */
  lemma SingleCommand(tree: WidgetTree, input: string, command: string, out: string)
    requires input == [Opened] + command + [Closed] && Closed !in command
    requires Resolved(tree, command) == out && PairFree(out, '[') && PairFree(out, ']')
    ensures ParsedInput(Some(tree), input) == out
  {
    OneCommand(ResolverOf(tree), input, command);
    BracketsOfPairFree(out);
  }

  /** A template that is one command reads as what the command resolves to. */
  lemma OneCommand(resolve: string -> string, input: string, command: string)
    requires input == [Opened] + command + [Closed] && Closed !in command
    ensures Reference(resolve, input) == resolve(command)
  {
    assert input == [] + [Opened] + command + [Closed] + [];
    ReferenceRegion(resolve, [], command, []);
    assert Reference(resolve, []) == [];
    assert [] + resolve(command) + [] == resolve(command);
  }

  /** The command btn.text reads the text of btn. */
  lemma TextCommand(tree: WidgetTree, command: string)
    requires tree == ButtonForm() && command == "btn.text"
    ensures Resolved(tree, command) == "OK"
  {
    TextNames(command);
    CommandNames(tree, "btn", "text", []);
    TextLookup(tree, command, Split(command, Separator));
  }

  lemma TextNames(command: string)
    requires command == "btn.text"
    ensures command == "btn" + [Separator] + "text" + []
    ensures Separator !in "btn" && Separator !in "text"
  {
  }

  lemma TextLookup(tree: WidgetTree, command: string, tokens: seq<string>)
    requires tree == ButtonForm()
    ensures "btn" in tree && tree["btn"].Some?
    ensures Lookup(tree["btn"].value, "text", command, tokens) == "OK"
  {
    assert FindProperty(tree["btn"].value, "text") == Some(0);
  }

  /** {btn.text} reads the text property of btn. */
  lemma TextExample(tree: WidgetTree, input: string)
    requires tree == ButtonForm() && input == "{btn.text}"
    ensures ParsedInput(Some(tree), input) == "OK"
  {
    var command := input[1..|input| - 1];
    TextInput(input, command);
    TextCommand(tree, command);
    PlainBrackets("OK");
    SingleCommand(tree, input, command, "OK");
  }

  lemma TextInput(input: string, command: string)
    requires input == "{btn.text}" && command == input[1..|input| - 1]
    ensures input == [Opened] + command + [Closed] && Closed !in command
    ensures command == "btn.text"
  {
    assert input == [Opened] + command + [Closed];
  }

  /** Text with no square bracket has no markup escape. */
  lemma PlainBrackets(s: string)
    requires s == "OK" || s == "20"
    ensures PairFree(s, '[') && PairFree(s, ']')
  {
  }

  /** The tokens of btn.color.e are btn, color and e. */
  lemma ColorTokens(command: string, element: string)
    requires element != [] && Separator !in element
    requires command == "btn.color." + element
    ensures Split(command, Separator) == ["btn", "color", element]
  {
    var pieces := ["btn", "color", element];
    assert pieces[..2][..1] == ["btn"];
    assert pieces[..2] == ["btn", "color"];
    assert Join(pieces[..2], Separator) == "btn.color";
    assert Join(pieces, Separator) == command;
    assert SepFree(pieces, Separator);
    SplitJoin(pieces, Separator);
  }

  /** The command btn.color.e reads element e of the colour of btn. */
  lemma ColorCommand(tree: WidgetTree, command: string, element: string)
    requires tree == ButtonForm()
    requires element != [] && Separator !in element
    requires command == "btn.color." + element
    ensures Resolved(tree, command) == Composite(Color(10, 20, 30), command, ["btn", "color", element])
  {
    ColorTokens(command, element);
    assert command == "btn" + [Separator] + "color" + ([Separator] + element);
    CommandNames(tree, "btn", "color", [Separator] + element);
    assert FindProperty(tree["btn"].value, "color") == Some(1);
  }

  /** The command btn.color.green reads the green component of btn. */
  lemma GreenCommand(tree: WidgetTree, command: string, element: string)
    requires tree == ButtonForm() && element == "green" && command == "btn.color." + element
    ensures Resolved(tree, command) == "20"
  {
    ColorCommand(tree, command, element);
    assert ToLower(element) == element;
    assert NatText(20) == NatText(2) + [DigitChar(0)];
  }

  /** {btn.color.green} reads the green component of the colour of btn. */
  lemma GreenExample(tree: WidgetTree, input: string)
    requires tree == ButtonForm() && input == "{btn.color.green}"
    ensures ParsedInput(Some(tree), input) == "20"
  {
    var command := input[1..|input| - 1];
    GreenInput(input, command);
    GreenCommand(tree, command, "green");
    PlainBrackets("20");
    SingleCommand(tree, input, command, "20");
  }

  lemma GreenInput(input: string, command: string)
    requires input == "{btn.color.green}" && command == input[1..|input| - 1]
    ensures input == [Opened] + command + [Closed] && Closed !in command
    ensures command == "btn.color." + "green"
  {
    assert input == [Opened] + command + [Closed];
    assert command == "btn.color." + "green";
  }

  /** The command btn.color.alpha names an element a colour does not have. */
  lemma AlphaCommand(tree: WidgetTree, command: string, element: string)
    requires tree == ButtonForm() && element == "alpha" && command == "btn.color." + element
    ensures Resolved(tree, command) == BadResult(command)
  {
    ColorCommand(tree, command, element);
    assert ToLower(element) == element;
    assert element !in ColorNames;
  }

  /** {btn.color.alpha} names an element a colour does not have, so the
      command comes back as written. */
  lemma AlphaExample(tree: WidgetTree, input: string)
    requires tree == ButtonForm() && input == "{btn.color.alpha}"
    ensures ParsedInput(Some(tree), input) == input
  {
    var command := input[1..|input| - 1];
    AlphaInput(input, command);
    AlphaCommand(tree, command, "alpha");
    AlphaBrackets(input);
    SingleCommand(tree, input, command, input);
  }

  lemma AlphaInput(input: string, command: string)
    requires input == "{btn.color.alpha}" && command == input[1..|input| - 1]
    ensures input == [Opened] + command + [Closed] && Closed !in command
    ensures command == "btn.color." + "alpha" && BadResult(command) == input
  {
    assert input == [Opened] + command + [Closed];
    assert command == "btn.color." + "alpha";
  }

  lemma AlphaBrackets(input: string)
    requires input == "{btn.color.alpha}"
    ensures PairFree(input, '[') && PairFree(input, ']')
  {
  }
}
