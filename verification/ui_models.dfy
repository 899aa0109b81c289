/** The server-driven UI tree: six component variants that nest through the
    `{type, component}` envelope, plus the screen that roots such a tree.
    The envelope's payload is the variant itself rather than its JSON
    encoding, so a wrapper whose tag disagrees with its payload is a
    checkable condition (`WellTagged`). */
module UIModels {
  import opened Base

  /** Four offsets, all zero unless given. */
  datatype Padding = Padding(top: int := 0, bottom: int := 0, start: int := 0, end: int := 0)

  /** Four offsets, all zero unless given. */
  datatype Margin = Margin(top: int := 0, bottom: int := 0, start: int := 0, end: int := 0)

  /** A client-side effect: `kind` is "navigate", "api" or "none". */
  datatype Action = Action(
    kind: string,
    url: Option<string> := None,
    data: Option<map<string, string>> := None)

  /** The six component variants. `kind` is the source's `type` property: a
      constructor argument whose default is the variant's own tag. */
  datatype Component =
    | Container(
        id: string,
        kind: string := "container",
        children: seq<Wrapper>,
        orientation: string := "vertical",
        padding: Option<Padding> := None,
        margin: Option<Margin> := None,
        backgroundColor: Option<string> := None,
        width: Option<string> := None,
        height: Option<string> := None,
        alignment: Option<string> := None,
        action: Option<Action> := None)
    | Text(
        id: string,
        kind: string := "text",
        text: string,
        textColor: Option<string> := None,
        textSize: Option<int> := None,
        textStyle: Option<string> := None,
        textAlign: Option<string> := None,
        padding: Option<Padding> := None,
        margin: Option<Margin> := None,
        maxLines: Option<int> := None)
    | Button(
        id: string,
        kind: string := "button",
        text: string,
        textColor: Option<string> := None,
        backgroundColor: Option<string> := None,
        padding: Option<Padding> := None,
        margin: Option<Margin> := None,
        action: Option<Action> := None,
        enabled: bool := true,
        style: Option<string> := None)
    | Image(
        id: string,
        kind: string := "image",
        url: Option<string> := None,
        resourceId: Option<string> := None,
        contentDescription: Option<string> := None,
        width: Option<string> := None,
        height: Option<string> := None,
        scaleType: Option<string> := None,
        padding: Option<Padding> := None,
        margin: Option<Margin> := None)
    | Input(
        id: string,
        kind: string := "input",
        hint: Option<string> := None,
        initialValue: Option<string> := None,
        inputType: Option<string> := None,
        textColor: Option<string> := None,
        backgroundColor: Option<string> := None,
        padding: Option<Padding> := None,
        margin: Option<Margin> := None,
        onChange: Option<Action> := None,
        maxLength: Option<int> := None,
        maxLines: Option<int> := None)
    | List(
        id: string,
        kind: string := "list",
        items: seq<Wrapper>,
        orientation: string := "vertical",
        scrollable: bool := true,
        padding: Option<Padding> := None,
        margin: Option<Margin> := None,
        divider: bool := false,
        dividerColor: Option<string> := None,
        backgroundColor: Option<string> := None)

  /** `ComponentWrapper`: the envelope `{type, component}` a parent holds its
      children in. */
  datatype Wrapper = Wrapper(tag: string, comp: Component)

  /** `ScreenResponse`: only the id is required. */
  datatype Screen = Screen(
    id: string,
    title: Option<string> := None,
    root: Option<Wrapper> := None,
    toolbarColor: Option<string> := None,
    backgroundColor: Option<string> := None,
    statusBarColor: Option<string> := None)

  /** The tag that names each variant on the wire. */
  function VariantTag(c: Component): string {
    match c
    case Container(_, _, _, _, _, _, _, _, _, _, _) => "container"
    case Text(_, _, _, _, _, _, _, _, _, _) => "text"
    case Button(_, _, _, _, _, _, _, _, _, _) => "button"
    case Image(_, _, _, _, _, _, _, _, _, _) => "image"
    case Input(_, _, _, _, _, _, _, _, _, _, _, _) => "input"
    case List(_, _, _, _, _, _, _, _, _, _) => "list"
  }

  /** Every envelope in the tree carries the tag of the variant it wraps, and
      every variant's own `type` property agrees with that tag. */
  predicate WellTagged(w: Wrapper)
    decreases w
  {
    && w.tag == VariantTag(w.comp)
    && w.comp.kind == w.tag
    && match w.comp
       case Container(_, _, children, _, _, _, _, _, _, _, _) =>
         forall c <- children :: WellTagged(c)
       case List(_, _, items, _, _, _, _, _, _, _) =>
         forall c <- items :: WellTagged(c)
       case _ => true
  }

  /** A dispatching client's view of an envelope: the payload is accepted only
      when its variant is the one the tag names. */
  function Unwrap(w: Wrapper): (r: Option<Component>)
    ensures r.Some? <==> w.tag == VariantTag(w.comp)
    ensures r.Some? ==> r.value == w.comp
  {
    match w.tag
    case "container" => if w.comp.Container? then Some(w.comp) else None
    case "text" => if w.comp.Text? then Some(w.comp) else None
    case "button" => if w.comp.Button? then Some(w.comp) else None
    case "image" => if w.comp.Image? then Some(w.comp) else None
    case "input" => if w.comp.Input? then Some(w.comp) else None
    case "list" => if w.comp.List? then Some(w.comp) else None
    case _ => None
  }

  /** The envelope a composer should build: the tag is taken from the variant. */
  function Wrap(c: Component): (w: Wrapper)
    ensures Unwrap(w) == Some(c)
  {
    Wrapper(VariantTag(c), c)
  }

  /** A variant built with its defaults names itself correctly, so wrapping it
      gives a well-tagged leaf, and the documented defaults hold. */
  lemma DefaultsAreConsistent(id: string, text: string, nested: seq<Wrapper>)
    requires forall c <- nested :: WellTagged(c)
    ensures WellTagged(Wrap(Container(id := id, children := nested)))
    ensures WellTagged(Wrap(Text(id := id, text := text)))
    ensures WellTagged(Wrap(Button(id := id, text := text)))
    ensures WellTagged(Wrap(Image(id := id)))
    ensures WellTagged(Wrap(Input(id := id)))
    ensures WellTagged(Wrap(List(id := id, items := nested)))
    ensures Container(id := id, children := nested).orientation == "vertical"
    ensures List(id := id, items := nested).orientation == "vertical"
    ensures List(id := id, items := nested).scrollable && !List(id := id, items := nested).divider
    ensures Button(id := id, text := text).enabled
    ensures Padding() == Padding(0, 0, 0, 0) && Margin() == Margin(0, 0, 0, 0)
    ensures Screen(id) == Screen(id, None, None, None, None, None)
    ensures Action(text) == Action(text, None, None)
  {
  }
}
