/**
 * The blueprint as the translator sees it, the structural bounds of its
 * schema, the read-only queries over it, and the pass that fills in the
 * optional `meta` attributes of a freshly parsed blueprint.
 */
module Schema {
  import opened Wrappers
  import opened Document

  // ---------------------------------------------------------------------------
  // Data model

  /** An option of a screen: either a link to another screen or a shell action. */
  datatype Option =
    | Link(name: string, link: string)
    | Action(name: string, action: string)

  /** A screen; `options` is None when the screen has no `options` key. */
  datatype Screen = Screen(name: string, options: Maybe<seq<Option>>)

  /** Global settings; `width` and `showMadeWithOnExit` as they stand after the defaulting pass. */
  datatype Meta = Meta(authors: Maybe<seq<string>>, width: int, showMadeWithOnExit: bool)

  /** A blueprint; `screens` is None when the document has no `screens` key. */
  datatype Blueprint = Blueprint(title: string, meta: Meta, screens: Maybe<seq<Screen>>)

  // ---------------------------------------------------------------------------
  // Structural bounds of the blueprint schema and its subschemas

  datatype Range = Range(min: int, max: int)

  predicate InRange(n: int, r: Range) {
    r.min <= n <= r.max
  }

  /** The length, count and value bounds the structural schema places on a blueprint. */
  datatype BlueprintSchema = BlueprintSchema(
    titleLength: Range,
    authorsCount: Range,
    authorLength: Range,
    width: Range,
    screensCount: Range,
    screenNameLength: Range,
    optionsCount: Range,
    optionNameLength: Range,
    linkLength: Range,
    actionLength: Range)

  const NacarSchema := BlueprintSchema(
    titleLength := Range(1, 178),
    authorsCount := Range(1, 10),
    authorLength := Range(1, 64),
    width := Range(40, 180),
    screensCount := Range(1, 999),
    screenNameLength := Range(1, 64),
    optionsCount := Range(1, 999),
    optionNameLength := Range(1, 64),
    linkLength := Range(1, 64),
    actionLength := Range(1, 256))

  const DefaultWidth := 80
  const DefaultShowMadeWithOnExit := true

  /** An option matches the link subschema or the action subschema. */
  predicate OptionConforms(o: Option, s: BlueprintSchema) {
    && InRange(|o.name|, s.optionNameLength)
    && match o
       case Link(_, target) => InRange(|target|, s.linkLength)
       case Action(_, command) => InRange(|command|, s.actionLength)
  }

  /** A screen matches the screen subschema; `options` is not required, but bounded when present. */
  predicate ScreenConforms(sc: Screen, s: BlueprintSchema) {
    && InRange(|sc.name|, s.screenNameLength)
    && (sc.options.Some? ==>
          && InRange(|sc.options.value|, s.optionsCount)
          && forall o :: o in sc.options.value ==> OptionConforms(o, s))
  }

  /** A blueprint within every bound of the schema. */
  predicate Conforms(bp: Blueprint, s: BlueprintSchema) {
    && InRange(|bp.title|, s.titleLength)
    && InRange(bp.meta.width, s.width)
    && (bp.meta.authors.Some? ==>
          && InRange(|bp.meta.authors.value|, s.authorsCount)
          && forall a :: a in bp.meta.authors.value ==> InRange(|a|, s.authorLength))
    && bp.screens.Some?
    && InRange(|bp.screens.value|, s.screensCount)
    && forall sc :: sc in bp.screens.value ==> ScreenConforms(sc, s)
  }

  // ---------------------------------------------------------------------------
  // Queries

  function ScreenNames(ss: seq<Screen>): (names: seq<string>)
    ensures |names| == |ss|
    ensures forall i :: 0 <= i < |ss| ==> names[i] == ss[i].name
  {
    if ss == [] then [] else [ss[0].name] + ScreenNames(ss[1..])
  }

  /** The name of every screen, in declaration order; empty when there is no `screens` key. */
  function GetScreenNames(bp: Blueprint): (names: seq<string>)
    ensures bp.screens.None? ==> names == []
    ensures bp.screens.Some? ==> |names| == |bp.screens.value|
    ensures bp.screens.Some? ==> forall i :: 0 <= i < |names| ==> names[i] == bp.screens.value[i].name
  {
    match bp.screens
    case None => []
    case Some(ss) => ScreenNames(ss)
  }

  /** The pair `[screen, target]` of every link option among `opts`, in order. */
  function OptionLinks(screen: string, opts: seq<Option>): (links: seq<(string, string)>)
    ensures forall p :: p in links <==> exists j :: 0 <= j < |opts| && opts[j].Link? && p == (screen, opts[j].link)
  {
    if opts == [] then []
    else
      var rest := OptionLinks(screen, opts[1..]);
      assert forall j :: 0 < j < |opts| ==> opts[j] == opts[1..][j - 1];
      if opts[0].Link? then [(screen, opts[0].link)] + rest else rest
  }

  /** The pair `p` is `[sc.name, o.link]` for some link option `o` of the screen `sc`. */
  ghost predicate ScreenHasLink(sc: Screen, p: (string, string)) {
    && sc.options.Some?
    && exists j :: 0 <= j < |sc.options.value| && sc.options.value[j].Link? && p == (sc.name, sc.options.value[j].link)
  }

  function ScreenLinks(ss: seq<Screen>): (links: seq<(string, string)>)
    ensures forall p :: p in links <==> exists i :: 0 <= i < |ss| && ScreenHasLink(ss[i], p)
  {
    if ss == [] then []
    else
      var here := if ss[0].options.Some? then OptionLinks(ss[0].name, ss[0].options.value) else [];
      var rest := ScreenLinks(ss[1..]);
      assert forall i :: 0 < i < |ss| ==> ss[i] == ss[1..][i - 1];
      here + rest
  }

  /**
   * The `[screen, target]` pair of every link option, screen by screen and
   * option by option; screens without `options` and action options add none.
   */
  function GetScreenLinks(bp: Blueprint): (links: seq<(string, string)>)
    ensures bp.screens.None? ==> links == []
    ensures bp.screens.Some? ==> forall p :: p in links <==> exists i :: 0 <= i < |bp.screens.value| && ScreenHasLink(bp.screens.value[i], p)
  {
    match bp.screens
    case None => []
    case Some(ss) => ScreenLinks(ss)
  }

  /** The index of the first screen called `name`. */
  function FirstNamed(ss: seq<Screen>, name: string): (r: Maybe<nat>)
    ensures r.Some? ==> r.value < |ss| && ss[r.value].name == name
    ensures r.Some? ==> forall k :: 0 <= k < r.value ==> ss[k].name != name
    ensures r.None? ==> forall k :: 0 <= k < |ss| ==> ss[k].name != name
  {
    if ss == [] then None
    else if ss[0].name == name then Some(0)
    else
      match FirstNamed(ss[1..], name)
      case None => None
      case Some(k) => Some(k + 1)
  }

  /**
   * The options of the first screen called `name`; None when no screen has
   * that name; KeyError when there is no `screens` key or the matching
   * screen has no `options` key.
   */
  function GetOptionsForScreen(bp: Blueprint, name: string): (r: Result<Maybe<seq<Option>>, PyError>)
    ensures bp.screens.None? ==> r == Failure(KeyError("screens"))
    ensures bp.screens.Some? ==>
      (r == Success(None) <==> forall k :: 0 <= k < |bp.screens.value| ==> bp.screens.value[k].name != name)
    ensures r.Success? && r.value.Some? ==>
      exists i :: 0 <= i < |bp.screens.value|
        && bp.screens.value[i].name == name
        && bp.screens.value[i].options == r.value
        && forall k :: 0 <= k < i ==> bp.screens.value[k].name != name
    ensures bp.screens.Some? && r.Failure? ==>
      && r.error == KeyError("options")
      && exists i :: 0 <= i < |bp.screens.value|
           && bp.screens.value[i].name == name
           && bp.screens.value[i].options.None?
           && forall k :: 0 <= k < i ==> bp.screens.value[k].name != name
  {
    match bp.screens
    case None => Failure(KeyError("screens"))
    case Some(ss) =>
      match FirstNamed(ss, name)
      case None => Success(None)
      case Some(i) => if ss[i].options.Some? then Success(ss[i].options) else Failure(KeyError("options"))
  }

  /** Every screen has an `options` key: the translator subscripts it unconditionally. */
  predicate AllOptionsPresent(bp: Blueprint) {
    bp.screens.Some? && forall i :: 0 <= i < |bp.screens.value| ==> bp.screens.value[i].options.Some?
  }

  /** The options that `GetOptionsForScreen` returns for a declared screen name. */
  function OptionsFor(bp: Blueprint, name: string): (opts: seq<Option>)
    requires AllOptionsPresent(bp) && name in GetScreenNames(bp)
    ensures GetOptionsForScreen(bp, name) == Success(Some(opts))
  {
    var i := FirstNamed(bp.screens.value, name).value;
    bp.screens.value[i].options.value
  }

  lemma {:induction false} OptionsForOwnScreen(bp: Blueprint, i: int)
    requires AllOptionsPresent(bp) && 0 <= i < |bp.screens.value|
    requires forall j :: 0 <= j < i ==> bp.screens.value[j].name != bp.screens.value[i].name
    ensures bp.screens.value[i].name in GetScreenNames(bp)
    ensures OptionsFor(bp, bp.screens.value[i].name) == bp.screens.value[i].options.value
  {
    var ss := bp.screens.value;
    assert GetScreenNames(bp)[i] == ss[i].name;
    var r := FirstNamed(ss, ss[i].name);
    assert r.Some?;
    assert !(r.value < i);
    assert !(r.value > i);
  }

  /** `max(xs)`. */
  function MaxOf(xs: seq<int>): (m: int)
    requires |xs| > 0
    ensures forall k :: 0 <= k < |xs| ==> xs[k] <= m
    ensures exists k :: 0 <= k < |xs| && xs[k] == m
  {
    if |xs| == 1 then xs[0]
    else
      var rest := MaxOf(xs[1..]);
      assert forall k :: 1 <= k < |xs| ==> xs[k] == xs[1..][k - 1];
      if xs[0] >= rest then xs[0] else rest
  }

  /** The option count of every declared screen name, as the translator looks it up. */
  function OptionCounts(bp: Blueprint): (counts: seq<int>)
    requires AllOptionsPresent(bp)
    ensures |counts| == |GetScreenNames(bp)|
  {
    var names := GetScreenNames(bp);
    seq(|names|, k requires 0 <= k < |names| => |OptionsFor(bp, names[k])|)
  }

  /** The largest option count among the screens. */
  function MaxOptionCount(bp: Blueprint): (m: int)
    requires AllOptionsPresent(bp) && |bp.screens.value| > 0
    ensures forall k :: 0 <= k < |bp.screens.value| ==> |OptionsFor(bp, bp.screens.value[k].name)| <= m
    ensures exists k :: 0 <= k < |bp.screens.value| && |OptionsFor(bp, bp.screens.value[k].name)| == m
  {
    var counts := OptionCounts(bp);
    assert forall k :: 0 <= k < |counts| ==> counts[k] == |OptionsFor(bp, bp.screens.value[k].name)|;
    MaxOf(counts)
  }

  /**
   * `get_max_screen_options_in_blueprint`: collects the option count of each
   * screen name in a list, then takes its maximum; `max` of an empty list
   * raises ValueError.
   */
  method GetMaxScreenOptionsInBlueprint(bp: Blueprint) returns (r: Result<int, PyError>)
    requires AllOptionsPresent(bp)
    ensures |bp.screens.value| == 0 ==> r == Failure(ValueError)
    ensures |bp.screens.value| > 0 ==> r.Success?
    ensures r.Success? ==> r.value == MaxOptionCount(bp)
  {
    var numberOfOptionsPerScreen: seq<int> := [];
    var names := GetScreenNames(bp);
    ghost var counts := OptionCounts(bp);
    for i := 0 to |names|
      invariant numberOfOptionsPerScreen == counts[..i]
    {
      LookupDeclared(bp, names, i);
      var options := GetOptionsForScreen(bp, names[i]);
      assert counts[..i + 1] == counts[..i] + [counts[i]];
      numberOfOptionsPerScreen := numberOfOptionsPerScreen + [|options.value.value|];
    }
    if |numberOfOptionsPerScreen| == 0 {
      return Failure(ValueError);
    }
    assert numberOfOptionsPerScreen == counts;
    MaxOptionCountOfCounts(bp);
    r := Success(MaxOf(numberOfOptionsPerScreen));
  }

  /** Within the schema's bounds, every screen name looks up between 1 and 999 options. */
  lemma ConformingOptionCount(bp: Blueprint, name: string)
    requires Conforms(bp, NacarSchema) && AllOptionsPresent(bp) && name in GetScreenNames(bp)
    ensures 1 <= |OptionsFor(bp, name)| <= 999
  {
    var i := FirstNamed(bp.screens.value, name).value;
    assert bp.screens.value[i] in bp.screens.value;
  }

  /** Within the schema's bounds, the largest option count is between 1 and 999. */
  lemma ConformingMaxOptionCount(bp: Blueprint)
    requires Conforms(bp, NacarSchema) && AllOptionsPresent(bp)
    ensures |bp.screens.value| > 0 && 1 <= MaxOptionCount(bp) <= 999
  {
    var ss := bp.screens.value;
    var k :| 0 <= k < |ss| && |OptionsFor(bp, ss[k].name)| == MaxOptionCount(bp);
    assert GetScreenNames(bp)[k] == ss[k].name;
    ConformingOptionCount(bp, ss[k].name);
  }

  /** The lookup of a declared name finds its options. */
  lemma LookupDeclared(bp: Blueprint, names: seq<string>, i: int)
    requires AllOptionsPresent(bp) && names == GetScreenNames(bp) && 0 <= i < |names|
    ensures GetOptionsForScreen(bp, names[i]) == Success(Some(OptionsFor(bp, names[i])))
  {
    assert names[i] in names;
  }

  lemma MaxOptionCountOfCounts(bp: Blueprint)
    requires AllOptionsPresent(bp) && |bp.screens.value| > 0
    ensures |OptionCounts(bp)| > 0 && MaxOptionCount(bp) == MaxOf(OptionCounts(bp))
  {
  }

  // ---------------------------------------------------------------------------
  // Defaulting of the optional `meta` attributes on the parsed document

  /** `exists(obj, chain)`: the key path is present and its value is not None. */
  function Exists(obj: Node, chain: seq<string>): (r: Result<bool, PyError>)
    ensures chain == [] ==> r == Failure(IndexError)
    decreases |chain|
  {
    if chain == [] then Failure(IndexError)
    else
      match Contains(obj, chain[0])
      case Failure(e) => Failure(e)
      case Success(found) =>
        if !found then Success(false)
        else
          match Subscript(obj, chain[0])
          case Failure(e) => Failure(e)
          case Success(v) => if |chain| > 1 then Exists(v, chain[1..]) else Success(v != Null)
  }

  const WidthKey := "width"
  const ShowMadeWithKey := "show_made_with_on_exit"

  /** The attribute is present in `meta` with a value other than None. */
  predicate IsSet(meta: map<string, Node>, key: string) {
    key in meta && meta[key] != Null
  }

  /** The `meta` mapping after defaulting: the two attributes are set, everything else is as it was. */
  function WithDefaults(meta: map<string, Node>): (r: map<string, Node>)
    ensures r.Keys == meta.Keys + {WidthKey, ShowMadeWithKey}
    ensures r[WidthKey] == if IsSet(meta, WidthKey) then meta[WidthKey] else Int(DefaultWidth)
    ensures r[ShowMadeWithKey] == if IsSet(meta, ShowMadeWithKey) then meta[ShowMadeWithKey] else Bool(DefaultShowMadeWithOnExit)
    ensures forall k :: k in meta && k != WidthKey && k != ShowMadeWithKey ==> r[k] == meta[k]
    ensures IsSet(r, WidthKey) && IsSet(r, ShowMadeWithKey)
  {
    var withWidth := if IsSet(meta, WidthKey) then meta else meta[WidthKey := Int(DefaultWidth)];
    if IsSet(withWidth, ShowMadeWithKey) then withWidth
    else withWidth[ShowMadeWithKey := Bool(DefaultShowMadeWithOnExit)]
  }

  /** The exception the defaulting pass raises: no `meta` key, or a `meta` that is not a mapping. */
  function MetaError(root: map<string, Node>): Maybe<PyError> {
    if "meta" !in root then Some(KeyError("meta"))
    else if !root["meta"].Dict? then Some(TypeError)
    else None
  }

  /** What `exists(blueprint, ['meta', key])` answers for each shape of `meta`. */
  lemma ExistsInMeta(root: map<string, Node>, key: string)
    ensures "meta" !in root ==> Exists(Dict(root), ["meta", key]) == Success(false)
    ensures "meta" in root && root["meta"].Dict? ==>
      Exists(Dict(root), ["meta", key]) == Success(IsSet(root["meta"].entries, key))
    ensures "meta" in root && !root["meta"].Dict? ==>
      Exists(Dict(root), ["meta", key]) in {Failure(TypeError), Success(false)}
  {
    assert ["meta", key][1..] == [key];
  }

  /** The defaulting pass is idempotent. */
  lemma WithDefaultsIdempotent(meta: map<string, Node>)
    ensures WithDefaults(WithDefaults(meta)) == WithDefaults(meta)
  {
  }

  /** A parsed blueprint document: the top-level mapping, updated in place. */
  class ParsedBlueprint {
    var entries: map<string, Node>

    constructor (entries: map<string, Node>)
      ensures this.entries == entries
    {
      this.entries := entries;
    }

    /** `blueprint['meta'][key] = value`. */
    method AssignInMeta(key: string, value: Node) returns (raised: Maybe<PyError>)
      modifies this
      ensures raised == MetaError(old(entries))
      ensures raised.Some? ==> entries == old(entries)
      ensures raised.None? ==> entries == old(entries)["meta" := Dict(old(entries)["meta"].entries[key := value])]
    {
      if "meta" !in entries {
        return Some(KeyError("meta"));
      }
      match entries["meta"]
      case Dict(meta) =>
        entries := entries["meta" := Dict(meta[key := value])];
        return None;
      case _ =>
        return Some(TypeError);
    }

    /**
     * `set_missing_optional_attributes`: `meta.width` becomes 80 and
     * `meta.show_made_with_on_exit` becomes true where absent or None.
     */
    method SetMissingOptionalAttributes() returns (raised: Maybe<PyError>)
      modifies this
      ensures raised == MetaError(old(entries))
      ensures raised.Some? ==> entries == old(entries)
      ensures raised.None? ==> entries == old(entries)["meta" := Dict(WithDefaults(old(entries)["meta"].entries))]
    {
      ExistsInMeta(entries, WidthKey);
      var widthExists := Exists(Dict(entries), ["meta", WidthKey]);
      if widthExists.Failure? {
        return Some(widthExists.error);
      }
      if !widthExists.value {
        raised := AssignInMeta(WidthKey, Int(DefaultWidth));
        if raised.Some? {
          return;
        }
      }
      ExistsInMeta(entries, ShowMadeWithKey);
      var showExists := Exists(Dict(entries), ["meta", ShowMadeWithKey]);
      if !showExists.value {
        raised := AssignInMeta(ShowMadeWithKey, Bool(DefaultShowMadeWithOnExit));
      }
      raised := None;
    }
  }
}
