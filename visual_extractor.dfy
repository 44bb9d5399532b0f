/** The backend's `visual_extractor`: it walks a decoded report layout and
    builds the report metadata (pages, visuals, positions, projections and
    query fields) in nested loops.

    Python's behaviour is followed value by value: `.get` works on dicts only
    and raises on anything else, `for x in v` iterates lists, dict keys and
    string characters and raises on anything else, and an exception inside
    the per-visual `try` blocks is caught after whatever the block had already
    written. `json.loads` is the parameter `loads` (`None` when it raises). */
module Visuals {
  import opened Wrappers
  import opened Json

  /** The outcome of a piece of Python code: an uncaught exception, or a
      normal return. */
  datatype Py<+T> = Raised | Returned(value: T)

  /** What a `try` block left behind: the value built so far, and whether the
      block ended in its `except` branch. */
  datatype Attempt<+T> = Attempt(value: T, failed: bool)

  /** The warnings printed by the `except` branches, for visual `visual` on
      page `page` (both numbered from 1). */
  datatype Warning = ConfigWarning(page: nat, visual: nat) | QueryWarning(page: nat, visual: nat)

  /** The four position entries, copied verbatim (`JNull` for Python's `None`). */
  datatype Position = Position(x: Json, y: Json, width: Json, height: Json)

  datatype VisualData = VisualData(
    visualNumber: nat,
    position: Position,
    visualType: Json,
    projections: seq<(string, seq<Json>)>,
    queryFields: seq<Json>)

  datatype PageData = PageData(pageNumber: nat, pageName: Json, visuals: seq<VisualData>)

  datatype ReportMetadata = ReportMetadata(
    theme: Json,
    version: Json,
    pages: seq<PageData>,
    suggestions: string,
    optimalLayout: string)

  const Unknown := JStr("Unknown")
  const EmptyDict := JObj([])
  const EmptyList := JArr([])
  const EmptyDocument := "{}"

  /*** Python operations on decoded values ***/

  /** Python truthiness of a decoded value. */
  predicate Truthy(j: Json) {
    match j
    case JNull => false
    case JBool(b) => b
    case JNum(n) => n != 0.0
    case JStr(s) => s != ""
    case JArr(xs) => xs != []
    case JObj(ms) => ms != []
  }

  /** `d.get(key, default)`: only dicts have `get`. */
  function DictGet(d: Json, key: string, default: Json): (r: Py<Json>)
    ensures r.Returned? <==> d.JObj?
    ensures d.JObj? && Lookup(d.members, key).None? ==> r == Returned(default)
    ensures d.JObj? && Lookup(d.members, key).Some? ==> r == Returned(Lookup(d.members, key).value)
  {
    match d
    case JObj(ms) => Returned(Lookup(ms, key).GetOr(default))
    case _ => Raised
  }

  /** The items `for x in j` visits: list elements, dict keys, string
      characters; any other value raises `TypeError`. */
  function PyIter(j: Json): (r: Py<seq<Json>>)
    ensures r.Returned? <==> (j.JArr? || j.JObj? || j.JStr?)
    ensures j.JArr? ==> r == Returned(j.items)
    ensures j.JObj? ==> (|r.value| == |j.members| &&
      forall i :: 0 <= i < |j.members| ==> r.value[i] == JStr(j.members[i].0))
    ensures j.JStr? ==> (|r.value| == |j.s| &&
      forall i :: 0 <= i < |j.s| ==> r.value[i] == JStr([j.s[i]]))
  {
    match j
    case JArr(xs) => Returned(xs)
    case JObj(ms) => Returned(seq(|ms|, i requires 0 <= i < |ms| => JStr(ms[i].0)))
    case JStr(s) => Returned(seq(|s|, i requires 0 <= i < |s| => JStr([s[i]])))
    case _ => Raised
  }

  /** Whether `key` occurs in `s` as a substring (Python's `in` on strings). */
  predicate IsSubstring(key: string, s: string) {
    key <= s || (|s| > 0 && IsSubstring(key, s[1..]))
  }

  /** `key in container`: dict membership, list element equality, substring;
      any other value raises `TypeError`. */
  function PyContains(container: Json, key: string): Py<bool> {
    match container
    case JObj(ms) => Returned(Lookup(ms, key).Some?)
    case JArr(xs) => Returned(JStr(key) in xs)
    case JStr(s) => Returned(IsSubstring(key, s))
    case _ => Raised
  }

  /** `container[key]` with a string key: only a dict holding `key` answers;
      lists and strings raise `TypeError`, other values are not subscriptable. */
  function PySubscript(container: Json, key: string): Py<Json> {
    match container
    case JObj(ms) => if Lookup(ms, key).Some? then Returned(Lookup(ms, key).value) else Raised
    case _ => Raised
  }

  /*** The query block (source lines 59-70) ***/

  /** One `Select` entry: `if "Name" in sel: query_fields.append(sel["Name"])`.
      `Returned(None)` means the entry is skipped. */
  function SelectStep(sel: Json): Py<Option<Json>> {
    match PyContains(sel, "Name")
    case Raised => Raised
    case Returned(has) =>
      if !has then Returned(None)
      else match PySubscript(sel, "Name")
        case Raised => Raised
        case Returned(name) => Returned(Some(name))
  }

  /** The names appended by `selects[k..]`; once an entry raises, nothing
      after it runs. */
  function SelectNames(selects: seq<Json>, k: nat): Attempt<seq<Json>>
    requires k <= |selects|
    decreases |selects| - k
  {
    if k == |selects| then Attempt([], false)
    else match SelectStep(selects[k])
      case Raised => Attempt([], true)
      case Returned(found) =>
        var rest := SelectNames(selects, k + 1);
        Attempt((if found.Some? then [found.value] else []) + rest.value, rest.failed)
  }

  /** The `Select` list of one command:
      `cmd.get("SemanticQueryDataShapeCommand", {}).get("Query", {}).get("Select", [])`,
      ready to be iterated. */
  function CommandSelects(cmd: Json): Py<seq<Json>> {
    match DictGet(cmd, "SemanticQueryDataShapeCommand", EmptyDict)
    case Raised => Raised
    case Returned(shape) =>
      match DictGet(shape, "Query", EmptyDict)
      case Raised => Raised
      case Returned(semQuery) =>
        match DictGet(semQuery, "Select", EmptyList)
        case Raised => Raised
        case Returned(selects) => PyIter(selects)
  }

  /** The names appended while running `commands[k..]`. */
  function CommandNames(commands: seq<Json>, k: nat): Attempt<seq<Json>>
    requires k <= |commands|
    decreases |commands| - k
  {
    if k == |commands| then Attempt([], false)
    else
      var inner := CommandStep(commands[k]);
      if inner.failed then inner
      else
        var rest := CommandNames(commands, k + 1);
        Attempt(inner.value + rest.value, rest.failed)
  }

  /** The names one command appends, and whether it raised part-way. */
  function CommandStep(cmd: Json): Attempt<seq<Json>> {
    match CommandSelects(cmd)
    case Raised => Attempt([], true)
    case Returned(selects) => SelectNames(selects, 0)
  }

  /** `json.loads(query_str).get("Commands", [])`, ready to be iterated. */
  function QueryCommands(queryStr: Json, loads: string -> Option<Json>): Py<seq<Json>> {
    match queryStr
    case JStr(s) =>
      (match loads(s)
       case None => Raised
       case Some(query) =>
         match DictGet(query, "Commands", EmptyList)
         case Raised => Raised
         case Returned(commands) => PyIter(commands))
    case _ => Raised
  }

  /** The whole query `try` block for the visual's `query` entry. */
  function ParseQuery(queryStr: Json, loads: string -> Option<Json>): Attempt<seq<Json>> {
    match QueryCommands(queryStr, loads)
    case Raised => Attempt([], true)
    case Returned(commands) => CommandNames(commands, 0)
  }

  /*** The config block (source lines 47-56) ***/

  /** `[item.get("queryRef", "Unknown") for item in items]` over the items
      already produced by iteration. */
  function QueryRefs(items: seq<Json>): Py<seq<Json>> {
    if |items| == 0 then Returned([])
    else match DictGet(items[0], "queryRef", Unknown)
      case Raised => Raised
      case Returned(ref) =>
        match QueryRefs(items[1..])
        case Raised => Raised
        case Returned(refs) => Returned([ref] + refs)
  }

  /** The list comprehension applied to one role's value. */
  function RoleRefs(items: Json): Py<seq<Json>> {
    match PyIter(items)
    case Raised => Raised
    case Returned(xs) => QueryRefs(xs)
  }

  /** The projection entries written by `roles[k..]`; a role whose
      comprehension raises is not written, and no later role is reached. */
  function ProjectionRoles(roles: seq<(string, Json)>, k: nat): Attempt<seq<(string, seq<Json>)>>
    requires k <= |roles|
    decreases |roles| - k
  {
    if k == |roles| then Attempt([], false)
    else match RoleRefs(roles[k].1)
      case Raised => Attempt([], true)
      case Returned(refs) =>
        var rest := ProjectionRoles(roles, k + 1);
        Attempt([(roles[k].0, refs)] + rest.value, rest.failed)
  }

  /** What the config `try` block leaves in `visual_type` and `projections`. */
  datatype ConfigPart = ConfigPart(visualType: Json, projections: seq<(string, seq<Json>)>, failed: bool)

  /** The whole config `try` block for the visual's `config` entry. */
  function ParseConfig(configStr: Json, loads: string -> Option<Json>): ConfigPart {
    match configStr
    case JStr(s) =>
      (match loads(s)
       case None => ConfigPart(Unknown, [], true)
       case Some(config) =>
         match DictGet(config, "singleVisual", EmptyDict)
         case Raised => ConfigPart(Unknown, [], true)
         case Returned(single) =>
           match single
           case JObj(sm) =>
             var visualType := Lookup(sm, "visualType").GetOr(Unknown);
             (match Lookup(sm, "projections").GetOr(EmptyDict)
              case JObj(roles) =>
                var written := ProjectionRoles(roles, 0);
                ConfigPart(visualType, written.value, written.failed)
              case _ => ConfigPart(visualType, [], true))
           case _ => ConfigPart(Unknown, [], true))
    case _ => ConfigPart(Unknown, [], true)
  }

  /*** Visuals, pages and the report (source lines 3-76) ***/

  /** The position record copied from a visual container. */
  function PositionOf(container: seq<(string, Json)>): Position {
    Position(
      Lookup(container, "x").GetOr(JNull),
      Lookup(container, "y").GetOr(JNull),
      Lookup(container, "width").GetOr(JNull),
      Lookup(container, "height").GetOr(JNull))
  }

  /** The warnings printed for one visual. */
  function VisualWarnings(cfg: ConfigPart, qry: Attempt<seq<Json>>, page: nat, visual: nat): seq<Warning> {
    (if cfg.failed then [ConfigWarning(page, visual)] else [])
    + (if qry.failed then [QueryWarning(page, visual)] else [])
  }

  /** One visual container: a dict gives its visual record and warnings; any
      other value raises at the first `visual.get`. */
  function ExtractVisual(container: Json, page: nat, visual: nat, loads: string -> Option<Json>): (r: Py<(VisualData, seq<Warning>)>)
    ensures r.Returned? <==> container.JObj?
    ensures r.Returned? ==> r.value.0.visualNumber == visual
  {
    match container
    case JObj(ms) =>
      var cfg := ParseConfig(Lookup(ms, "config").GetOr(JStr(EmptyDocument)), loads);
      var qry := ParseQuery(Lookup(ms, "query").GetOr(JStr(EmptyDocument)), loads);
      Returned((VisualData(visual, PositionOf(ms), cfg.visualType, cfg.projections, qry.value),
                VisualWarnings(cfg, qry, page, visual)))
    case _ => Raised
  }

  /** Prepends what a loop has already built to what the rest of the loop
      produces. */
  function Then<A, W>(done: (seq<A>, seq<W>), rest: Py<(seq<A>, seq<W>)>): Py<(seq<A>, seq<W>)> {
    match rest
    case Raised => Raised
    case Returned(r) => Returned((done.0 + r.0, done.1 + r.1))
  }

  /** A `for n, x in enumerate(xs)` loop over `xs[k..]` that appends one
      record per item and collects its warnings; `step` gets the item and
      its number (from 1), and the loop stops at the first item that raises. */
  function Each<X, A, W>(xs: seq<X>, k: nat, step: (X, nat) -> Py<(A, seq<W>)>): Py<(seq<A>, seq<W>)>
    requires k <= |xs|
    decreases |xs| - k
  {
    if k == |xs| then Returned(([], []))
    else match step(xs[k], k + 1)
      case Raised => Raised
      case Returned(one) => Then(([one.0], one.1), Each(xs, k + 1, step))
  }

  /** The visuals of `containers[k..]`, numbered from `k + 1`. */
  function VisualsFrom(containers: seq<Json>, page: nat, k: nat, loads: string -> Option<Json>): Py<(seq<VisualData>, seq<Warning>)>
    requires k <= |containers|
  {
    Each(containers, k, VisualStep(page, loads))
  }

  /** The body of the visual loop as a step of `Each`. */
  function VisualStep(page: nat, loads: string -> Option<Json>): (Json, nat) -> Py<(VisualData, seq<Warning>)> {
    (container: Json, visual: nat) => ExtractVisual(container, page, visual, loads)
  }

  /** The default page name, `f"Page {n}"`. */
  function DefaultPageName(n: nat): Json {
    JStr("Page " + NatToDecimal(n))
  }

  /** `section.get("visualContainers", [])`, ready to be iterated; a section
      that is not a dict raises. */
  function SectionContainers(section: Json): Py<seq<Json>> {
    match DictGet(section, "visualContainers", EmptyList)
    case Raised => Raised
    case Returned(containers) => PyIter(containers)
  }

  /** One section: a dict gives its page record; any other value, or a
      `visualContainers` entry that cannot be iterated, raises. */
  function ExtractPage(section: Json, page: nat, loads: string -> Option<Json>): (r: Py<(PageData, seq<Warning>)>)
    ensures r.Returned? ==> r.value.0.pageNumber == page
  {
    match SectionContainers(section)
    case Raised => Raised
    case Returned(containers) =>
      match VisualsFrom(containers, page, 0, loads)
      case Raised => Raised
      case Returned(done) =>
        var name := Lookup(section.members, "displayName").GetOr(DefaultPageName(page));
        Returned((PageData(page, name, done.0), done.1))
  }

  /** The pages of `sections[k..]`, numbered from `k + 1`. */
  function PagesFrom(sections: seq<Json>, k: nat, loads: string -> Option<Json>): Py<(seq<PageData>, seq<Warning>)>
    requires k <= |sections|
  {
    Each(sections, k, PageStep(loads))
  }

  /** The body of the page loop as a step of `Each`. */
  function PageStep(loads: string -> Option<Json>): (Json, nat) -> Py<(PageData, seq<Warning>)> {
    (section: Json, page: nat) => ExtractPage(section, page, loads)
  }

  /** Theme and version from the report-level config (lines 18-20): the
      config, its `themeCollection` and its `baseTheme` must all be dicts. */
  function ThemeAndVersion(config: Json): (r: Py<(Json, Json)>)
    ensures !config.JObj? ==> r.Raised?
  {
    match DictGet(config, "themeCollection", EmptyDict)
    case Raised => Raised
    case Returned(collection) =>
      match DictGet(collection, "baseTheme", EmptyDict)
      case Raised => Raised
      case Returned(baseTheme) =>
        match DictGet(baseTheme, "name", Unknown)
        case Raised => Raised
        case Returned(theme) => Returned((theme, Lookup(config.members, "version").GetOr(Unknown)))
  }

  /** The whole of `visual_extractor`: `None` for a falsy layout, otherwise
      the metadata (or an uncaught exception), with the printed warnings. */
  function Extraction(layout: Json, loads: string -> Option<Json>): (r: Py<(Option<ReportMetadata>, seq<Warning>)>)
    ensures !Truthy(layout) ==> r == Returned((None, []))
    ensures Truthy(layout) && !layout.JObj? ==> r.Raised?
    ensures r.Returned? && r.value.0.Some? ==>
      r.value.0.value.suggestions == "Unknown" && r.value.0.value.optimalLayout == "Unknown"
  {
    if !Truthy(layout) then Returned((None, []))
    else match layout
      case JObj(ms) =>
        (match Lookup(ms, "config").GetOr(JStr(EmptyDocument))
         case JStr(cs) =>
           (match loads(cs)
            case None => Raised
            case Some(config) =>
              match ThemeAndVersion(config)
              case Raised => Raised
              case Returned(tv) =>
                match PyIter(Lookup(ms, "sections").GetOr(EmptyList))
                case Raised => Raised
                case Returned(sections) =>
                  match PagesFrom(sections, 0, loads)
                  case Raised => Raised
                  case Returned(done) =>
                    Returned((Some(ReportMetadata(tv.0, tv.1, done.0, "Unknown", "Unknown")), done.1)))
         case _ => Raised)
      case _ => Raised
  }

  /*** The imperative extractor ***/

  /** Nothing built yet: the rest of the loop is the whole loop. */
  lemma ThenNothing<A, W>(rest: Py<(seq<A>, seq<W>)>)
    ensures Then(([], []), rest) == rest
  {
    if rest.Returned? {
      assert [] + rest.value.0 == rest.value.0;
      assert [] + rest.value.1 == rest.value.1;
    }
  }

  /** One more iteration moves its output from the rest of the loop to what
      the loop has built. */
  lemma ThenStep<A, W>(done: (seq<A>, seq<W>), one: (A, seq<W>), rest: Py<(seq<A>, seq<W>)>)
    ensures Then(done, Then(([one.0], one.1), rest)) == Then((done.0 + [one.0], done.1 + one.1), rest)
  {
    if rest.Returned? {
      assert done.0 + ([one.0] + rest.value.0) == (done.0 + [one.0]) + rest.value.0;
      assert done.1 + (one.1 + rest.value.1) == (done.1 + one.1) + rest.value.1;
    }
  }

  /** Everything built: the loop's output is what it has built. */
  lemma ThenDone<A, W>(done: (seq<A>, seq<W>))
    ensures Then(done, Returned(([], []))) == Returned(done)
  {
    assert done.0 + [] == done.0;
    assert done.1 + [] == done.1;
  }

  /** The config `try` block (lines 48-56): sets the visual type, then writes
      one projection entry per role until a role raises. */
  method ParseVisualConfig(configStr: Json, loads: string -> Option<Json>)
    returns (visualType: Json, projections: seq<(string, seq<Json>)>, failed: bool)
    ensures ConfigPart(visualType, projections, failed) == ParseConfig(configStr, loads)
  {
    visualType, projections, failed := Unknown, [], true;
    if !configStr.JStr? { return; }
    var parsed := loads(configStr.s);
    if parsed.None? { return; }
    var config := parsed.value;
    if !config.JObj? { return; }
    var single := Lookup(config.members, "singleVisual").GetOr(EmptyDict);
    if !single.JObj? { return; }
    visualType := Lookup(single.members, "visualType").GetOr(Unknown);
    var roleMap := Lookup(single.members, "projections").GetOr(EmptyDict);
    if !roleMap.JObj? { return; }
    var roles := roleMap.members;
    ghost var all := ProjectionRoles(roles, 0);
    assert projections + all.value == all.value;
    var k := 0;
    while k < |roles|
      invariant 0 <= k <= |roles|
      invariant all == Attempt(projections + ProjectionRoles(roles, k).value, ProjectionRoles(roles, k).failed)
    {
      var refs := RoleRefs(roles[k].1);
      if refs.Raised? {
        assert projections + [] == projections;
        return;
      }
      ghost var rest := ProjectionRoles(roles, k + 1).value;
      assert projections + ([(roles[k].0, refs.value)] + rest) == (projections + [(roles[k].0, refs.value)]) + rest;
      projections := projections + [(roles[k].0, refs.value)];
      k := k + 1;
    }
    assert projections + [] == projections;
    failed := false;
  }

  /** The inner loop of the query block (lines 66-68): appends the `Name`
      of each `Select` entry that has one, until an entry raises. */
  method AppendSelectNames(selects: seq<Json>) returns (names: seq<Json>, failed: bool)
    ensures Attempt(names, failed) == SelectNames(selects, 0)
  {
    names := [];
    ghost var all := SelectNames(selects, 0);
    assert names + all.value == all.value;
    var s := 0;
    while s < |selects|
      invariant 0 <= s <= |selects|
      invariant all == Attempt(names + SelectNames(selects, s).value, SelectNames(selects, s).failed)
    {
      var sel := selects[s];
      ghost var rest := SelectNames(selects, s + 1).value;
      var has := PyContains(sel, "Name");
      if has.Raised? {
        assert names + [] == names;
        return names, true;
      }
      if has.value {
        var name := PySubscript(sel, "Name");
        if name.Raised? {
          assert names + [] == names;
          return names, true;
        }
        assert names + ([name.value] + rest) == (names + [name.value]) + rest;
        names := names + [name.value];
      } else {
        assert [] + rest == rest;
      }
      s := s + 1;
    }
    assert names + [] == names;
    failed := false;
  }

  /** One iteration of the command loop (lines 63-68). */
  method RunCommand(cmd: Json) returns (names: seq<Json>, failed: bool)
    ensures Attempt(names, failed) == CommandStep(cmd)
  {
    var selectsIter := CommandSelects(cmd);
    if selectsIter.Raised? {
      return [], true;
    }
    names, failed := AppendSelectNames(selectsIter.value);
  }

  /** The query `try` block (lines 59-70): runs the commands in order until
      something raises. */
  method ParseVisualQuery(queryStr: Json, loads: string -> Option<Json>)
    returns (queryFields: seq<Json>, failed: bool)
    ensures Attempt(queryFields, failed) == ParseQuery(queryStr, loads)
  {
    queryFields, failed := [], true;
    var commandsIter := QueryCommands(queryStr, loads);
    if commandsIter.Raised? { return; }
    var commands := commandsIter.value;
    ghost var all := CommandNames(commands, 0);
    assert queryFields + all.value == all.value;
    var c := 0;
    while c < |commands|
      invariant 0 <= c <= |commands|
      invariant all == Attempt(queryFields + CommandNames(commands, c).value, CommandNames(commands, c).failed)
    {
      var names, selectFailed := RunCommand(commands[c]);
      ghost var rest := CommandNames(commands, c + 1).value;
      if selectFailed {
        queryFields := queryFields + names;
        return;
      }
      assert queryFields + (names + rest) == (queryFields + names) + rest;
      queryFields := queryFields + names;
      c := c + 1;
    }
    assert queryFields + [] == queryFields;
    failed := false;
  }

  /** The body of the inner `for` loop (lines 34-72) for one dict container:
      the visual record and the warnings its `try` blocks print. */
  method ExtractVisualData(container: seq<(string, Json)>, page: nat, visual: nat, loads: string -> Option<Json>)
    returns (data: VisualData, warnings: seq<Warning>)
    ensures ExtractVisual(JObj(container), page, visual, loads) == Returned((data, warnings))
  {
    var position := PositionOf(container);
    var visualType, projections, configFailed :=
      ParseVisualConfig(Lookup(container, "config").GetOr(JStr(EmptyDocument)), loads);
    var queryFields, queryFailed :=
      ParseVisualQuery(Lookup(container, "query").GetOr(JStr(EmptyDocument)), loads);
    warnings := [];
    if configFailed { warnings := warnings + [ConfigWarning(page, visual)]; }
    if queryFailed { warnings := warnings + [QueryWarning(page, visual)]; }
    data := VisualData(visual, position, visualType, projections, queryFields);
    ghost var cfg := ParseConfig(Lookup(container, "config").GetOr(JStr(EmptyDocument)), loads);
    ghost var qry := ParseQuery(Lookup(container, "query").GetOr(JStr(EmptyDocument)), loads);
    assert cfg == ConfigPart(visualType, projections, configFailed);
    assert qry == Attempt(queryFields, queryFailed);
    assert warnings == VisualWarnings(cfg, qry, page, visual);
  }

  /** The inner `for` loop (lines 33-72): one visual record per container,
      until a container that is not a dict raises. */
  method ExtractVisuals(containers: seq<Json>, page: nat, loads: string -> Option<Json>)
    returns (result: Py<(seq<VisualData>, seq<Warning>)>)
    ensures result == VisualsFrom(containers, page, 0, loads)
  {
    var visuals: seq<VisualData> := [];
    var warnings: seq<Warning> := [];
    var j := 0;
    ThenNothing(VisualsFrom(containers, page, 0, loads));
    while j < |containers|
      invariant 0 <= j <= |containers|
      invariant VisualsFrom(containers, page, 0, loads) == Then((visuals, warnings), VisualsFrom(containers, page, j, loads))
    {
      var container := containers[j];
      if !container.JObj? {
        return Raised;
      }
      var data, visualWarnings := ExtractVisualData(container.members, page, j + 1, loads);
      ThenStep((visuals, warnings), (data, visualWarnings), VisualsFrom(containers, page, j + 1, loads));
      visuals := visuals + [data];
      warnings := warnings + visualWarnings;
      j := j + 1;
    }
    ThenDone((visuals, warnings));
    return Returned((visuals, warnings));
  }

  /** The body of the outer `for` loop (lines 25-74) for one section. */
  method ExtractPageData(section: Json, page: nat, loads: string -> Option<Json>)
    returns (result: Py<(PageData, seq<Warning>)>)
    ensures result == ExtractPage(section, page, loads)
  {
    var containersIter := SectionContainers(section);
    if containersIter.Raised? { return Raised; }
    var pageName := Lookup(section.members, "displayName").GetOr(DefaultPageName(page));
    var visuals := ExtractVisuals(containersIter.value, page, loads);
    if visuals.Raised? { return Raised; }
    return Returned((PageData(page, pageName, visuals.value.0), visuals.value.1));
  }

  /** The outer loop: `for i, page in enumerate(sections)`, appending each
      page's record to `report_metadata["pages"]`. */
  method ExtractPages(sections: seq<Json>, loads: string -> Option<Json>)
    returns (result: Py<(seq<PageData>, seq<Warning>)>)
    ensures result == PagesFrom(sections, 0, loads)
  {
    var pages: seq<PageData> := [];
    var warnings: seq<Warning> := [];
    var i := 0;
    ThenNothing(PagesFrom(sections, 0, loads));
    while i < |sections|
      invariant 0 <= i <= |sections|
      invariant PagesFrom(sections, 0, loads) == Then((pages, warnings), PagesFrom(sections, i, loads))
    {
      var pageResult := ExtractPageData(sections[i], i + 1, loads);
      if pageResult.Raised? {
        return Raised;
      }
      ThenStep((pages, warnings), pageResult.value, PagesFrom(sections, i + 1, loads));
      pages := pages + [pageResult.value.0];
      warnings := warnings + pageResult.value.1;
      i := i + 1;
    }
    ThenDone((pages, warnings));
    return Returned((pages, warnings));
  }

  /** `visual_extractor` itself: the report-level config, then one page
      record per section. */
  method VisualExtractor(layout: Json, loads: string -> Option<Json>)
    returns (result: Py<(Option<ReportMetadata>, seq<Warning>)>)
    ensures result == Extraction(layout, loads)
  {
    if !Truthy(layout) { return Returned((None, [])); }
    if !layout.JObj? { return Raised; }
    var configStr := Lookup(layout.members, "config").GetOr(JStr(EmptyDocument));
    if !configStr.JStr? { return Raised; }
    var parsed := loads(configStr.s);
    if parsed.None? { return Raised; }
    var themeAndVersion := ThemeAndVersion(parsed.value);
    if themeAndVersion.Raised? { return Raised; }
    var sectionsIter := PyIter(Lookup(layout.members, "sections").GetOr(EmptyList));
    if sectionsIter.Raised? { return Raised; }
    var pagesResult := ExtractPages(sectionsIter.value, loads);
    if pagesResult.Raised? { return Raised; }
    var (pages, warnings) := pagesResult.value;
    var theme, version := themeAndVersion.value.0, themeAndVersion.value.1;
    return Returned((Some(ReportMetadata(theme, version, pages, "Unknown", "Unknown")), warnings));
  }
}
