/** What `visual_extractor` promises about the report it builds: one page per
    section and one visual per container, in order and numbered from 1, with
    the documented defaults, and per-visual parse failures reported as
    warnings instead of aborting the extraction. */
module VisualProperties {
  import opened Wrappers
  import opened Json
  import opened Visuals

  /*** Projections (source lines 52-54) ***/

  /** The comprehension answers exactly when every item is a dict, with one
      entry per item: its `queryRef`, or `"Unknown"` when it has none. */
  lemma {:induction false} QueryRefsShape(items: seq<Json>)
    ensures QueryRefs(items).Returned? <==> forall i :: 0 <= i < |items| ==> items[i].JObj?
    ensures QueryRefs(items).Returned? ==>
      var refs := QueryRefs(items).value;
      |refs| == |items| &&
      forall i :: 0 <= i < |items| ==>
        (Lookup(items[i].members, "queryRef").Some? ==> refs[i] == Lookup(items[i].members, "queryRef").value) &&
        (Lookup(items[i].members, "queryRef").None? ==> refs[i] == Unknown)
  {
    if |items| > 0 {
      QueryRefsShape(items[1..]);
      assert forall i :: 1 <= i < |items| ==> items[1..][i - 1] == items[i];
    }
  }

  /** The roles written before the first role that raises: entry `i` is role
      `k + i` with its comprehension's result; the block fails exactly when
      some role raises, and then it stops at that role. */
  lemma {:induction false} ProjectionRolesShape(roles: seq<(string, Json)>, k: nat)
    requires k <= |roles|
    ensures var w := ProjectionRoles(roles, k);
      k + |w.value| <= |roles| &&
      (forall i :: 0 <= i < |w.value| ==>
        w.value[i].0 == roles[k + i].0 && RoleRefs(roles[k + i].1) == Returned(w.value[i].1)) &&
      (w.failed <==> k + |w.value| < |roles|) &&
      (w.failed ==> RoleRefs(roles[k + |w.value|].1).Raised?)
    decreases |roles| - k
  {
    if k < |roles| && RoleRefs(roles[k].1).Returned? {
      ProjectionRolesShape(roles, k + 1);
    }
  }

  /*** Query fields (source lines 59-70) ***/

  /** A select list made of dicts, as a report query normally holds. */
  predicate DictSelects(selects: seq<Json>) {
    forall i :: 0 <= i < |selects| ==> selects[i].JObj?
  }

  /** Reference definition: the `Name` of every dict entry that has one, in
      order; entries without `Name` are skipped. */
  function Names(selects: seq<Json>): seq<Json>
    requires DictSelects(selects)
  {
    if |selects| == 0 then []
    else
      var name := Lookup(selects[0].members, "Name");
      (if name.Some? then [name.value] else []) + Names(selects[1..])
  }

  /** A command of the usual shape: every level is a dict (or absent) and
      the `Select` list holds dicts. */
  predicate WellFormedCommand(cmd: Json) {
    match CommandSelects(cmd)
    case Raised => false
    case Returned(selects) => DictSelects(selects)
  }

  /** Reference definition: the names of all commands, in command order. */
  function AllNames(commands: seq<Json>): seq<Json>
    requires forall i :: 0 <= i < |commands| ==> WellFormedCommand(commands[i])
  {
    if |commands| == 0 then []
    else
      assert WellFormedCommand(commands[0]);
      Names(CommandSelects(commands[0]).value) + AllNames(commands[1..])
  }

  /** On dict entries the select loop never raises and appends exactly the
      reference names. */
  lemma {:induction false} SelectNamesOfDicts(selects: seq<Json>, k: nat)
    requires k <= |selects| && DictSelects(selects)
    ensures SelectNames(selects, k) == Attempt(Names(selects[k..]), false)
    decreases |selects| - k
  {
    if k < |selects| {
      SelectNamesOfDicts(selects, k + 1);
      assert selects[k..][1..] == selects[k + 1..];
    }
  }

  /** For well-formed commands, `query_fields` is exactly the `Name` of every
      select entry that has one, in command order and then select order, and
      the query block does not fail. */
  lemma {:induction false} QueryFieldsOfWellFormed(commands: seq<Json>, k: nat)
    requires k <= |commands|
    requires forall i :: 0 <= i < |commands| ==> WellFormedCommand(commands[i])
    ensures CommandNames(commands, k) == Attempt(AllNames(commands[k..]), false)
    decreases |commands| - k
  {
    if k < |commands| {
      SelectNamesOfDicts(CommandSelects(commands[k]).value, 0);
      assert CommandSelects(commands[k]).value[0..] == CommandSelects(commands[k]).value;
      QueryFieldsOfWellFormed(commands, k + 1);
      assert commands[k..][1..] == commands[k + 1..];
    }
  }

  /*** Visuals (source lines 32-72) ***/

  /** A dict container always yields its record, whatever its config and
      query hold: it is numbered `visual`, its position is copied verbatim
      (`None` for an absent key), and a config or query that fails adds
      exactly one warning each instead of aborting. */
  lemma VisualAlwaysRecorded(ms: seq<(string, Json)>, page: nat, visual: nat, loads: string -> Option<Json>)
    ensures ExtractVisual(JObj(ms), page, visual, loads).Returned?
    ensures var (v, ws) := ExtractVisual(JObj(ms), page, visual, loads).value;
      var cfg := ParseConfig(Lookup(ms, "config").GetOr(JStr(EmptyDocument)), loads);
      var qry := ParseQuery(Lookup(ms, "query").GetOr(JStr(EmptyDocument)), loads);
      v.visualNumber == visual &&
      v.position == Position(Lookup(ms, "x").GetOr(JNull), Lookup(ms, "y").GetOr(JNull),
                             Lookup(ms, "width").GetOr(JNull), Lookup(ms, "height").GetOr(JNull)) &&
      v.visualType == cfg.visualType && v.projections == cfg.projections && v.queryFields == qry.value &&
      (ConfigWarning(page, visual) in ws <==> cfg.failed) &&
      (QueryWarning(page, visual) in ws <==> qry.failed) &&
      |ws| <= 2 &&
      forall w :: w in ws ==> w.page == page && w.visual == visual
  {
  }

  /*** Enumerate loops (source lines 24 and 33) ***/

  /** An enumerate loop finishes exactly when no item raises, and then it
      holds one record per item, in order, each the record of that item
      under its number. */
  lemma {:induction false} EachShape<X, A, W>(xs: seq<X>, k: nat, step: (X, nat) -> Py<(A, seq<W>)>)
    requires k <= |xs|
    ensures Each(xs, k, step).Returned? <==> forall i :: k <= i < |xs| ==> step(xs[i], i + 1).Returned?
    ensures Each(xs, k, step).Returned? ==>
      var records := Each(xs, k, step).value.0;
      |records| == |xs| - k &&
      forall i :: k <= i < |xs| ==> records[i - k] == step(xs[i], i + 1).value.0
    decreases |xs| - k
  {
    if k < |xs| {
      EachShape(xs, k + 1, step);
      var one := step(xs[k], k + 1);
      var rest := Each(xs, k + 1, step);
      if one.Returned? && rest.Returned? {
        var records := Each(xs, k, step).value.0;
        assert records == [one.value.0] + rest.value.0;
        forall i | k < i < |xs|
          ensures records[i - k] == step(xs[i], i + 1).value.0
        {
          assert records[i - k] == rest.value.0[i - (k + 1)];
        }
      }
    }
  }

  /*** Visuals (source lines 32-72) ***/

  /** The visual loop's body, for any container and number. */
  lemma VisualStepFacts(page: nat, loads: string -> Option<Json>)
    ensures forall c, n :: VisualStep(page, loads)(c, n).Returned? <==> c.JObj?
    ensures forall c, n :: VisualStep(page, loads)(c, n).Returned? ==>
      VisualStep(page, loads)(c, n).value.0.visualNumber == n
  {
  }

  /** The visuals of a page: the loop finishes exactly when every container
      is a dict, and then it records one visual per container, in order,
      numbered from 1. */
  lemma VisualsShape(containers: seq<Json>, page: nat, loads: string -> Option<Json>)
    ensures VisualsFrom(containers, page, 0, loads).Returned? <==>
      forall j :: 0 <= j < |containers| ==> containers[j].JObj?
    ensures VisualsFrom(containers, page, 0, loads).Returned? ==>
      var vs := VisualsFrom(containers, page, 0, loads).value.0;
      |vs| == |containers| &&
      forall j :: 0 <= j < |containers| ==>
        vs[j] == ExtractVisual(containers[j], page, j + 1, loads).value.0 && vs[j].visualNumber == j + 1
  {
    var step := VisualStep(page, loads);
    VisualStepFacts(page, loads);
    EachShape(containers, 0, step);
    if VisualsFrom(containers, page, 0, loads).Returned? {
      var vs := VisualsFrom(containers, page, 0, loads).value.0;
      forall j | 0 <= j < |containers|
        ensures vs[j] == ExtractVisual(containers[j], page, j + 1, loads).value.0 && vs[j].visualNumber == j + 1
      {
        assert vs[j] == step(containers[j], j + 1).value.0;
      }
    }
  }

  /*** Pages (source lines 22-74) ***/

  /** A section the page loop gets through: a dict whose `visualContainers`
      can be iterated and holds only dicts. */
  predicate SectionShaped(section: Json) {
    match SectionContainers(section)
    case Raised => false
    case Returned(containers) => forall j :: 0 <= j < |containers| ==> containers[j].JObj?
  }

  /** A layout the extractor gets through without an uncaught exception. */
  predicate LayoutShaped(layout: Json, loads: string -> Option<Json>) {
    layout.JObj? &&
    var configStr := Lookup(layout.members, "config").GetOr(JStr(EmptyDocument));
    configStr.JStr? && loads(configStr.s).Some? &&
    ThemeAndVersion(loads(configStr.s).value).Returned? &&
    var sections := PyIter(Lookup(layout.members, "sections").GetOr(EmptyList));
    sections.Returned? &&
    forall i :: 0 <= i < |sections.value| ==> SectionShaped(sections.value[i])
  }

  /** The page loop's body, for any section and number: it builds a record
      exactly for a shaped section, numbered `n`, named by its `displayName`
      or `"Page <n>"`, with one visual per container numbered from 1. */
  lemma PageStepFacts(loads: string -> Option<Json>)
    ensures forall s, n :: PageStep(loads)(s, n).Returned? <==> SectionShaped(s)
    ensures forall s, n :: PageStep(loads)(s, n).Returned? ==>
      var p := PageStep(loads)(s, n).value.0;
      var containers := SectionContainers(s).value;
      p.pageNumber == n &&
      p.pageName == Lookup(s.members, "displayName").GetOr(DefaultPageName(n)) &&
      |p.visuals| == |containers| &&
      forall j :: 0 <= j < |containers| ==> p.visuals[j].visualNumber == j + 1
  {
    forall s, n | true
      ensures PageStep(loads)(s, n).Returned? <==> SectionShaped(s)
      ensures PageStep(loads)(s, n).Returned? ==>
        var p := PageStep(loads)(s, n).value.0;
        var containers := SectionContainers(s).value;
        p.pageNumber == n &&
        p.pageName == Lookup(s.members, "displayName").GetOr(DefaultPageName(n)) &&
        |p.visuals| == |containers| &&
        forall j :: 0 <= j < |containers| ==> p.visuals[j].visualNumber == j + 1
    {
      if SectionContainers(s).Returned? {
        VisualsShape(SectionContainers(s).value, n, loads);
      }
    }
  }

  /** The pages of a report: the loop finishes exactly when every section is
      shaped, and then it records one page per section, in order, numbered
      from 1 and named by `displayName` or `"Page <n>"`. */
  lemma PagesShape(sections: seq<Json>, loads: string -> Option<Json>)
    ensures PagesFrom(sections, 0, loads).Returned? <==>
      forall i :: 0 <= i < |sections| ==> SectionShaped(sections[i])
    ensures PagesFrom(sections, 0, loads).Returned? ==>
      var ps := PagesFrom(sections, 0, loads).value.0;
      |ps| == |sections| &&
      forall i :: 0 <= i < |sections| ==>
        SectionShaped(sections[i]) &&
        ps[i].pageNumber == i + 1 &&
        ps[i].pageName == Lookup(sections[i].members, "displayName").GetOr(DefaultPageName(i + 1)) &&
        |ps[i].visuals| == |SectionContainers(sections[i]).value|
  {
    var step := PageStep(loads);
    PageStepFacts(loads);
    EachShape(sections, 0, step);
    if PagesFrom(sections, 0, loads).Returned? {
      var ps := PagesFrom(sections, 0, loads).value.0;
      forall i | 0 <= i < |sections|
        ensures SectionShaped(sections[i])
        ensures ps[i].pageNumber == i + 1
        ensures ps[i].pageName == Lookup(sections[i].members, "displayName").GetOr(DefaultPageName(i + 1))
        ensures |ps[i].visuals| == |SectionContainers(sections[i]).value|
      {
        assert ps[i] == step(sections[i], i + 1).value.0;
      }
    }
  }

  /*** The whole report (source lines 3-76) ***/

  /** `None` comes back exactly for a falsy layout; a truthy layout raises
      exactly when it is not shaped, and otherwise gives a report with the
      config's theme and version, one page per section, in order, numbered
      from 1, and the `"Unknown"` placeholders as suggestions and optimal
      layout. */
  lemma ExtractionOutcome(layout: Json, loads: string -> Option<Json>)
    ensures Extraction(layout, loads) == Returned((None, [])) <==> !Truthy(layout)
    ensures Extraction(layout, loads).Raised? <==> Truthy(layout) && !LayoutShaped(layout, loads)
    ensures Truthy(layout) && LayoutShaped(layout, loads) ==>
      Extraction(layout, loads).value.0.Some? &&
      var report := Extraction(layout, loads).value.0.value;
      var sections := PyIter(Lookup(layout.members, "sections").GetOr(EmptyList)).value;
      var config := loads(Lookup(layout.members, "config").GetOr(JStr(EmptyDocument)).s).value;
      report.theme == ThemeAndVersion(config).value.0 && report.version == ThemeAndVersion(config).value.1 &&
      report.suggestions == "Unknown" && report.optimalLayout == "Unknown" &&
      |report.pages| == |sections| &&
      forall i :: 0 <= i < |sections| ==>
        report.pages[i].pageNumber == i + 1 &&
        report.pages[i].pageName == Lookup(sections[i].members, "displayName").GetOr(DefaultPageName(i + 1))
  {
    if Truthy(layout) && layout.JObj? {
      var sections := PyIter(Lookup(layout.members, "sections").GetOr(EmptyList));
      if sections.Returned? {
        PagesShape(sections.value, loads);
      }
    }
  }

  /** Theme and version, key by key: the version is copied, or `"Unknown"`
      when absent, whatever the theme holds; the theme is the `name` under
      `themeCollection.baseTheme`, `"Unknown"` as soon as one of the three
      keys is absent, and an exception when `themeCollection` or `baseTheme`
      is present but not a dict. */
  lemma ThemeAndVersionDefaults(config: seq<(string, Json)>)
    ensures var r, tc := ThemeAndVersion(JObj(config)), Lookup(config, "themeCollection");
      && (r.Returned? && Lookup(config, "version").None? ==> r.value.1 == Unknown)
      && (r.Returned? && Lookup(config, "version").Some? ==> r.value.1 == Lookup(config, "version").value)
      && (tc.None? ==> r.Returned? && r.value.0 == Unknown)
      && (tc.Some? && !tc.value.JObj? ==> r.Raised?)
      && (tc.Some? && tc.value.JObj? ==>
            var bt := Lookup(tc.value.members, "baseTheme");
            && (bt.None? ==> r.Returned? && r.value.0 == Unknown)
            && (bt.Some? && !bt.value.JObj? ==> r.Raised?)
            && (bt.Some? && bt.value.JObj? && Lookup(bt.value.members, "name").None? ==>
                  r.Returned? && r.value.0 == Unknown)
            && (bt.Some? && bt.value.JObj? && Lookup(bt.value.members, "name").Some? ==>
                  r.Returned? && r.value.0 == Lookup(bt.value.members, "name").value))
  {
  }
}
