/** The analysis page's field-usage tally (`analyzeColumnUsage`): every
    `query_fields` entry and every field listed under a projection role adds
    one to that field's count in `usageMap`.

    The report metadata is read through a typed view: a visual's
    `query_fields` and `projections` may be absent (`None`), and field names
    are strings. `usageMap` is a JavaScript object, so its entries keep the
    order in which their keys were first added; it is modelled as a sequence
    of (field, count) pairs in that order. */
module ColumnUsage {
  import opened Wrappers

  datatype Visual = Visual(queryFields: Option<seq<string>>, projections: Option<seq<(string, seq<string>)>>)

  datatype Page = Page(visuals: seq<Visual>)

  /** `usageMap`: its entries in insertion order. */
  type Tally = seq<(string, nat)>

  /*** The tally ***/

  /** `usageMap[f] || 0`: the count of `f`, zero when it is not a key. */
  function CountOf(t: Tally, f: string): nat {
    if |t| == 0 then 0
    else if t[0].0 == f then t[0].1
    else CountOf(t[1..], f)
  }

  /** The keys of the tally, in insertion order. */
  function Keys(t: Tally): (keys: seq<string>)
    ensures |keys| == |t|
    ensures forall i :: 0 <= i < |t| ==> keys[i] == t[i].0
  {
    if |t| == 0 then [] else [t[0].0] + Keys(t[1..])
  }

  /** The sum of all counts. */
  function Total(t: Tally): nat {
    if |t| == 0 then 0 else t[0].1 + Total(t[1..])
  }

  /** No key is listed twice: a JavaScript object has one property per name. */
  predicate DistinctKeys(t: Tally) {
    forall i, j :: 0 <= i < j < |t| ==> t[i].0 != t[j].0
  }

  /** Every count is at least one. */
  predicate Positive(t: Tally) {
    forall i :: 0 <= i < |t| ==> t[i].1 >= 1
  }

  /** `usageMap[f] = (usageMap[f] || 0) + 1`: an existing key keeps its
      place and gains one; a new key is added last with count one. */
  function Bump(t: Tally, f: string): Tally {
    if |t| == 0 then [(f, 1)]
    else if t[0].0 == f then [(f, t[0].1 + 1)] + t[1..]
    else [t[0]] + Bump(t[1..], f)
  }

  /** The tally after counting `fields` one by one, starting from `t`. */
  function BumpAll(t: Tally, fields: seq<string>): Tally {
    if |fields| == 0 then t
    else Bump(BumpAll(t, fields[..|fields| - 1]), fields[|fields| - 1])
  }

  /*** The field references, in the order the loops visit them ***/

  /** All fields of the roles `roles`, role after role (`Object.values`
      visits the roles in insertion order). */
  function RoleFields(roles: seq<(string, seq<string>)>): seq<string> {
    if |roles| == 0 then []
    else RoleFields(roles[..|roles| - 1]) + roles[|roles| - 1].1
  }

  /** One visual: its `query_fields`, then its projection fields; an absent
      list contributes nothing. */
  function VisualRefs(v: Visual): seq<string> {
    (if v.queryFields.Some? then v.queryFields.value else [])
    + (if v.projections.Some? then RoleFields(v.projections.value) else [])
  }

  function VisualsRefs(vs: seq<Visual>): seq<string> {
    if |vs| == 0 then []
    else VisualsRefs(vs[..|vs| - 1]) + VisualRefs(vs[|vs| - 1])
  }

  /** Every field reference of the report, page by page, visual by visual. */
  function Refs(pages: seq<Page>): seq<string> {
    if |pages| == 0 then []
    else Refs(pages[..|pages| - 1]) + VisualsRefs(pages[|pages| - 1].visuals)
  }

  /** The tally `analyzeColumnUsage` builds. */
  function TallyOf(pages: seq<Page>): Tally {
    BumpAll([], Refs(pages))
  }

  /*** The imperative tally ***/

  /** `fields.forEach((field) => { usageMap[field] = (usageMap[field] || 0) + 1; })` */
  method CountFields(usage: Tally, fields: seq<string>) returns (counted: Tally)
    ensures counted == BumpAll(usage, fields)
  {
    counted := usage;
    var k := 0;
    while k < |fields|
      invariant 0 <= k <= |fields|
      invariant counted == BumpAll(usage, fields[..k])
    {
      assert fields[..k + 1][..k] == fields[..k];
      counted := Bump(counted, fields[k]);
      k := k + 1;
    }
    assert fields[..k] == fields;
  }

  /** `Object.values(projections).forEach((fields) => fields.forEach(...))`:
      every role's fields, role after role. */
  method CountRoles(usage: Tally, roles: seq<(string, seq<string>)>) returns (counted: Tally)
    ensures counted == BumpAll(usage, RoleFields(roles))
  {
    counted := usage;
    var r := 0;
    while r < |roles|
      invariant 0 <= r <= |roles|
      invariant counted == BumpAll(usage, RoleFields(roles[..r]))
    {
      RoleFieldsStep(roles, r);
      BumpAllAppend(usage, RoleFields(roles[..r]), roles[r].1);
      counted := CountFields(counted, roles[r].1);
      r := r + 1;
    }
    assert roles[..r] == roles;
  }

  /** The body of the visual loop (source lines 54-62): the query fields,
      then every projection role's fields. */
  method CountVisual(usage: Tally, visual: Visual) returns (counted: Tally)
    ensures counted == BumpAll(usage, VisualRefs(visual))
  {
    var queryPart := if visual.queryFields.Some? then visual.queryFields.value else [];
    var roles := if visual.projections.Some? then visual.projections.value else [];
    counted := usage;
    if visual.queryFields.Some? {
      counted := CountFields(counted, queryPart);
    }
    counted := CountRoles(counted, roles);
    BumpAllAppend(usage, queryPart, RoleFields(roles));
  }

  /** `page.visuals.forEach(...)`: every visual of one page, in order. */
  method CountPage(usage: Tally, page: Page) returns (counted: Tally)
    ensures counted == BumpAll(usage, VisualsRefs(page.visuals))
  {
    var visuals := page.visuals;
    counted := usage;
    var j := 0;
    while j < |visuals|
      invariant 0 <= j <= |visuals|
      invariant counted == BumpAll(usage, VisualsRefs(visuals[..j]))
    {
      VisualsRefsStep(visuals, j);
      BumpAllAppend(usage, VisualsRefs(visuals[..j]), VisualRefs(visuals[j]));
      counted := CountVisual(counted, visuals[j]);
      j := j + 1;
    }
    assert visuals[..j] == visuals;
  }

  /** `analyzeColumnUsage(pages)` (source lines 51-65): the tally of every
      field reference, page by page. */
  method AnalyzeColumnUsage(pages: seq<Page>) returns (usage: Tally)
    ensures usage == TallyOf(pages)
  {
    usage := [];
    var i := 0;
    while i < |pages|
      invariant 0 <= i <= |pages|
      invariant usage == BumpAll([], Refs(pages[..i]))
    {
      RefsStep(pages, i);
      BumpAllAppend([], Refs(pages[..i]), VisualsRefs(pages[i].visuals));
      usage := CountPage(usage, pages[i]);
      i := i + 1;
    }
    assert pages[..i] == pages;
  }

  lemma RoleFieldsStep(roles: seq<(string, seq<string>)>, r: nat)
    requires r < |roles|
    ensures RoleFields(roles[..r + 1]) == RoleFields(roles[..r]) + roles[r].1
  {
    assert roles[..r + 1][..r] == roles[..r];
  }

  lemma VisualsRefsStep(visuals: seq<Visual>, j: nat)
    requires j < |visuals|
    ensures VisualsRefs(visuals[..j + 1]) == VisualsRefs(visuals[..j]) + VisualRefs(visuals[j])
  {
    assert visuals[..j + 1][..j] == visuals[..j];
  }

  lemma RefsStep(pages: seq<Page>, i: nat)
    requires i < |pages|
    ensures Refs(pages[..i + 1]) == Refs(pages[..i]) + VisualsRefs(pages[i].visuals)
  {
    assert pages[..i + 1][..i] == pages[..i];
  }

  /*** Properties of the tally ***/

  /** Counting `a` and then `b` is counting `a + b`. */
  lemma {:induction false} BumpAllAppend(t: Tally, a: seq<string>, b: seq<string>)
    ensures BumpAll(t, a + b) == BumpAll(BumpAll(t, a), b)
    decreases |b|
  {
    if |b| == 0 {
      assert a + b == a;
    } else {
      assert (a + b)[..|a + b| - 1] == a + b[..|b| - 1];
      BumpAllAppend(t, a, b[..|b| - 1]);
    }
  }

  /** Reference definition: the distinct fields of `refs`, in the order of
      their first occurrence. */
  function Dedup(refs: seq<string>): seq<string> {
    if |refs| == 0 then []
    else
      var earlier := Dedup(refs[..|refs| - 1]);
      if refs[|refs| - 1] in earlier then earlier else earlier + [refs[|refs| - 1]]
  }

  /** Reference count: the number of entries in every `query_fields` list and
      every projection list of the report. */
  function TotalEntries(pages: seq<Page>): nat {
    if |pages| == 0 then 0
    else TotalEntries(pages[..|pages| - 1]) + VisualsEntries(pages[|pages| - 1].visuals)
  }

  function VisualsEntries(vs: seq<Visual>): nat {
    if |vs| == 0 then 0
    else VisualsEntries(vs[..|vs| - 1]) + VisualEntries(vs[|vs| - 1])
  }

  function VisualEntries(v: Visual): nat {
    (if v.queryFields.Some? then |v.queryFields.value| else 0)
    + (if v.projections.Some? then RoleEntries(v.projections.value) else 0)
  }

  function RoleEntries(roles: seq<(string, seq<string>)>): nat {
    if |roles| == 0 then 0
    else RoleEntries(roles[..|roles| - 1]) + |roles[|roles| - 1].1|
  }

  /** Reference count: how often `f` is listed by one visual, its query
      fields and each projection role counted separately. */
  function VisualMentions(v: Visual, f: string): nat {
    (if v.queryFields.Some? then multiset(v.queryFields.value)[f] else 0)
    + (if v.projections.Some? then RoleMentions(v.projections.value, f) else 0)
  }

  function RoleMentions(roles: seq<(string, seq<string>)>, f: string): nat {
    if |roles| == 0 then 0
    else RoleMentions(roles[..|roles| - 1], f) + multiset(roles[|roles| - 1].1)[f]
  }

  /** One step of the tally changes only the counted field's count, by one. */
  lemma {:induction false} BumpCount(t: Tally, g: string, f: string)
    ensures CountOf(Bump(t, g), f) == CountOf(t, f) + (if f == g then 1 else 0)
    decreases |t|
  {
    if |t| > 0 && t[0].0 != g {
      BumpCount(t[1..], g, f);
      assert Bump(t, g)[1..] == Bump(t[1..], g);
    } else if |t| > 0 {
      assert Bump(t, g)[1..] == t[1..];
    }
  }

  /** One step of the tally adds one to the sum of the counts. */
  lemma {:induction false} BumpTotal(t: Tally, g: string)
    ensures Total(Bump(t, g)) == Total(t) + 1
    decreases |t|
  {
    if |t| > 0 && t[0].0 != g {
      BumpTotal(t[1..], g);
      assert Bump(t, g)[1..] == Bump(t[1..], g);
    } else if |t| > 0 {
      assert Bump(t, g)[1..] == t[1..];
    }
  }

  /** One step of the tally keeps every key in place and adds a new field
      last. */
  lemma {:induction false} BumpKeys(t: Tally, g: string)
    ensures Keys(Bump(t, g)) == if g in Keys(t) then Keys(t) else Keys(t) + [g]
    decreases |t|
  {
    if |t| > 0 && t[0].0 != g {
      BumpKeys(t[1..], g);
      assert Bump(t, g)[1..] == Bump(t[1..], g);
      assert g in Keys(t) <==> g in Keys(t[1..]);
      if g !in Keys(t) {
        assert Keys(Bump(t, g)) == [t[0].0] + (Keys(t[1..]) + [g]);
      }
    } else if |t| > 0 {
      assert Bump(t, g)[1..] == t[1..];
      assert Keys(Bump(t, g)) == [g] + Keys(t[1..]);
    }
  }

  /** One step of the tally keeps the keys distinct. */
  lemma BumpDistinct(t: Tally, g: string)
    requires DistinctKeys(t)
    ensures DistinctKeys(Bump(t, g))
  {
    BumpKeys(t, g);
    var k, k' := Keys(t), Keys(Bump(t, g));
    forall i, j | 0 <= i < j < |Bump(t, g)| ensures Bump(t, g)[i].0 != Bump(t, g)[j].0 {
      assert k'[i] == Bump(t, g)[i].0 && k'[j] == Bump(t, g)[j].0;
      if j < |t| {
        assert k[i] == t[i].0 && k[j] == t[j].0;
      } else {
        assert k'[i] == k[i];
      }
    }
  }

  /** One step of the tally keeps every count positive. */
  lemma {:induction false} BumpPositive(t: Tally, g: string)
    requires Positive(t)
    ensures Positive(Bump(t, g))
    decreases |t|
  {
    if |t| > 0 && t[0].0 != g {
      assert Positive(t[1..]) by {
        forall i | 0 <= i < |t[1..]| ensures t[1..][i].1 >= 1 {
          assert t[1..][i] == t[i + 1];
        }
      }
      BumpPositive(t[1..], g);
      assert Bump(t, g) == [t[0]] + Bump(t[1..], g);
    }
  }

  /** Counting `refs` from `t`: each count grows by the number of times its
      field occurs, the total by `|refs|`, and new fields are added in the
      order of their first occurrence. */
  lemma {:induction false} BumpAllFacts(t: Tally, refs: seq<string>)
    ensures forall f :: CountOf(BumpAll(t, refs), f) == CountOf(t, f) + multiset(refs)[f]
    ensures Total(BumpAll(t, refs)) == Total(t) + |refs|
    ensures DistinctKeys(t) ==> DistinctKeys(BumpAll(t, refs))
    ensures Positive(t) ==> Positive(BumpAll(t, refs))
    ensures t == [] ==> Keys(BumpAll(t, refs)) == Dedup(refs)
    decreases |refs|
  {
    if |refs| > 0 {
      var init, last := refs[..|refs| - 1], refs[|refs| - 1];
      assert refs == init + [last];
      BumpAllFacts(t, init);
      forall f ensures CountOf(BumpAll(t, refs), f) == CountOf(t, f) + multiset(refs)[f] {
        BumpCount(BumpAll(t, init), last, f);
      }
      BumpTotal(BumpAll(t, init), last);
      if DistinctKeys(t) {
        BumpDistinct(BumpAll(t, init), last);
      }
      if Positive(t) {
        BumpPositive(BumpAll(t, init), last);
      }
      BumpKeys(BumpAll(t, init), last);
      if t == [] {
        DedupMembers(init);
        assert last in Keys(BumpAll(t, init)) <==> last in init by {
          forall f ensures f in Keys(BumpAll(t, init)) <==> f in Dedup(init) {}
        }
      }
    }
  }

  /** The reference list holds exactly the fields of `refs`. */
  lemma {:induction false} DedupMembers(refs: seq<string>)
    ensures forall f :: f in Dedup(refs) <==> f in refs
    decreases |refs|
  {
    if |refs| > 0 {
      var init, last := refs[..|refs| - 1], refs[|refs| - 1];
      assert refs == init + [last];
      DedupMembers(init);
    }
  }

  /** The counted references are as many as the listed entries. */
  lemma {:induction false} RefsCount(pages: seq<Page>)
    ensures |Refs(pages)| == TotalEntries(pages)
    decreases |pages|
  {
    if |pages| > 0 {
      RefsCount(pages[..|pages| - 1]);
      VisualsRefsCount(pages[|pages| - 1].visuals);
    }
  }

  lemma {:induction false} VisualsRefsCount(vs: seq<Visual>)
    ensures |VisualsRefs(vs)| == VisualsEntries(vs)
    decreases |vs|
  {
    if |vs| > 0 {
      VisualsRefsCount(vs[..|vs| - 1]);
      if vs[|vs| - 1].projections.Some? {
        RoleFieldsCount(vs[|vs| - 1].projections.value);
      }
    }
  }

  lemma {:induction false} RoleFieldsCount(roles: seq<(string, seq<string>)>)
    ensures |RoleFields(roles)| == RoleEntries(roles)
    decreases |roles|
  {
    if |roles| > 0 {
      RoleFieldsCount(roles[..|roles| - 1]);
    }
  }

  /** How often one visual mentions `f`, each role counted separately. */
  lemma {:induction false} VisualRefsMentions(v: Visual, f: string)
    ensures multiset(VisualRefs(v))[f] == VisualMentions(v, f)
  {
    if v.projections.Some? {
      RoleFieldsMentions(v.projections.value, f);
    }
  }

  lemma {:induction false} RoleFieldsMentions(roles: seq<(string, seq<string>)>, f: string)
    ensures multiset(RoleFields(roles))[f] == RoleMentions(roles, f)
    decreases |roles|
  {
    if |roles| > 0 {
      RoleFieldsMentions(roles[..|roles| - 1], f);
    }
  }

  /** What `analyzeColumnUsage` promises: one entry per distinct field, in
      the order the fields are first met; a field is a key exactly when it is
      listed somewhere, with a positive count equal to the number of places
      that list it; and the counts add up to the number of listed entries. */
  lemma TallyFacts(pages: seq<Page>)
    ensures DistinctKeys(TallyOf(pages))
    ensures Positive(TallyOf(pages))
    ensures Keys(TallyOf(pages)) == Dedup(Refs(pages))
    ensures forall f :: f in Keys(TallyOf(pages)) <==> f in Refs(pages)
    ensures forall f :: CountOf(TallyOf(pages), f) == multiset(Refs(pages))[f]
    ensures Total(TallyOf(pages)) == TotalEntries(pages)
  {
    BumpAllFacts([], Refs(pages));
    DedupMembers(Refs(pages));
    RefsCount(pages);
  }

  /** For a single visual, a field's count adds up its query-field entries
      and its entries under every role, so a field listed under two roles
      counts twice, and an absent list counts nothing. */
  lemma VisualTally(v: Visual, f: string)
    ensures CountOf(TallyOf([Page([v])]), f) == VisualMentions(v, f)
  {
    var pages := [Page([v])];
    assert pages[..0] == [];
    assert [v][..0] == [];
    assert Refs(pages) == Refs([]) + VisualsRefs([v]);
    assert VisualsRefs([v]) == VisualsRefs([]) + VisualRefs(v);
    assert Refs(pages) == VisualRefs(v);
    BumpAllFacts([], Refs(pages));
    VisualRefsMentions(v, f);
  }

  /** With distinct keys, an entry's count is the count of its key. */
  lemma {:induction false} CountOfEntry(t: Tally, i: nat)
    requires DistinctKeys(t) && i < |t|
    ensures CountOf(t, t[i].0) == t[i].1
    decreases |t|
  {
    if i > 0 {
      assert t[0].0 != t[i].0;
      assert DistinctKeys(t[1..]) by {
        forall a, b | 0 <= a < b < |t[1..]| ensures t[1..][a].0 != t[1..][b].0 {
          assert t[1..][a] == t[a + 1] && t[1..][b] == t[b + 1];
        }
      }
      CountOfEntry(t[1..], i - 1);
    }
  }
}
