/**
 * The technical-drills catalogue (backend/agent/tech_engine.py): keyword and
 * name routing to a category, sub-area listings, paginated drills, the
 * role-priority table and the free-text area search. The catalogue that the
 * source loads from JSON is passed in as `cats`.
 */
module Tech {
  import opened Wrappers
  import opened Text
  import opened Seqs

  datatype Drill = Drill(
    name: string,
    howTo: seq<string>,
    equipment: Option<string>,
    coachingPoints: Option<seq<string>>,
    mistakes: Option<seq<string>>,
    repsSets: Option<string>,
    difficulty: Option<string>,
    safety: Option<string>)

  datatype FormattedDrill = FormattedDrill(
    drillName: string,
    howTo: seq<string>,
    equipment: string,
    coachingPoints: seq<string>,
    mistakes: seq<string>,
    repsSets: string,
    difficulty: string,
    safety: string)

  /** `rolePriority` maps a playing role to "core", "important", "support", ... */
  datatype Area = Area(
    areaId: string,
    name: string,
    description: string,
    whyItMatters: string,
    drills: seq<Drill>,
    rolePriority: map<string, string>)

  datatype Category = Category(categoryId: string, categoryName: string, areas: seq<Area>)

  datatype AreaSummary = AreaSummary(areaId: string, name: string, description: string)

  datatype AreaDetail = AreaDetail(
    areaName: string,
    description: string,
    whyItMatters: string,
    drills: seq<FormattedDrill>)

  datatype Page = Page(returned: seq<FormattedDrill>, total: nat, remaining: nat)

  datatype CategoryRef = CategoryRef(categoryId: string, categoryName: string)

  datatype Recommendation = Recommendation(
    priority: seq<CategoryRef>,
    secondary: seq<CategoryRef>,
    low: seq<CategoryRef>,
    structured: bool)

  datatype RolePlan = RolePlan(priority: seq<string>, secondary: seq<string>, low: seq<string>)

  /** Keyword routing, in the insertion order of the source's dictionary. */
  const KEYWORD_MAP: seq<(string, string)> := [
    ("decision", "A"), ("decision making", "A"), ("shot selection", "A"), ("innings building", "A"),
    ("timing", "B"), ("hand eye", "B"), ("late contact", "B"), ("middle bat", "B"),
    ("footwork", "C"), ("front foot", "C"), ("back foot", "C"), ("trigger", "C"), ("balance", "C"),
    ("pace", "D"), ("fast bowling", "D"), ("swing", "D"), ("seam", "D"), ("short ball", "D"),
    ("bouncer", "D"),
    ("spin", "E"), ("sweep", "E"), ("reverse sweep", "E"), ("slog sweep", "E"), ("offbreak", "E"),
    ("legbreak", "E"),
    ("placement", "F"), ("rotation", "F"), ("strike rotation", "F"), ("singles", "F"),
    ("running", "G"), ("between wickets", "G"), ("diving", "G"),
    ("power hitting", "H"), ("finishing", "H"), ("death overs", "H"),
    ("mental", "I"), ("mind", "I"), ("awareness", "I"), ("pressure", "I"), ("mindset", "I")
  ]

  const CATEGORY_IDS: seq<string> := ["A", "B", "C", "D", "E", "F", "G", "H", "I"]

  const TOP_ORDER_PLAN := RolePlan(["A", "B", "C", "D"], ["F", "I"], ["E", "H", "G"])
  const MIDDLE_ORDER_PLAN := RolePlan(["E", "F", "I"], ["C", "B", "H"], ["A", "G", "D"])
  const FINISHER_PLAN := RolePlan(["H", "F", "I"], ["B", "C"], ["D", "A", "E", "G"])
  const ALL_ROUNDER_PLAN := RolePlan(["I", "B", "C"], ["E", "D", "F"], ["A", "H", "G"])
  const KEEPER_PLAN := RolePlan(["B", "E", "F"], ["C", "I"], ["A", "D", "G", "H"])
  /** Shared by the four tail-ender roles. */
  const TAIL_ENDER_PLAN := RolePlan(["B", "F", "D"], ["C", "I"], ["A", "E", "H", "G"])

  const ROLE_PRIORITY_MAP: map<string, RolePlan> := map[
    "top order batsman" := TOP_ORDER_PLAN,
    "middle order batsman" := MIDDLE_ORDER_PLAN,
    "finisher" := FINISHER_PLAN,
    "all rounder" := ALL_ROUNDER_PLAN,
    "wicket keeper batsman" := KEEPER_PLAN,
    "fast bowler" := TAIL_ENDER_PLAN,
    "medium bowler" := TAIL_ENDER_PLAN,
    "wrist spinner" := TAIL_ENDER_PLAN,
    "finger spinner" := TAIL_ENDER_PLAN
  ]

  const STOPWORDS: set<string> := {
    "how", "to", "improve", "fix", "help", "teach", "train", "practice",
    "get", "the", "my", "in", "on", "for", "batting", "skills", "area", "i", "want"
  }

  /** The role whose "core" areas the free-text search ranks first. */
  const REFERENCE_ROLE := "top order batsman"

  function Min(a: int, b: int): int { if a <= b then a else b }

  function Max(a: int, b: int): int { if a >= b then a else b }

  function GetOr<T>(o: Option<T>, default: T): T {
    if o.Some? then o.value else default
  }

  // ---------------------------------------------------------------
  // Formatting
  // ---------------------------------------------------------------

  /** One drill as the source formats it: missing optional fields get their
      defaults ("" or []). */
  function FormatDrill(d: Drill): FormattedDrill {
    FormattedDrill(d.name, d.howTo, GetOr(d.equipment, ""), GetOr(d.coachingPoints, []),
                   GetOr(d.mistakes, []), GetOr(d.repsSets, ""), GetOr(d.difficulty, ""),
                   GetOr(d.safety, ""))
  }

  function FormatDrills(ds: seq<Drill>): (r: seq<FormattedDrill>)
    ensures |r| == |ds|
    ensures forall i :: 0 <= i < |ds| ==> r[i] == FormatDrill(ds[i])
  {
    seq(|ds|, i requires 0 <= i < |ds| => FormatDrill(ds[i]))
  }

  lemma FormatDrillsAppend(x: seq<Drill>, y: seq<Drill>)
    ensures FormatDrills(x + y) == FormatDrills(x) + FormatDrills(y)
  {
  }

  function FormatArea(area: Area): AreaDetail {
    AreaDetail(area.name, area.description, area.whyItMatters, FormatDrills(area.drills))
  }

  /** format_area_output: keeps the area's texts, and one formatted drill per
      drill, in order, with defaults for the missing optional fields. */
  method FormatAreaOutput(area: Area) returns (r: AreaDetail)
    ensures r == FormatArea(area)
    ensures r.areaName == area.name && |r.drills| == |area.drills|
    ensures forall i :: 0 <= i < |area.drills| ==>
      r.drills[i].drillName == area.drills[i].name && r.drills[i].howTo == area.drills[i].howTo
    ensures forall i :: 0 <= i < |area.drills| && area.drills[i].equipment.None? ==>
      r.drills[i].equipment == ""
    ensures forall i :: 0 <= i < |area.drills| && area.drills[i].safety.None? ==>
      r.drills[i].safety == ""
  {
    var out: seq<FormattedDrill> := [];
    var i := 0;
    while i < |area.drills|
      invariant 0 <= i <= |area.drills|
      invariant out == FormatDrills(area.drills[..i])
    {
      out := out + [FormatDrill(area.drills[i])];
      i := i + 1;
    }
    r := AreaDetail(area.name, area.description, area.whyItMatters, out);
  }

  // ---------------------------------------------------------------
  // Lookups
  // ---------------------------------------------------------------

  /** Every area of the catalogue, category by category, in catalogue order. */
  function AllAreas(cats: seq<Category>): seq<Area> {
    if cats == [] then [] else cats[0].areas + AllAreas(cats[1..])
  }

  /** get_category_by_id: the first category with exactly this id. */
  function GetCategoryById(cats: seq<Category>, id: string): (r: Option<Category>)
    ensures r.Some? ==> exists i :: 0 <= i < |cats| && cats[i] == r.value && r.value.categoryId == id
                          && forall j :: 0 <= j < i ==> cats[j].categoryId != id
    ensures r.None? <==> forall i :: 0 <= i < |cats| ==> cats[i].categoryId != id
  {
    var k := FirstWhere(cats, (c: Category) => c.categoryId == id);
    if k.Some? then Some(cats[k.value]) else None
  }

  /** The index of the first routing keyword that occurs in the lowercased text. */
  function FirstKeyword(text: string): Option<nat> {
    FirstKeyFrom(KEYWORD_MAP, Lower(text), 0)
  }

  /** Dictionary order decides: the keyword found occurs in the lowercased
      text and no keyword before it does; None means none occurs. */
  lemma FirstKeywordFirst(text: string)
    ensures var r := FirstKeyword(text);
            (r.Some? ==> r.value < |KEYWORD_MAP| && Contains(Lower(text), KEYWORD_MAP[r.value].0))
            && (r.Some? ==> forall j :: 0 <= j < r.value ==> !Contains(Lower(text), KEYWORD_MAP[j].0))
            && (r.None? ==> forall j :: 0 <= j < |KEYWORD_MAP| ==> !Contains(Lower(text), KEYWORD_MAP[j].0))
  {
    FirstKeyFromFirst(KEYWORD_MAP, Lower(text), 0);
  }

  /** keyword_to_category: the category named by the first keyword (in map
      order) occurring in the text; None when no keyword occurs, and also when
      the first one names an id missing from the catalogue. */
  function KeywordToCategory(cats: seq<Category>, text: string): Option<Category> {
    var k := FirstKeyword(text);
    if k.None? then None else GetCategoryById(cats, KEYWORD_MAP[k.value].1)
  }

  lemma KeywordToCategoryMapped(cats: seq<Category>, text: string)
    ensures var r := KeywordToCategory(cats, text);
            var k := FirstKeyword(text);
            (k.None? ==> r.None?)
            && (r.Some? ==> r.value in cats && k.Some? && k.value < |KEYWORD_MAP|
                            && r.value.categoryId == KEYWORD_MAP[k.value].1)
            && (k.Some? && k.value < |KEYWORD_MAP| ==>
                  (r.Some? <==> exists c :: c in cats && c.categoryId == KEYWORD_MAP[k.value].1))
  {
    FirstKeywordFirst(text);
    var k := FirstKeyword(text);
    if k.Some? {
      var id := KEYWORD_MAP[k.value].1;
      var r := GetCategoryById(cats, id);
      if r.None? {
        forall c | c in cats ensures c.categoryId != id {
          var i :| 0 <= i < |cats| && cats[i] == c;
        }
      } else {
        var i :| 0 <= i < |cats| && cats[i] == r.value && r.value.categoryId == id
                 && forall j :: 0 <= j < i ==> cats[j].categoryId != id;
      }
    }
  }

  /** The legacy name test: the full category name, or any single word of it,
      occurs in the text. */
  predicate NameMatches(c: Category, text: string) {
    Contains(text, Lower(c.categoryName)) || ContainsAny(text, Words(Lower(c.categoryName)))
  }

  /** find_category_from_query: keyword routing first, then the first
      category in catalogue order whose name or a word of it occurs. */
  function FindCategoryFromQuery(cats: seq<Category>, text: string): (r: Option<Category>)
    ensures r.Some? ==> r.value in cats
  {
    var t := Lower(text);
    var mapped := KeywordToCategory(cats, t);
    if mapped.Some? then
      KeywordToCategoryMapped(cats, t);
      mapped
    else
      var k := FirstWhere(cats, (c: Category) => NameMatches(c, t));
      if k.Some? then Some(cats[k.value]) else None
  }

  /** Keyword routing wins when it names a category; otherwise the first
      category whose name matches, and None only when no name matches. */
  lemma FindCategoryOrder(cats: seq<Category>, text: string)
    ensures var r := FindCategoryFromQuery(cats, text);
            var mapped := KeywordToCategory(cats, Lower(text));
            (mapped.Some? ==> r == mapped)
            && (mapped.None? ==> (r.None? <==> forall i :: 0 <= i < |cats| ==> !NameMatches(cats[i], Lower(text))))
            && (mapped.None? && r.Some? ==>
                  exists i :: 0 <= i < |cats| && cats[i] == r.value && NameMatches(cats[i], Lower(text))
                              && forall j :: 0 <= j < i ==> !NameMatches(cats[j], Lower(text)))
  {
    var t := Lower(text);
    var k := FirstWhere(cats, (c: Category) => NameMatches(c, t));
    if KeywordToCategory(cats, t).None? && k.Some? {
      assert NameMatches(cats[k.value], t);
    }
  }

  function Summaries(areas: seq<Area>): (r: seq<AreaSummary>)
    ensures |r| == |areas|
    ensures forall i :: 0 <= i < |areas| ==>
      r[i] == AreaSummary(areas[i].areaId, areas[i].name, areas[i].description)
  {
    seq(|areas|, i requires 0 <= i < |areas| => AreaSummary(areas[i].areaId, areas[i].name, areas[i].description))
  }

  /** The first category whose name equals `name` ignoring case. */
  function CategoryNamed(cats: seq<Category>, name: string): (r: Option<nat>)
    ensures r.Some? ==> r.value < |cats| && Lower(cats[r.value].categoryName) == Lower(name)
    ensures r.Some? ==> forall j :: 0 <= j < r.value ==> Lower(cats[j].categoryName) != Lower(name)
    ensures r.None? ==> forall j :: 0 <= j < |cats| ==> Lower(cats[j].categoryName) != Lower(name)
  {
    FirstWhere(cats, (c: Category) => Lower(c.categoryName) == Lower(name))
  }

  /** get_sub_areas: the id, name and description of every area of the first
      category named `name` (ignoring case), in order; [] if there is none. */
  function GetSubAreas(cats: seq<Category>, name: string): (r: seq<AreaSummary>)
    ensures CategoryNamed(cats, name).None? ==> r == []
    ensures CategoryNamed(cats, name).Some? ==>
              var c := cats[CategoryNamed(cats, name).value];
              |r| == |c.areas| &&
              forall i :: 0 <= i < |r| ==>
                r[i].areaId == c.areas[i].areaId && r[i].name == c.areas[i].name
                && r[i].description == c.areas[i].description
  {
    var k := CategoryNamed(cats, name);
    if k.Some? then Summaries(cats[k.value].areas) else []
  }

  /** get_area_details_by_name: the formatted first area (catalogue order)
      whose name equals `name` ignoring case. */
  function GetAreaDetailsByName(cats: seq<Category>, name: string): (r: Option<AreaDetail>)
    ensures AreaNamed(AllAreas(cats), name).None? ==> r.None?
    ensures AreaNamed(AllAreas(cats), name).Some? ==>
              r == Some(FormatArea(AllAreas(cats)[AreaNamed(AllAreas(cats), name).value]))
  {
    var all := AllAreas(cats);
    var k := AreaNamed(all, name);
    if k.Some? then Some(FormatArea(all[k.value])) else None
  }

  /** The first area whose name equals `name` ignoring case. */
  function AreaNamed(areas: seq<Area>, name: string): (r: Option<nat>)
    ensures r.Some? ==> r.value < |areas| && Lower(areas[r.value].name) == Lower(name)
    ensures r.Some? ==> forall j :: 0 <= j < r.value ==> Lower(areas[j].name) != Lower(name)
    ensures r.None? ==> forall j :: 0 <= j < |areas| ==> Lower(areas[j].name) != Lower(name)
  {
    FirstWhere(areas, (a: Area) => Lower(a.name) == Lower(name))
  }

  // ---------------------------------------------------------------
  // Paginated drills
  // ---------------------------------------------------------------

  /** The first area (catalogue order) with exactly this id. */
  function AreaById(cats: seq<Category>, id: string): (r: Option<Area>)
    ensures r.Some? ==> r.value in AllAreas(cats) && r.value.areaId == id
    ensures r.None? ==> forall a :: a in AllAreas(cats) ==> a.areaId != id
  {
    var all := AllAreas(cats);
    var k := FirstWhere(all, (a: Area) => a.areaId == id);
    if k.Some? then Some(all[k.value]) else None
  }

  /** The area found by id is the first one, in catalogue order, carrying it. */
  lemma AreaByIdFirst(cats: seq<Category>, id: string)
    ensures AreaById(cats, id).Some? ==>
              exists k :: 0 <= k < |AllAreas(cats)| && AllAreas(cats)[k] == AreaById(cats, id).value
                          && forall j :: 0 <= j < k ==> AllAreas(cats)[j].areaId != id
  {
    var all := AllAreas(cats);
    var k := FirstWhere(all, (a: Area) => a.areaId == id);
    if k.Some? {
      assert all[k.value] == AreaById(cats, id).value;
    }
  }

  /** The page get_area_drills returns: Python's clamped slice
      `drills[start:start+count]`, the total, and `max(0, total-(start+count))`. */
  function DrillPage(cats: seq<Category>, id: string, start: nat, count: nat): (p: Page)
    ensures |p.returned| <= count
  {
    match AreaById(cats, id)
    case None => Page([], 0, 0)
    case Some(area) =>
      var n := |area.drills|;
      Page(FormatDrills(area.drills[Min(start, n)..Min(start + count, n)]), n, Max(0, n - (start + count)))
  }

  /** get_area_drills */
  method GetAreaDrills(cats: seq<Category>, id: string, start: nat, count: nat) returns (p: Page)
    ensures p == DrillPage(cats, id, start, count)
    ensures |p.returned| <= count
    ensures start <= p.total ==> start + |p.returned| + p.remaining == p.total
  {
    var area := AreaById(cats, id);
    if area.None? {
      return Page([], 0, 0);
    }
    var drills := area.value.drills;
    var lo := Min(start, |drills|);
    var hi := Min(start + count, |drills|);
    var formatted: seq<FormattedDrill> := [];
    var i := lo;
    while i < hi
      invariant lo <= i <= hi
      invariant formatted == FormatDrills(drills[lo..i])
    {
      formatted := formatted + [FormatDrill(drills[i])];
      i := i + 1;
    }
    p := Page(formatted, |drills|, Max(0, |drills| - (start + count)));
  }

  /** What `k` pages of two drills show, starting from cursor 0. */
  function Shown(cats: seq<Category>, id: string, k: nat): seq<FormattedDrill> {
    if k == 0 then [] else Shown(cats, id, k - 1) + DrillPage(cats, id, 2 * (k - 1), 2).returned
  }

  /** Paging with a cursor advanced by 2 shows the area's drills in catalogue
      order, without gaps or overlaps; the page at cursor 2k reports exactly
      the drills beyond it as remaining, and is empty once the cursor is past the end. */
  lemma {:induction false} PagesAreContiguous(cats: seq<Category>, id: string, k: nat)
    requires AreaById(cats, id).Some?
    ensures var drills := AreaById(cats, id).value.drills;
            Shown(cats, id, k) == FormatDrills(drills[..Min(2 * k, |drills|)])
    ensures var drills := AreaById(cats, id).value.drills;
            DrillPage(cats, id, 2 * k, 2).remaining == Max(0, |drills| - 2 * k - 2)
    ensures var drills := AreaById(cats, id).value.drills;
            2 * k >= |drills| ==> DrillPage(cats, id, 2 * k, 2).returned == []
  {
    var drills := AreaById(cats, id).value.drills;
    var n := |drills|;
    if k > 0 {
      PagesAreContiguous(cats, id, k - 1);
      var a := Min(2 * (k - 1), n);
      var b := Min(2 * k, n);
      assert DrillPage(cats, id, 2 * (k - 1), 2).returned == FormatDrills(drills[a..b]);
      assert drills[..b] == drills[..a] + drills[a..b];
      FormatDrillsAppend(drills[..a], drills[a..b]);
    }
  }

  /** An unknown area id gives an empty page with total and remaining 0. */
  lemma UnknownAreaPage(cats: seq<Category>, id: string, start: nat, count: nat)
    requires forall c :: c in cats ==> forall a :: a in c.areas ==> a.areaId != id
    ensures DrillPage(cats, id, start, count) == Page([], 0, 0)
  {
    AllAreasMembers(cats);
  }

  lemma {:induction false} AllAreasMembers(cats: seq<Category>)
    ensures forall a :: a in AllAreas(cats) <==> exists c :: c in cats && a in c.areas
  {
    if cats != [] {
      AllAreasMembers(cats[1..]);
      assert forall c :: c in cats <==> c == cats[0] || c in cats[1..];
    }
  }

  // ---------------------------------------------------------------
  // Role priority table and recommendations
  // ---------------------------------------------------------------

  /** No id is listed twice across the three lists (so they are pairwise
      disjoint and free of repeats), and together they list exactly the
      categories A to I. */
  ghost predicate PartitionsCategories(p: RolePlan) {
    var all := p.priority + p.secondary + p.low;
    && (forall i, j :: 0 <= i < j < |all| ==> all[i] != all[j])
    && (forall x :: x in all <==> x in CATEGORY_IDS)
  }

  lemma TopOrderPlanPartitions()
    ensures PartitionsCategories(TOP_ORDER_PLAN)
  {
    var p := TOP_ORDER_PLAN;
    assert p.priority + p.secondary + p.low == ["A", "B", "C", "D", "F", "I", "E", "H", "G"];
  }

  lemma MiddleOrderPlanPartitions()
    ensures PartitionsCategories(MIDDLE_ORDER_PLAN)
  {
    var p := MIDDLE_ORDER_PLAN;
    assert p.priority + p.secondary + p.low == ["E", "F", "I", "C", "B", "H", "A", "G", "D"];
  }

  lemma FinisherPlanPartitions()
    ensures PartitionsCategories(FINISHER_PLAN)
  {
    var p := FINISHER_PLAN;
    assert p.priority + p.secondary + p.low == ["H", "F", "I", "B", "C", "D", "A", "E", "G"];
  }

  lemma AllRounderPlanPartitions()
    ensures PartitionsCategories(ALL_ROUNDER_PLAN)
  {
    var p := ALL_ROUNDER_PLAN;
    assert p.priority + p.secondary + p.low == ["I", "B", "C", "E", "D", "F", "A", "H", "G"];
  }

  lemma KeeperPlanPartitions()
    ensures PartitionsCategories(KEEPER_PLAN)
  {
    var p := KEEPER_PLAN;
    assert p.priority + p.secondary + p.low == ["B", "E", "F", "C", "I", "A", "D", "G", "H"];
  }

  lemma TailEnderPlanPartitions()
    ensures PartitionsCategories(TAIL_ENDER_PLAN)
  {
    var p := TAIL_ENDER_PLAN;
    assert p.priority + p.secondary + p.low == ["B", "F", "D", "C", "I", "A", "E", "H", "G"];
  }

  /** Every role of the table splits the nine categories into its three lists. */
  lemma RolePlansPartitionCategories()
    ensures forall role :: role in ROLE_PRIORITY_MAP ==> PartitionsCategories(ROLE_PRIORITY_MAP[role])
  {
    TopOrderPlanPartitions();
    MiddleOrderPlanPartitions();
    FinisherPlanPartitions();
    AllRounderPlanPartitions();
    KeeperPlanPartitions();
    TailEnderPlanPartitions();
  }

  /** `[{id, name} for cat in cats if cat.id == id]`, on prefixes. */
  function RefsWithId(cats: seq<Category>, id: string): seq<CategoryRef> {
    if cats == [] then []
    else
      var last := cats[|cats| - 1];
      RefsWithId(cats[..|cats| - 1], id) + (if last.categoryId == id then [CategoryRef(id, last.categoryName)] else [])
  }

  /** The `build` helper of recommend_technical_areas: for each id in order,
      every catalogue category carrying it. */
  function Build(cats: seq<Category>, ids: seq<string>): seq<CategoryRef> {
    if ids == [] then [] else Build(cats, ids[..|ids| - 1]) + RefsWithId(cats, ids[|ids| - 1])
  }

  method BuildRefs(cats: seq<Category>, ids: seq<string>) returns (out: seq<CategoryRef>)
    ensures out == Build(cats, ids)
  {
    out := [];
    var i := 0;
    while i < |ids|
      invariant 0 <= i <= |ids|
      invariant out == Build(cats, ids[..i])
    {
      var j := 0;
      ghost var before := out;
      while j < |cats|
        invariant 0 <= j <= |cats|
        invariant out == before + RefsWithId(cats[..j], ids[i])
      {
        if cats[j].categoryId == ids[i] {
          out := out + [CategoryRef(ids[i], cats[j].categoryName)];
        }
        assert cats[..j + 1][..j] == cats[..j];
        j := j + 1;
      }
      assert cats[..j] == cats;
      assert ids[..i + 1][..i] == ids[..i];
      i := i + 1;
    }
    assert ids[..i] == ids;
  }

  predicate DistinctIds(cats: seq<Category>) {
    forall i, j :: 0 <= i < j < |cats| ==> cats[i].categoryId != cats[j].categoryId
  }

  lemma {:induction false} RefsWithUniqueId(cats: seq<Category>, id: string, k: nat)
    requires DistinctIds(cats)
    requires k < |cats| && cats[k].categoryId == id
    ensures RefsWithId(cats, id) == [CategoryRef(id, cats[k].categoryName)]
  {
    var n := |cats|;
    var init := cats[..n - 1];
    if k == n - 1 {
      RefsWithAbsentId(init, id);
    } else {
      RefsWithUniqueId(init, id, k);
    }
  }

  lemma {:induction false} RefsWithAbsentId(cats: seq<Category>, id: string)
    requires forall i :: 0 <= i < |cats| ==> cats[i].categoryId != id
    ensures RefsWithId(cats, id) == []
  {
    if cats != [] {
      RefsWithAbsentId(cats[..|cats| - 1], id);
    }
  }

  predicate HasId(cats: seq<Category>, id: string) {
    exists k :: 0 <= k < |cats| && cats[k].categoryId == id
  }

  /** With a catalogue whose ids are distinct and cover the requested ids,
      the built list has one entry per requested id, in the requested order. */
  lemma {:induction false} BuildFollowsIds(cats: seq<Category>, ids: seq<string>)
    requires DistinctIds(cats)
    requires forall i :: 0 <= i < |ids| ==> HasId(cats, ids[i])
    ensures |Build(cats, ids)| == |ids|
    ensures forall i :: 0 <= i < |ids| ==> Build(cats, ids)[i].categoryId == ids[i]
  {
    if ids != [] {
      var n := |ids|;
      var init := ids[..n - 1];
      assert forall i :: 0 <= i < |init| ==> init[i] == ids[i];
      BuildFollowsIds(cats, init);
      assert HasId(cats, ids[n - 1]);
      var k :| 0 <= k < |cats| && cats[k].categoryId == ids[n - 1];
      RefsWithUniqueId(cats, ids[n - 1], k);
      var b := Build(cats, init);
      var full := Build(cats, ids);
      assert full == b + [CategoryRef(ids[n - 1], cats[k].categoryName)];
      forall i | 0 <= i < n ensures full[i].categoryId == ids[i] {
        if i < n - 1 {
          assert full[i] == b[i];
        }
      }
    }
  }

  /** recommend_technical_areas */
  method RecommendTechnicalAreas(cats: seq<Category>, playingRole: string) returns (r: Recommendation)
    ensures Lower(playingRole) !in ROLE_PRIORITY_MAP ==> r == Recommendation([], [], [], false)
    ensures Lower(playingRole) in ROLE_PRIORITY_MAP ==>
              var plan := ROLE_PRIORITY_MAP[Lower(playingRole)];
              r == Recommendation(Build(cats, plan.priority), Build(cats, plan.secondary), Build(cats, plan.low), true)
  {
    var role := Lower(playingRole);
    if role !in ROLE_PRIORITY_MAP {
      return Recommendation([], [], [], false);
    }
    var plan := ROLE_PRIORITY_MAP[role];
    var priority := BuildRefs(cats, plan.priority);
    var secondary := BuildRefs(cats, plan.secondary);
    var low := BuildRefs(cats, plan.low);
    r := Recommendation(priority, secondary, low, true);
  }

  /** _score: 3 for "core", 2 for "important", 1 otherwise or for an absent role. */
  function Score(role: string, priorityMap: map<string, string>): (r: int)
    ensures 1 <= r <= 3
    ensures r == 3 <==> role in priorityMap && priorityMap[role] == "core"
    ensures r == 2 <==> role in priorityMap && priorityMap[role] == "important"
  {
    if role !in priorityMap then 1
    else
      var val := priorityMap[role];
      if val == "core" then 3
      else if val == "important" then 2
      else if val == "support" then 1
      else 1
  }

  // ---------------------------------------------------------------
  // Free-text area search
  // ---------------------------------------------------------------

  predicate NotStopword(w: string) {
    w !in STOPWORDS
  }

  /** The words of the (lowercased) text that are not stopwords. */
  function CleanedWords(text: string): seq<string> {
    Filter(Words(text), NotStopword)
  }

  /** The area's lowercased name occurs in the text, or one of the cleaned
      words occurs in that name. */
  predicate AreaMatches(area: Area, text: string, cleaned: seq<string>) {
    Contains(text, Lower(area.name)) || ContainsAny(Lower(area.name), cleaned)
  }

  function MatchesQuery(text: string, cleaned: seq<string>): Area -> bool {
    (a: Area) => AreaMatches(a, text, cleaned)
  }

  /** Flagged "core" for the reference role (`.get(role, "") == "core"`). */
  predicate IsCore(a: Area) {
    REFERENCE_ROLE in a.rolePriority && a.rolePriority[REFERENCE_ROLE] == "core"
  }

  predicate NotCore(a: Area) {
    !IsCore(a)
  }

  /** Python's stable `sort(key=3 if core else 1, reverse=True)`. */
  function CoreFirst(cands: seq<Area>): seq<Area> {
    Filter(cands, IsCore) + Filter(cands, NotCore)
  }

  function SortKey(a: Area): int {
    if IsCore(a) then 3 else 1
  }

  /** CoreFirst is ordered by descending key. */
  lemma CoreFirstSorted(cands: seq<Area>)
    ensures var out := CoreFirst(cands);
            forall i, j :: 0 <= i < j < |out| ==> SortKey(out[i]) >= SortKey(out[j])
  {
    var core := Filter(cands, IsCore);
    var rest := Filter(cands, NotCore);
    FilterMembers(cands, IsCore);
    FilterMembers(cands, NotCore);
    var out := core + rest;
    forall i, j | 0 <= i < j < |out| ensures SortKey(out[i]) >= SortKey(out[j]) {
      if j >= |core| {
        assert out[j] == rest[j - |core|];
        assert out[j] in rest;
      } else {
        assert out[i] == core[i] && out[i] in core;
      }
    }
  }

  /** CoreFirst is a permutation of its input. */
  lemma CoreFirstPermutes(cands: seq<Area>)
    ensures multiset(CoreFirst(cands)) == multiset(cands)
  {
    PartitionMultiset(cands);
  }

  /** CoreFirst keeps the input order within each key class: together with
      the two lemmas above, it is exactly Python's stable sort on the key. */
  lemma CoreFirstStable(cands: seq<Area>)
    ensures Filter(CoreFirst(cands), IsCore) == Filter(cands, IsCore)
    ensures Filter(CoreFirst(cands), NotCore) == Filter(cands, NotCore)
  {
    var core := Filter(cands, IsCore);
    var rest := Filter(cands, NotCore);
    FilterAppend(core, rest, IsCore);
    FilterAppend(core, rest, NotCore);
    FilterIdempotent(cands, IsCore);
    FilterIdempotent(cands, NotCore);
    FilterDisjoint(cands, IsCore, NotCore);
    FilterDisjoint(cands, NotCore, IsCore);
  }

  lemma {:induction false} PartitionMultiset(s: seq<Area>)
    ensures multiset(Filter(s, IsCore)) + multiset(Filter(s, NotCore)) == multiset(s)
  {
    if s != [] {
      var init := s[..|s| - 1];
      PartitionMultiset(init);
      assert s == init + [s[|s| - 1]];
    }
  }

  /** The search as the source computes it, on values. */
  function SearchArea(cats: seq<Category>, query: string): Option<Area> {
    var text := Lower(query);
    var cleaned := CleanedWords(text);
    if cleaned == [] then None
    else
      var cands := Filter(AllAreas(cats), MatchesQuery(text, cleaned));
      if cands == [] then None else Some(CoreFirst(cands)[0])
  }

  /** search_area_by_query: nothing when every word is a stopword, whatever
      area names the text holds; otherwise the first matching area (catalogue
      order) flagged core for the reference role, else the first matching area. */
  lemma SearchAreaChoice(cats: seq<Category>, query: string)
    ensures CleanedWords(Lower(query)) == [] ==> SearchArea(cats, query).None?
    ensures var text := Lower(query);
            var m := MatchesQuery(text, CleanedWords(text));
            var all := AllAreas(cats);
            CleanedWords(text) != [] ==>
              && (FirstWhere(all, m).None? ==> SearchArea(cats, query).None?)
              && (FirstWhere(all, Both(m, IsCore)).Some? ==>
                    SearchArea(cats, query) == Some(all[FirstWhere(all, Both(m, IsCore)).value]))
              && (FirstWhere(all, m).Some? && FirstWhere(all, Both(m, IsCore)).None? ==>
                    SearchArea(cats, query) == Some(all[FirstWhere(all, m).value]))
  {
    var text := Lower(query);
    var cleaned := CleanedWords(text);
    var all := AllAreas(cats);
    if cleaned != [] {
      var m := MatchesQuery(text, cleaned);
      var cands := Filter(all, m);
      if cands == [] {
        FilterHeadAbsent(all, m);
      } else {
        FilterHead(all, m);
        FilterOfFilter(all, m, IsCore);
        var core := Filter(cands, IsCore);
        if core != [] {
          FilterHead(all, Both(m, IsCore));
          assert CoreFirst(cands)[0] == core[0];
        } else {
          FilterHeadAbsent(all, Both(m, IsCore));
          assert CoreFirst(cands) == Filter(cands, NotCore);
          FilterNoneMeansNone(cands, IsCore);
          FilterAllMeansAll(cands, NotCore);
        }
      }
    }
  }

  /** The candidate loop of search_area_by_query: the areas whose name
      occurs in the text or holds a cleaned word, in catalogue order. */
  method CollectCandidates(areas: seq<Area>, text: string, cleaned: seq<string>) returns (candidates: seq<Area>)
    ensures candidates == Filter(areas, MatchesQuery(text, cleaned))
  {
    ghost var m := MatchesQuery(text, cleaned);
    candidates := [];
    var i := 0;
    while i < |areas|
      invariant 0 <= i <= |areas|
      invariant candidates == Filter(areas[..i], m)
    {
      var area := areas[i];
      var name := Lower(area.name);
      var matched := Contains(text, name);
      if !matched {
        matched := AnyOccurs(name, cleaned);
      }
      assert matched == m(area);
      FilterStep(areas, i, m);
      if matched {
        candidates := candidates + [area];
      }
      i := i + 1;
    }
    assert areas[..i] == areas;
  }

  /** search_area_by_query, building the candidate list by a loop over the
      catalogue and ranking it core-first. */
  method SearchAreaByQuery(cats: seq<Category>, query: string) returns (r: Option<Area>)
    ensures r == SearchArea(cats, query)
  {
    var text := Lower(query);
    var cleaned := CleanedWords(text);
    if |cleaned| == 0 {
      return None;
    }
    var candidates := CollectCandidates(AllAreas(cats), text, cleaned);
    if candidates == [] {
      return None;
    }
    var ranked := CoreFirst(candidates);
    r := Some(ranked[0]);
  }
}
