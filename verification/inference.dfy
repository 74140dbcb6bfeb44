/**
 * Shot and fundamental inference: first-match keyword detectors over fixed
 * and loaded tables, and the priority dispatch of a query.
 *
 * Only the line structure of the drills answer is modelled; the wording of
 * the other formatted answers is not.
 */
module Inference {
  import opened Wrappers
  import opened Text
  import opened Seqs

  datatype ShotDrill = ShotDrill(name: string, howTo: seq<string>, repsSets: string, safety: string)

  /** A shot of the shots table, with the parts the drills answer shows. */
  datatype Shot = Shot(name: string, drills: seq<ShotDrill>)

  /** A fundamentals entry, with the keywords that detect it. */
  datatype Fundamental = Fundamental(keywords: seq<string>)

  /** The three loaded tables: shots by key, fundamentals in file order, and
      the beginner roadmap's trigger keywords. */
  datatype Knowledge = Knowledge(
    shots: map<string, Shot>,
    fundamentals: seq<(string, Fundamental)>,
    roadmapTriggers: seq<string>)

  datatype Intent = DrillsOnly | FullExplanation

  const DRILL_KEYWORDS: seq<string> := ["drill", "practice", "improve", "training"]

  /** Shot keywords in table order; the first one occurring wins. */
  const SHOT_KEYWORDS: seq<(string, string)> := [
    ("forward defence", "FORWARD_DEFENCE"),
    ("forward defense", "FORWARD_DEFENCE"),
    ("cut", "CUT_SHOT"),
    ("cut shot", "CUT_SHOT"),
    ("pull", "PULL_SHOT"),
    ("pull shot", "PULL_SHOT")
  ]

  const SHOT_NOT_IDENTIFIED := "Sorry, I couldn't identify the shot you are asking about."
  const SHOT_NOT_AVAILABLE := "Sorry, I don't have information about that shot yet."

  /** _detect_intent */
  function DetectIntent(query: string): (r: Intent)
    ensures r == DrillsOnly <==> exists k :: 0 <= k < |DRILL_KEYWORDS| && Contains(query, DRILL_KEYWORDS[k])
  {
    if ContainsAny(query, DRILL_KEYWORDS) then DrillsOnly else FullExplanation
  }

  function ShotKeyIn(query: string): ((string, string)) -> bool {
    (e: (string, string)) => Contains(query, e.0)
  }

  /** _detect_shot: the shot of the first keyword (table order) occurring in
      the query. */
  function DetectShot(query: string): (r: Option<string>)
    ensures r.None? <==> forall k :: 0 <= k < |SHOT_KEYWORDS| ==> !Contains(query, SHOT_KEYWORDS[k].0)
    ensures r.Some? ==>
              exists k :: 0 <= k < |SHOT_KEYWORDS| && Contains(query, SHOT_KEYWORDS[k].0)
                          && r.value == SHOT_KEYWORDS[k].1
                          && forall j :: 0 <= j < k ==> !Contains(query, SHOT_KEYWORDS[j].0)
  {
    var k := FirstWhere(SHOT_KEYWORDS, ShotKeyIn(query));
    if k.Some? then
      assert ShotKeyIn(query)(SHOT_KEYWORDS[k.value]);
      Some(SHOT_KEYWORDS[k.value].1)
    else
      None
  }

  /** "cut shot" never decides: "cut" comes first and occurs in it. Both map
      to the same shot, so the answer is unaffected. */
  lemma CutShotShadowed(query: string)
    ensures FirstWhere(SHOT_KEYWORDS, ShotKeyIn(query)) != Some(3)
  {
    if FirstWhere(SHOT_KEYWORDS, ShotKeyIn(query)) == Some(3) {
      assert ShotKeyIn(query)(SHOT_KEYWORDS[3]) && !ShotKeyIn(query)(SHOT_KEYWORDS[2]);
      assert Contains(query, "cut shot") && !Contains(query, "cut");
      assert "cut shot"[0..3] == "cut";
      ContainsPiece(query, "cut shot", 0, 3);
      assert false;
    }
  }

  /** Likewise "pull shot" is shadowed by "pull". */
  lemma PullShotShadowed(query: string)
    ensures FirstWhere(SHOT_KEYWORDS, ShotKeyIn(query)) != Some(5)
  {
    if FirstWhere(SHOT_KEYWORDS, ShotKeyIn(query)) == Some(5) {
      assert ShotKeyIn(query)(SHOT_KEYWORDS[5]) && !ShotKeyIn(query)(SHOT_KEYWORDS[4]);
      assert Contains(query, "pull shot") && !Contains(query, "pull");
      assert "pull shot"[0..4] == "pull";
      ContainsPiece(query, "pull shot", 0, 4);
      assert false;
    }
  }

  function HasKeywordIn(query: string): ((string, Fundamental)) -> bool {
    (e: (string, Fundamental)) => ContainsAny(query, e.1.keywords)
  }

  /** _detect_fundamental: the key of the first entry (file order) having a
      keyword that occurs in the query. */
  function DetectFundamental(funds: seq<(string, Fundamental)>, query: string): (r: Option<string>)
    ensures r.None? <==> forall k :: 0 <= k < |funds| ==> !ContainsAny(query, funds[k].1.keywords)
    ensures r.Some? ==>
              exists k :: 0 <= k < |funds| && funds[k].0 == r.value && ContainsAny(query, funds[k].1.keywords)
                          && forall j :: 0 <= j < k ==> !ContainsAny(query, funds[j].1.keywords)
  {
    var k := FirstWhere(funds, HasKeywordIn(query));
    if k.Some? then
      assert HasKeywordIn(query)(funds[k.value]);
      Some(funds[k.value].0)
    else
      None
  }

  /** _detect_roadmap */
  predicate DetectRoadmap(triggers: seq<string>, query: string) {
    ContainsAny(query, triggers)
  }

  /** Python truthiness of a returned key: present and non-empty. */
  predicate Truthy(key: Option<string>) {
    key.Some? && key.value != ""
  }

  // ---------------------------------------------------------------
  // The drills answer, line by line
  // ---------------------------------------------------------------

  datatype Line = Header(shotName: string) | DrillName(name: string) | Step(text: string)
                | RepsSets(text: string) | Safety(text: string)

  function Steps(howTo: seq<string>): (r: seq<Line>)
    ensures |r| == |howTo|
    ensures forall i :: 0 <= i < |howTo| ==> r[i] == Step(howTo[i])
  {
    seq(|howTo|, i requires 0 <= i < |howTo| => Step(howTo[i]))
  }

  /** The lines of one drill: its name, one line per step, reps and safety. */
  function DrillBlock(d: ShotDrill): seq<Line> {
    [DrillName(d.name)] + Steps(d.howTo) + [RepsSets(d.repsSets), Safety(d.safety)]
  }

  function Blocks(ds: seq<ShotDrill>): seq<Line> {
    if ds == [] then [] else Blocks(ds[..|ds| - 1]) + DrillBlock(ds[|ds| - 1])
  }

  /** _format_drills_only, as the list of lines joined by newlines. */
  function DrillsOnlyLines(shot: Shot): seq<Line> {
    [Header(shot.name)] + Blocks(shot.drills)
  }

  /** The number of lines each drill contributes, summed. */
  function LinesFor(ds: seq<ShotDrill>): nat {
    if ds == [] then 0 else LinesFor(ds[..|ds| - 1]) + 3 + |ds[|ds| - 1].howTo|
  }

  lemma {:induction false} BlocksLength(ds: seq<ShotDrill>)
    ensures |Blocks(ds)| == LinesFor(ds)
  {
    if ds != [] {
      BlocksLength(ds[..|ds| - 1]);
    }
  }

  /** One header line, then per drill a name line, its steps, and the reps
      and safety lines. */
  lemma DrillsOnlyLineCount(shot: Shot)
    ensures |DrillsOnlyLines(shot)| == 1 + LinesFor(shot.drills)
    ensures DrillsOnlyLines(shot)[0] == Header(shot.name)
  {
    BlocksLength(shot.drills);
  }

  predicate IsDrillName(l: Line) {
    l.DrillName?
  }

  /** The drill-name lines are exactly the drills' names, in drill order. */
  lemma {:induction false} DrillNamesInOrder(ds: seq<ShotDrill>)
    ensures Filter(Blocks(ds), IsDrillName) == seq(|ds|, i requires 0 <= i < |ds| => DrillName(ds[i].name))
  {
    if ds != [] {
      var init := ds[..|ds| - 1];
      var d := ds[|ds| - 1];
      DrillNamesInOrder(init);
      FilterAppend(Blocks(init), DrillBlock(d), IsDrillName);
      var rest := Steps(d.howTo) + [RepsSets(d.repsSets), Safety(d.safety)];
      assert DrillBlock(d) == [DrillName(d.name)] + rest;
      FilterAppend([DrillName(d.name)], rest, IsDrillName);
      assert [DrillName(d.name)][..0] == [];
      FilterNone(rest, IsDrillName);
    }
  }

  /** _format_drills_only, building the lines by appending. */
  method FormatDrillsOnly(shot: Shot) returns (lines: seq<Line>)
    ensures lines == DrillsOnlyLines(shot)
  {
    lines := [Header(shot.name)];
    var i := 0;
    while i < |shot.drills|
      invariant 0 <= i <= |shot.drills|
      invariant lines == [Header(shot.name)] + Blocks(shot.drills[..i])
    {
      var d := shot.drills[i];
      var before := lines;
      lines := lines + [DrillName(d.name)];
      var j := 0;
      while j < |d.howTo|
        invariant 0 <= j <= |d.howTo|
        invariant lines == before + [DrillName(d.name)] + Steps(d.howTo[..j])
      {
        lines := lines + [Step(d.howTo[j])];
        j := j + 1;
      }
      assert d.howTo[..j] == d.howTo;
      lines := lines + [RepsSets(d.repsSets), Safety(d.safety)];
      assert shot.drills[..i + 1][..i] == shot.drills[..i];
      i := i + 1;
    }
    assert shot.drills[..i] == shot.drills;
  }

  // ---------------------------------------------------------------
  // process_query
  // ---------------------------------------------------------------

  datatype Answer =
    | RoadmapAnswer
    | FundamentalAnswer(key: string)
    | ShotNotIdentified
    | ShotNotAvailable
    | DrillsAnswer(lines: seq<Line>)
    | ExplanationAnswer(shot: Shot)

  /** The message an answer without data carries. */
  function Message(a: Answer): string
    requires a.ShotNotIdentified? || a.ShotNotAvailable?
  {
    if a.ShotNotIdentified? then SHOT_NOT_IDENTIFIED else SHOT_NOT_AVAILABLE
  }

  /** process_query: roadmap, then fundamental, then shot; a shot answer is
      drills only or the full explanation according to the intent. */
  function ProcessQuery(kb: Knowledge, userQuery: string): Answer {
    var query := Lower(userQuery);
    if DetectRoadmap(kb.roadmapTriggers, query) then RoadmapAnswer
    else
      var fund := DetectFundamental(kb.fundamentals, query);
      if Truthy(fund) then FundamentalAnswer(fund.value)
      else
        var intent := DetectIntent(query);
        var shotKey := DetectShot(query);
        if !Truthy(shotKey) then ShotNotIdentified
        else if shotKey.value !in kb.shots then ShotNotAvailable
        else if intent == DrillsOnly then DrillsAnswer(DrillsOnlyLines(kb.shots[shotKey.value]))
        else ExplanationAnswer(kb.shots[shotKey.value])
  }

  /** The dispatch order of process_query, stated per outcome. */
  lemma ProcessQueryPriority(kb: Knowledge, userQuery: string)
    ensures var q := Lower(userQuery);
            var r := ProcessQuery(kb, userQuery);
            && (r.RoadmapAnswer? <==> DetectRoadmap(kb.roadmapTriggers, q))
            && (r.FundamentalAnswer? <==>
                  !DetectRoadmap(kb.roadmapTriggers, q) && Truthy(DetectFundamental(kb.fundamentals, q)))
            && (r.ShotNotIdentified? <==>
                  !DetectRoadmap(kb.roadmapTriggers, q) && !Truthy(DetectFundamental(kb.fundamentals, q))
                  && forall k :: 0 <= k < |SHOT_KEYWORDS| ==> !Contains(q, SHOT_KEYWORDS[k].0))
            && (r.ShotNotAvailable? <==>
                  !DetectRoadmap(kb.roadmapTriggers, q) && !Truthy(DetectFundamental(kb.fundamentals, q))
                  && DetectShot(q).Some? && DetectShot(q).value !in kb.shots)
            && (r.DrillsAnswer? <==>
                  !DetectRoadmap(kb.roadmapTriggers, q) && !Truthy(DetectFundamental(kb.fundamentals, q))
                  && DetectShot(q).Some? && DetectShot(q).value in kb.shots && DetectIntent(q) == DrillsOnly)
            && (r.DrillsAnswer? ==> r.lines == DrillsOnlyLines(kb.shots[DetectShot(q).value]))
            && (r.ExplanationAnswer? <==>
                  !DetectRoadmap(kb.roadmapTriggers, q) && !Truthy(DetectFundamental(kb.fundamentals, q))
                  && DetectShot(q).Some? && DetectShot(q).value in kb.shots && DetectIntent(q) == FullExplanation)
            && (r.ExplanationAnswer? ==> r.shot == kb.shots[DetectShot(q).value])
  {
    var q := Lower(userQuery);
    var s := DetectShot(q);
    if s.Some? {
      var k :| 0 <= k < |SHOT_KEYWORDS| && Contains(q, SHOT_KEYWORDS[k].0) && s.value == SHOT_KEYWORDS[k].1;
      assert s.value != "";
    }
  }
}
