/**
 * The conversation router: per-user session memory, the "more" paging
 * shortcut, the splitting of a message into segments, and the fixed-priority
 * detector cascade that turns each segment into one typed entry.
 */
module Router {
  import opened Wrappers
  import opened Text
  import opened Seqs
  import Tech
  import Exercises
  import Inference
  import Profiles

  const EXERCISE_WORDS: seq<string> := [
    "exercise", "exercises", "workout", "gym", "physical",
    "strength", "fitness", "stamina", "endurance"
  ]

  const SPLIT_KEYS: seq<string> := [" and ", " & ", " plus ", " also ", " with ", ",", ";"]

  const HELP := "Try:\n- timing category\n- A2 drills\n- improve batting\n- pull shot drills\n- exercises for power"

  /** The key the overview branch reads and the recommendation never holds. */
  const MISSING_OVERVIEW_KEY := "top_recommendations_full"

  const MORE := "more"
  const PAGE_SIZE := 2

  /** A session record. `lastArea` is created but never written. */
  datatype Memory = Memory(
    lastArea: Option<string>,
    lastExerciseGoal: Option<string>,
    lastShot: Option<string>,
    lastFundamental: Option<string>,
    techLastCategory: Option<string>,
    techLastArea: Option<string>,
    techDrillIndex: nat)

  const FRESH := Memory(None, None, None, None, None, None, 0)

  // ---------------------------------------------------------------
  // Segmentation
  // ---------------------------------------------------------------

  predicate NonEmptyKeys(keys: seq<string>) {
    forall k :: 0 <= k < |keys| ==> keys[k] != ""
  }

  /** One segment's contribution to `new_segments`. */
  function Piece(seg: string, key: string): seq<string>
    requires key != ""
  {
    if Contains(seg, key) then Split(seg, key) else [seg]
  }

  function PieceOf(key: string): string -> seq<string>
    requires key != ""
  {
    (seg: string) => Piece(seg, key)
  }

  /** `new_segments` for one key. */
  function Pieces(segs: seq<string>, key: string): seq<string>
    requires key != ""
  {
    ConcatMap(segs, PieceOf(key))
  }

  function StripAll(xs: seq<string>): (r: seq<string>)
    ensures |r| == |xs|
    ensures forall i :: 0 <= i < |xs| ==> r[i] == Strip(xs[i])
  {
    seq(|xs|, i requires 0 <= i < |xs| => Strip(xs[i]))
  }

  /** One pass of the splitting loop: split on the key, then strip every piece. */
  function Stage(segs: seq<string>, key: string): seq<string>
    requires key != ""
  {
    StripAll(Pieces(segs, key))
  }

  function Pipeline(segs: seq<string>, keys: seq<string>): seq<string>
    requires NonEmptyKeys(keys)
    decreases |keys|
  {
    if keys == [] then segs else Pipeline(Stage(segs, keys[0]), keys[1..])
  }

  /** The segments of a (lowercased, stripped) message. */
  function Segments(msg: string): seq<string> {
    Pipeline([msg], SPLIT_KEYS)
  }

  /** A stage maps each segment to its own pieces, left to right. */
  lemma StageAppend(a: seq<string>, b: seq<string>, key: string)
    requires key != ""
    ensures Stage(a + b, key) == Stage(a, key) + Stage(b, key)
  {
    ConcatMapAppend(a, b, PieceOf(key));
  }

  /** Every piece of a stage is a part of some input segment: what it
      contains, that segment contains. */
  lemma {:induction false} PiecesInside(segs: seq<string>, key: string, sub: string)
    requires key != ""
    requires forall i :: 0 <= i < |segs| ==> !Contains(segs[i], sub)
    ensures forall p :: p in Pieces(segs, key) ==> !Contains(p, sub)
  {
    if segs != [] {
      var last := segs[|segs| - 1];
      PiecesInside(segs[..|segs| - 1], key, sub);
      SplitPiecesInside(last, key, sub);
    }
  }

  /** No piece of a stage contains the stage's key. */
  lemma {:induction false} PiecesAvoidKey(segs: seq<string>, key: string)
    requires key != ""
    ensures forall p :: p in Pieces(segs, key) ==> !Contains(p, key)
  {
    if segs != [] {
      var last := segs[|segs| - 1];
      PiecesAvoidKey(segs[..|segs| - 1], key);
      SplitPiecesAvoidSep(last, key);
    }
  }

  lemma StripAllAvoids(xs: seq<string>, sub: string)
    requires forall p :: p in xs ==> !Contains(p, sub)
    ensures forall i :: 0 <= i < |xs| ==> !Contains(StripAll(xs)[i], sub)
  {
    forall i | 0 <= i < |xs| ensures !Contains(StripAll(xs)[i], sub) {
      assert xs[i] in xs;
      if Contains(Strip(xs[i]), sub) {
        StripContains(xs[i], sub);
      }
    }
  }

  /** A stage leaves no segment containing its key, and none containing a
      string that no input segment contained. */
  lemma StageAvoids(segs: seq<string>, key: string, done: seq<string>)
    requires key != ""
    requires forall i, d :: 0 <= i < |segs| && 0 <= d < |done| ==> !Contains(segs[i], done[d])
    ensures forall i, d :: 0 <= i < |Stage(segs, key)| && 0 <= d < |done| + 1 ==>
              !Contains(Stage(segs, key)[i], (done + [key])[d])
  {
    PiecesAvoidKey(segs, key);
    StripAllAvoids(Pieces(segs, key), key);
    forall d | 0 <= d < |done| ensures forall i :: 0 <= i < |Stage(segs, key)| ==> !Contains(Stage(segs, key)[i], done[d]) {
      PiecesInside(segs, key, done[d]);
      StripAllAvoids(Pieces(segs, key), done[d]);
    }
  }

  lemma {:induction false} PipelineAvoids(segs: seq<string>, keys: seq<string>, done: seq<string>)
    requires NonEmptyKeys(keys)
    requires forall i, d :: 0 <= i < |segs| && 0 <= d < |done| ==> !Contains(segs[i], done[d])
    ensures forall i, d :: 0 <= i < |Pipeline(segs, keys)| && 0 <= d < |done + keys| ==>
              !Contains(Pipeline(segs, keys)[i], (done + keys)[d])
    decreases |keys|
  {
    if keys == [] {
      assert done + keys == done;
    } else {
      StageAvoids(segs, keys[0], done);
      PipelineAvoids(Stage(segs, keys[0]), keys[1..], done + [keys[0]]);
      assert done + [keys[0]] + keys[1..] == done + keys;
    }
  }

  lemma PipelineStripped(segs: seq<string>, keys: seq<string>)
    requires NonEmptyKeys(keys) && keys != []
    ensures forall i :: 0 <= i < |Pipeline(segs, keys)| ==> Stripped(Pipeline(segs, keys)[i])
    decreases |keys|
  {
    if |keys| > 1 {
      PipelineStripped(Stage(segs, keys[0]), keys[1..]);
    }
  }

  /** Every segment is stripped and contains none of the split keys. */
  lemma SegmentsClean(msg: string)
    ensures forall i :: 0 <= i < |Segments(msg)| ==> Stripped(Segments(msg)[i])
    ensures forall i, k :: 0 <= i < |Segments(msg)| && 0 <= k < |SPLIT_KEYS| ==>
              !Contains(Segments(msg)[i], SPLIT_KEYS[k])
  {
    PipelineStripped([msg], SPLIT_KEYS);
    PipelineAvoids([msg], SPLIT_KEYS, []);
    assert [] + SPLIT_KEYS == SPLIT_KEYS;
  }

  /** Pieces are never dropped: each segment yields at least one piece, and
      an empty segment stays as an empty segment. */
  lemma {:induction false} PiecesKeep(segs: seq<string>, key: string)
    requires key != ""
    ensures |Pieces(segs, key)| >= |segs|
    ensures "" in segs ==> "" in Pieces(segs, key)
  {
    if segs != [] {
      var init := segs[..|segs| - 1];
      var last := segs[|segs| - 1];
      PiecesKeep(init, key);
      assert Pieces(segs, key) == Pieces(init, key) + Piece(last, key);
      assert |Piece(last, key)| >= 1 by {
        SplitJoin(last, key);
      }
      if "" in segs {
        if last == "" {
          assert !Contains(last, key);
          assert Piece(last, key) == [""];
        } else {
          assert segs == init + [last];
          assert "" in init;
        }
      }
    }
  }

  /** A segment's pieces, joined with the key, give the segment back: no
      text is lost, the order is kept and empty pieces stay. */
  lemma PieceJoin(seg: string, key: string)
    requires key != ""
    ensures Piece(seg, key) != []
    ensures Join(Piece(seg, key), key) == seg
  {
    if Contains(seg, key) {
      SplitJoin(seg, key);
    }
  }

  lemma StageKeeps(segs: seq<string>, key: string)
    requires key != ""
    ensures |Stage(segs, key)| >= |segs|
    ensures "" in segs ==> "" in Stage(segs, key)
  {
    var pieces := Pieces(segs, key);
    PiecesKeep(segs, key);
    if "" in pieces {
      var i :| 0 <= i < |pieces| && pieces[i] == "";
      assert Strip("") == "";
      assert Stage(segs, key)[i] == "";
    }
  }

  lemma {:induction false} PipelineKeeps(segs: seq<string>, keys: seq<string>)
    requires NonEmptyKeys(keys)
    ensures |Pipeline(segs, keys)| >= |segs|
    ensures "" in segs ==> "" in Pipeline(segs, keys)
    decreases |keys|
  {
    if keys != [] {
      StageKeeps(segs, keys[0]);
      PipelineKeeps(Stage(segs, keys[0]), keys[1..]);
    }
  }

  /** A stage leaves a plain segment without the key as it is. */
  lemma StagePlain(msg: string, key: string)
    requires key != "" && Stripped(msg) && !Contains(msg, key)
    ensures Stage([msg], key) == [msg]
  {
    ConcatMapSingle(msg, PieceOf(key));
    assert Pieces([msg], key) == Piece(msg, key) == [msg];
    StripStripped(msg);
    var st := StripAll([msg]);
    assert |st| == 1 && st[0] == msg;
    assert st == [msg];
  }

  /** A message with no split key and no surrounding whitespace is one segment. */
  lemma {:induction false} PipelineOfPlain(msg: string, keys: seq<string>)
    requires NonEmptyKeys(keys)
    requires Stripped(msg)
    requires forall k :: 0 <= k < |keys| ==> !Contains(msg, keys[k])
    ensures Pipeline([msg], keys) == [msg]
    decreases |keys|
  {
    if keys != [] {
      var rest := keys[1..];
      assert forall k :: 0 <= k < |rest| ==> rest[k] == keys[k + 1];
      StagePlain(msg, keys[0]);
      assert Pipeline([msg], keys) == Pipeline([msg], rest);
      PipelineOfPlain(msg, rest);
    }
  }

  /** The inner loop: each segment holding the key is replaced by its pieces. */
  method SplitEach(segments: seq<string>, key: string) returns (newSegments: seq<string>)
    requires key != ""
    ensures newSegments == Pieces(segments, key)
  {
    newSegments := [];
    var j := 0;
    while j < |segments|
      invariant 0 <= j <= |segments|
      invariant newSegments == Pieces(segments[..j], key)
    {
      var seg := segments[j];
      ConcatMapStep(segments, j, PieceOf(key));
      if Contains(seg, key) {
        newSegments := newSegments + Split(seg, key);
      } else {
        newSegments := newSegments + [seg];
      }
      j := j + 1;
    }
    assert segments[..j] == segments;
  }

  /** The splitting loop of process. */
  method Segment(msg: string) returns (segments: seq<string>)
    ensures segments == Segments(msg)
  {
    segments := [msg];
    var k := 0;
    while k < |SPLIT_KEYS|
      invariant 0 <= k <= |SPLIT_KEYS|
      invariant Pipeline(segments, SPLIT_KEYS[k..]) == Segments(msg)
    {
      var key := SPLIT_KEYS[k];
      var newSegments := SplitEach(segments, key);
      assert SPLIT_KEYS[k..][0] == key && SPLIT_KEYS[k..][1..] == SPLIT_KEYS[k + 1..];
      segments := StripAll(newSegments);
      k := k + 1;
    }
  }

  // ---------------------------------------------------------------
  // The detector cascade
  // ---------------------------------------------------------------

  /** The catalogues the engines hold. */
  datatype Catalogues = Catalogues(
    cats: seq<Tech.Category>,
    exercises: seq<Exercises.Exercise>,
    kb: Inference.Knowledge)

  datatype Detector =
    | ExerciseWords | ShotKeyword | FundamentalKeyword | CategoryMatch
    | AreaCode | DirectArea | ImproveBatting | Unknown

  /** The cascade, highest priority first. */
  const CASCADE: seq<Detector> := [
    ExerciseWords, ShotKeyword, FundamentalKeyword, CategoryMatch,
    AreaCode, DirectArea, ImproveBatting, Unknown
  ]

  /** The length of the run of ASCII digits at the start of `s`. */
  function DigitRun(s: string): (n: nat)
    ensures n <= |s|
    ensures forall i :: 0 <= i < n ==> IsDigit(s[i])
    ensures n < |s| ==> !IsDigit(s[n])
  {
    if |s| > 0 && IsDigit(s[0]) then 1 + DigitRun(s[1..]) else 0
  }

  /** `re.match(r"([a-zA-Z]\d+)", part).group(1).upper()`: a letter and the
      longest run of digits after it, at the start of the segment only. */
  function LeadingCode(part: string): (r: Option<string>)
    ensures r.Some? <==> |part| >= 2 && IsAsciiLetter(part[0]) && IsDigit(part[1])
    ensures r.Some? ==>
              exists n :: 2 <= n <= |part| && r.value == Upper(part[..n])
                          && (forall i :: 1 <= i < n ==> IsDigit(part[i]))
                          && (n == |part| || !IsDigit(part[n]))
  {
    if |part| >= 2 && IsAsciiLetter(part[0]) && IsDigit(part[1]) then
      var n := 1 + DigitRun(part[1..]);
      assert forall i :: 1 <= i < n ==> part[i] == part[1..][i - 1];
      Some(Upper(part[..n]))
    else
      None
  }

  // The tests of the cascade, one per detector, in cascade order.

  predicate ExerciseFires(part: string) {
    ContainsAny(part, EXERCISE_WORDS)
  }

  predicate ShotFires(part: string) {
    Inference.Truthy(Inference.DetectShot(part))
  }

  predicate FundamentalFires(ctx: Catalogues, part: string) {
    Inference.Truthy(Inference.DetectFundamental(ctx.kb.fundamentals, part))
  }

  predicate CategoryFires(ctx: Catalogues, part: string) {
    Tech.FindCategoryFromQuery(ctx.cats, part).Some?
  }

  predicate CodeFires(part: string) {
    LeadingCode(part).Some?
  }

  predicate DirectFires(ctx: Catalogues, part: string) {
    Tech.SearchArea(ctx.cats, part).Some?
  }

  predicate ImproveFires(part: string) {
    Contains(part, "improve") && Contains(part, "batting")
  }

  /** What each test of the cascade answers for one segment. */
  datatype Signals = Signals(
    exercise: bool, shot: bool, fundamental: bool, category: bool,
    code: bool, direct: bool, improve: bool)

  function SignalsOf(ctx: Catalogues, part: string): Signals {
    Signals(
      ExerciseFires(part), ShotFires(part), FundamentalFires(ctx, part),
      CategoryFires(ctx, part), CodeFires(part), DirectFires(ctx, part),
      ImproveFires(part))
  }

  predicate Holds(s: Signals, d: Detector) {
    match d
    case ExerciseWords => s.exercise
    case ShotKeyword => s.shot
    case FundamentalKeyword => s.fundamental
    case CategoryMatch => s.category
    case AreaCode => s.code
    case DirectArea => s.direct
    case ImproveBatting => s.improve
    case Unknown => true
  }

  /** The condition under which a detector takes a segment. */
  predicate Fires(ctx: Catalogues, d: Detector, part: string) {
    Holds(SignalsOf(ctx, part), d)
  }

  /** The if-chain of the cascade. */
  function Pick(s: Signals): (d: Detector)
    ensures Holds(s, d)
  {
    if s.exercise then ExerciseWords
    else if s.shot then ShotKeyword
    else if s.fundamental then FundamentalKeyword
    else if s.category then CategoryMatch
    else if s.code then AreaCode
    else if s.direct then DirectArea
    else if s.improve then ImproveBatting
    else Unknown
  }

  /** The detector that handles a segment. */
  function Chosen(ctx: Catalogues, part: string): (d: Detector)
    ensures Fires(ctx, d, part)
  {
    Pick(SignalsOf(ctx, part))
  }

  lemma CascadeHolds(s: Signals)
    ensures forall j :: 0 <= j < |CASCADE| ==>
              Holds(s, CASCADE[j]) == [s.exercise, s.shot, s.fundamental, s.category, s.code, s.direct, s.improve, true][j]
  {
  }

  lemma PickFirstMatch(s: Signals, k: nat)
    requires k < |CASCADE|
    ensures Pick(s) == CASCADE[k] <==> Holds(s, CASCADE[k]) && forall j :: 0 <= j < k ==> !Holds(s, CASCADE[j])
  {
    var h := [s.exercise, s.shot, s.fundamental, s.category, s.code, s.direct, s.improve, true];
    CascadeHolds(s);
    var none := forall j :: 0 <= j < k ==> !h[j];
    if k == 0 {
      assert none;
    } else if k == 1 {
      assert none == !h[0];
    } else if k == 2 {
      assert none == (!h[0] && !h[1]);
    } else if k == 3 {
      assert none == (!h[0] && !h[1] && !h[2]);
    } else if k == 4 {
      assert none == (!h[0] && !h[1] && !h[2] && !h[3]);
    } else if k == 5 {
      assert none == (!h[0] && !h[1] && !h[2] && !h[3] && !h[4]);
    } else if k == 6 {
      assert none == (!h[0] && !h[1] && !h[2] && !h[3] && !h[4] && !h[5]);
    } else {
      assert none == (!h[0] && !h[1] && !h[2] && !h[3] && !h[4] && !h[5] && !h[6]);
    }
  }

  /** First match wins: a detector handles the segment exactly when it fires
      and no detector before it in the cascade does. */
  lemma FirstMatchWins(ctx: Catalogues, part: string, k: nat)
    requires k < |CASCADE|
    ensures Chosen(ctx, part) == CASCADE[k] <==>
              Fires(ctx, CASCADE[k], part) && forall j :: 0 <= j < k ==> !Fires(ctx, CASCADE[j], part)
  {
    PickFirstMatch(SignalsOf(ctx, part), k);
  }

  datatype Entry =
    | ExerciseEntry(input: string, exercise: Exercises.ExerciseResult)
    | ShotEntry(input: string, answer: Inference.Answer)
    | FundamentalEntry(fundamental: string)
    | CategoryEntry(category: string, subAreas: seq<Tech.AreaSummary>)
    | DrillsEntry(areaId: string, drills: seq<Tech.FormattedDrill>, remaining: nat)
    | DirectEntry(area: Tech.AreaDetail)
    | UnknownEntry(input: string, help: string)

  /** What handling one segment does to the response: append an entry, or raise. */
  datatype Handled = Emit(entry: Entry) | RaiseKeyError(key: string)

  /** A write to the session record. */
  datatype Note =
    | Keep
    | SetExerciseGoal(goal: string)
    | SetShot(shot: string)
    | SetFundamental(fundamental: string)
    | SetCategory(categoryId: string)
    | SetArea(areaId: string)

  function Write(mem: Memory, note: Note): Memory {
    match note
    case Keep => mem
    case SetExerciseGoal(g) => mem.(lastExerciseGoal := Some(g))
    case SetShot(s) => mem.(lastShot := Some(s))
    case SetFundamental(f) => mem.(lastFundamental := Some(f))
    case SetCategory(id) => mem.(techLastCategory := Some(id), techLastArea := None, techDrillIndex := 0)
    case SetArea(a) => mem.(techLastArea := Some(a), techDrillIndex := PAGE_SIZE)
  }

  lemma WriteFundamental(mem: Memory, found: Option<string>)
    requires found.Some?
    ensures Write(mem, SetFundamental(found.value)) == mem.(lastFundamental := found)
  {
  }

  lemma WriteCategory(mem: Memory, id: string)
    ensures Write(mem, SetCategory(id)) == mem.(techLastCategory := Some(id), techLastArea := None, techDrillIndex := 0)
  {
  }

  lemma WriteArea(mem: Memory, code: Option<string>)
    requires code.Some?
    ensures Write(mem, SetArea(code.value)) == mem.(techLastArea := code, techDrillIndex := PAGE_SIZE)
  {
  }

  /** What handling one segment yields: its entry (or raise) and its write. */
  datatype Step = Step(handled: Handled, note: Note)

  // The branches of the cascade, one per detector.

  function ExerciseStep(ctx: Catalogues, user: Profiles.Profile, part: string): Step {
    Step(Emit(ExerciseEntry(part, Exercises.BattingExercises(ctx.exercises, user, part))), SetExerciseGoal(Upper(part)))
  }

  function ShotStep(ctx: Catalogues, part: string): Step {
    Step(Emit(ShotEntry(part, Inference.ProcessQuery(ctx.kb, part))), SetShot(part))
  }

  function FundamentalStep(ctx: Catalogues, part: string): Step
    requires FundamentalFires(ctx, part)
  {
    var fund := Inference.DetectFundamental(ctx.kb.fundamentals, part).value;
    Step(Emit(FundamentalEntry(fund)), SetFundamental(fund))
  }

  function CategoryStep(ctx: Catalogues, part: string): Step
    requires CategoryFires(ctx, part)
  {
    var c := Tech.FindCategoryFromQuery(ctx.cats, part).value;
    Step(Emit(CategoryEntry(c.categoryName, Tech.GetSubAreas(ctx.cats, c.categoryName))), SetCategory(c.categoryId))
  }

  function CodeStep(ctx: Catalogues, part: string): Step
    requires CodeFires(part)
  {
    var id := LeadingCode(part).value;
    var page := Tech.DrillPage(ctx.cats, id, 0, PAGE_SIZE);
    Step(Emit(DrillsEntry(id, page.returned, page.remaining)), SetArea(id))
  }

  function DirectStep(ctx: Catalogues, part: string): Step
    requires DirectFires(ctx, part)
  {
    Step(Emit(DirectEntry(Tech.FormatArea(Tech.SearchArea(ctx.cats, part).value))), Keep)
  }

  /** The overview branch reads a key the recommendation never has, so it
      always raises, before writing anything. */
  const OVERVIEW_STEP := Step(RaiseKeyError(MISSING_OVERVIEW_KEY), Keep)

  function UnknownStep(part: string): Step {
    Step(Emit(UnknownEntry(part, HELP)), Keep)
  }

  function StepBy(ctx: Catalogues, user: Profiles.Profile, d: Detector, part: string): Step
    requires Fires(ctx, d, part)
  {
    match d
    case ExerciseWords => ExerciseStep(ctx, user, part)
    case ShotKeyword => ShotStep(ctx, part)
    case FundamentalKeyword => FundamentalStep(ctx, part)
    case CategoryMatch => CategoryStep(ctx, part)
    case AreaCode => CodeStep(ctx, part)
    case DirectArea => DirectStep(ctx, part)
    case ImproveBatting => OVERVIEW_STEP
    case Unknown => UnknownStep(part)
  }

  /** The branch the cascade takes for one segment. */
  function StepOf(ctx: Catalogues, user: Profiles.Profile, part: string): Step {
    StepBy(ctx, user, Chosen(ctx, part), part)
  }

  /** The entry for one segment, or the raise. */
  function Route(ctx: Catalogues, user: Profiles.Profile, part: string): Handled {
    StepOf(ctx, user, part).handled
  }

  /** The session record after one segment. */
  function Remember(ctx: Catalogues, user: Profiles.Profile, mem: Memory, part: string): Memory {
    Write(mem, StepOf(ctx, user, part).note)
  }

  /** An exercise segment records the uppercased segment as the goal, and
      nothing else. */
  lemma RememberExercise(ctx: Catalogues, user: Profiles.Profile, mem: Memory, part: string)
    requires Chosen(ctx, part) == ExerciseWords
    ensures Remember(ctx, user, mem, part) == mem.(lastExerciseGoal := Some(Upper(part)))
  {
    assert StepOf(ctx, user, part).note == SetExerciseGoal(Upper(part));
  }

  /** A shot segment records the segment as the last shot, and nothing else. */
  lemma RememberShot(ctx: Catalogues, user: Profiles.Profile, mem: Memory, part: string)
    requires Chosen(ctx, part) == ShotKeyword
    ensures Remember(ctx, user, mem, part) == mem.(lastShot := Some(part))
  {
    assert StepOf(ctx, user, part).note == SetShot(part);
  }

  /** When the fundamental test decides, its branch is taken and the
      detected fundamental is a non-empty string. */
  lemma FundamentalBranch(ctx: Catalogues, user: Profiles.Profile, part: string)
    requires Chosen(ctx, part) == FundamentalKeyword
    ensures StepOf(ctx, user, part) == FundamentalStep(ctx, part)
    ensures Inference.Truthy(Inference.DetectFundamental(ctx.kb.fundamentals, part))
  {
  }

  /** A fundamental segment records the detected fundamental, which is a
      non-empty string, and nothing else. */
  lemma RememberFundamental(ctx: Catalogues, user: Profiles.Profile, mem: Memory, part: string)
    requires Chosen(ctx, part) == FundamentalKeyword
    ensures var m := Remember(ctx, user, mem, part);
            m == mem.(lastFundamental := Inference.DetectFundamental(ctx.kb.fundamentals, part))
            && Inference.Truthy(m.lastFundamental)
  {
    FundamentalBranch(ctx, user, part);
    WriteFundamental(mem, Inference.DetectFundamental(ctx.kb.fundamentals, part));
  }

  /** When the category test decides, its branch is taken. */
  lemma CategoryBranch(ctx: Catalogues, user: Profiles.Profile, part: string)
    requires Chosen(ctx, part) == CategoryMatch
    ensures StepOf(ctx, user, part) == CategoryStep(ctx, part)
  {
  }

  /** A category segment records the category and resets the area cursor. */
  lemma RememberCategory(ctx: Catalogues, user: Profiles.Profile, mem: Memory, part: string)
    requires Chosen(ctx, part) == CategoryMatch
    ensures Remember(ctx, user, mem, part)
            == mem.(techLastCategory := Some(Tech.FindCategoryFromQuery(ctx.cats, part).value.categoryId),
                    techLastArea := None, techDrillIndex := 0)
  {
    CategoryBranch(ctx, user, part);
    WriteCategory(mem, Tech.FindCategoryFromQuery(ctx.cats, part).value.categoryId);
  }

  /** When the area-code test decides, its branch is taken and the code
      is a non-empty string. */
  lemma CodeBranch(ctx: Catalogues, user: Profiles.Profile, part: string)
    requires Chosen(ctx, part) == AreaCode
    ensures StepOf(ctx, user, part) == CodeStep(ctx, part)
    ensures Inference.Truthy(LeadingCode(part))
  {
  }

  /** An area-code segment records the code as the area and moves the cursor
      past the first page, so a following "more" continues at the third drill. */
  lemma RememberCode(ctx: Catalogues, user: Profiles.Profile, mem: Memory, part: string)
    requires Chosen(ctx, part) == AreaCode
    ensures var m := Remember(ctx, user, mem, part);
            m == mem.(techLastArea := LeadingCode(part), techDrillIndex := PAGE_SIZE)
            && Inference.Truthy(m.techLastArea)
  {
    CodeBranch(ctx, user, part);
    WriteArea(mem, LeadingCode(part));
  }

  /** A direct area, the overview and an unmatched segment write nothing. */
  lemma RememberPassive(ctx: Catalogues, user: Profiles.Profile, mem: Memory, part: string)
    requires Chosen(ctx, part) in {DirectArea, ImproveBatting, Unknown}
    ensures Remember(ctx, user, mem, part) == mem
  {
    assert StepOf(ctx, user, part).note == Keep;
  }

  /** An unmatched segment yields the help entry echoing the segment. */
  lemma UnknownEntryCarriesHelp(ctx: Catalogues, user: Profiles.Profile, part: string)
    requires Chosen(ctx, part) == Unknown
    ensures Route(ctx, user, part) == Emit(UnknownEntry(part, HELP))
    ensures forall k :: 0 <= k < |CASCADE| - 1 ==> !Fires(ctx, CASCADE[k], part)
  {
    FirstMatchWins(ctx, part, |CASCADE| - 1);
  }

  /** Only the overview branch raises, and always with the same key. */
  lemma RouteRaisesOnlyForOverview(ctx: Catalogues, user: Profiles.Profile, part: string)
    ensures Route(ctx, user, part).RaiseKeyError? <==> Chosen(ctx, part) == ImproveBatting
    ensures Route(ctx, user, part).RaiseKeyError? ==> Route(ctx, user, part).key == MISSING_OVERVIEW_KEY
  {
  }

  // ---------------------------------------------------------------
  // Running the segments and answering a message
  // ---------------------------------------------------------------

  datatype RunResult = Completed(entries: seq<Entry>, memory: Memory) | Failed(key: string, memory: Memory)

  function Prepend(es: seq<Entry>, r: RunResult): RunResult {
    match r
    case Completed(rest, m) => Completed(es + rest, m)
    case Failed(k, m) => r
  }

  /** The segment loop over the steps of the segments, left to right,
      threading the session record; the first raise ends the loop with the
      writes made so far. */
  function Walk(steps: seq<Step>, mem: Memory): RunResult
    decreases |steps|
  {
    if steps == [] then Completed([], mem)
    else
      var next := Write(mem, steps[0].note);
      match steps[0].handled
      case RaiseKeyError(k) => Failed(k, next)
      case Emit(e) => Prepend([e], Walk(steps[1..], next))
  }

  lemma PrependNothing(r: RunResult)
    ensures Prepend([], r) == r
  {
    if r.Completed? {
      assert [] + r.entries == r.entries;
    }
  }

  lemma PrependTwice(a: seq<Entry>, b: seq<Entry>, r: RunResult)
    ensures Prepend(a, Prepend(b, r)) == Prepend(a + b, r)
  {
    if r.Completed? {
      assert a + (b + r.entries) == (a + b) + r.entries;
    }
  }

  /** A completed walk has one entry per step, in step order. */
  lemma {:induction false} WalkEntries(steps: seq<Step>, mem: Memory)
    ensures var r := Walk(steps, mem);
            r.Completed? ==>
              |r.entries| == |steps| && forall i :: 0 <= i < |steps| ==> steps[i].handled == Emit(r.entries[i])
    decreases |steps|
  {
    if steps != [] {
      var next := Write(mem, steps[0].note);
      var rest := steps[1..];
      if steps[0].handled.Emit? {
        WalkEntries(rest, next);
        var r := Walk(rest, next);
        if r.Completed? {
          var es := [steps[0].handled.entry] + r.entries;
          assert Walk(steps, mem) == Completed(es, r.memory);
          forall i | 0 <= i < |steps| ensures steps[i].handled == Emit(es[i]) {
            if i > 0 {
              assert steps[i] == rest[i - 1] && es[i] == r.entries[i - 1];
            }
          }
        }
      }
    }
  }

  /** A failed walk was stopped by a step that raised that key. */
  lemma {:induction false} WalkFailure(steps: seq<Step>, mem: Memory)
    ensures var r := Walk(steps, mem);
            r.Failed? ==> exists i :: 0 <= i < |steps| && steps[i].handled == RaiseKeyError(r.key)
    decreases |steps|
  {
    if steps != [] && steps[0].handled.Emit? {
      var next := Write(mem, steps[0].note);
      var rest := steps[1..];
      WalkFailure(rest, next);
      var r := Walk(rest, next);
      if r.Failed? {
        assert Walk(steps, mem) == r;
        var i :| 0 <= i < |rest| && rest[i].handled == RaiseKeyError(r.key);
        assert steps[i + 1] == rest[i];
      }
    }
  }

  /** No write touches `lastArea`, so a walk leaves it as it found it. */
  lemma {:induction false} WalkKeepsLastArea(steps: seq<Step>, mem: Memory)
    ensures Walk(steps, mem).memory.lastArea == mem.lastArea
    decreases |steps|
  {
    if steps != [] {
      var next := Write(mem, steps[0].note);
      assert next.lastArea == mem.lastArea;
      WalkKeepsLastArea(steps[1..], next);
    }
  }

  function Steps(ctx: Catalogues, user: Profiles.Profile, segs: seq<string>): (r: seq<Step>)
    ensures |r| == |segs|
    ensures forall i :: 0 <= i < |segs| ==> r[i] == StepOf(ctx, user, segs[i])
  {
    seq(|segs|, i requires 0 <= i < |segs| => StepOf(ctx, user, segs[i]))
  }

  /** The segment loop of process, from a session record. */
  function Run(ctx: Catalogues, user: Profiles.Profile, mem: Memory, segs: seq<string>): RunResult {
    Walk(Steps(ctx, user, segs), mem)
  }

  /** No segments: nothing is emitted and nothing is written. */
  lemma RunEmpty(ctx: Catalogues, user: Profiles.Profile, mem: Memory)
    ensures Run(ctx, user, mem, []) == Completed([], mem)
  {
    assert Steps(ctx, user, []) == [];
  }

  /** Handling the first segment, then the rest. */
  lemma RunCons(ctx: Catalogues, user: Profiles.Profile, mem: Memory, segs: seq<string>)
    requires segs != []
    ensures Run(ctx, user, mem, segs)
            == match Route(ctx, user, segs[0])
               case RaiseKeyError(k) => Failed(k, Remember(ctx, user, mem, segs[0]))
               case Emit(e) => Prepend([e], Run(ctx, user, Remember(ctx, user, mem, segs[0]), segs[1..]))
  {
    var steps := Steps(ctx, user, segs);
    assert steps[1..] == Steps(ctx, user, segs[1..]);
  }

  /** Handling segment `i` as `Route` and `Remember` say determines the run
      from that segment on. */
  lemma RunAt(ctx: Catalogues, user: Profiles.Profile, mem: Memory, segs: seq<string>, i: nat, h: Handled, m: Memory)
    requires i < |segs|
    requires h == Route(ctx, user, segs[i]) && m == Remember(ctx, user, mem, segs[i])
    ensures h.RaiseKeyError? ==> Run(ctx, user, mem, segs[i..]) == Failed(h.key, m)
    ensures h.Emit? ==> Run(ctx, user, mem, segs[i..]) == Prepend([h.entry], Run(ctx, user, m, segs[i + 1..]))
  {
    RunCons(ctx, user, mem, segs[i..]);
    assert segs[i..][0] == segs[i] && segs[i..][1..] == segs[i + 1..];
  }

  /** A completed run holds one entry per segment, in segment order, each
      the one its segment routes to. */
  lemma OneEntryPerSegment(ctx: Catalogues, user: Profiles.Profile, mem: Memory, segs: seq<string>)
    ensures var r := Run(ctx, user, mem, segs);
            r.Completed? ==>
              |r.entries| == |segs| && forall i :: 0 <= i < |segs| ==> Route(ctx, user, segs[i]) == Emit(r.entries[i])
  {
    WalkEntries(Steps(ctx, user, segs), mem);
  }

  /** A run fails exactly when some segment reaches the overview branch, and
      then with the key that branch reads. */
  lemma FailsOnlyAtOverview(ctx: Catalogues, user: Profiles.Profile, mem: Memory, segs: seq<string>)
    ensures var r := Run(ctx, user, mem, segs);
            && (r.Failed? <==> exists i :: 0 <= i < |segs| && Chosen(ctx, segs[i]) == ImproveBatting)
            && (r.Failed? ==> r.key == MISSING_OVERVIEW_KEY)
  {
    var steps := Steps(ctx, user, segs);
    var r := Walk(steps, mem);
    WalkEntries(steps, mem);
    WalkFailure(steps, mem);
    if r.Failed? {
      var i :| 0 <= i < |segs| && steps[i].handled == RaiseKeyError(r.key);
      assert Route(ctx, user, segs[i]) == RaiseKeyError(r.key);
      RouteRaisesOnlyForOverview(ctx, user, segs[i]);
    } else {
      forall i | 0 <= i < |segs| ensures Chosen(ctx, segs[i]) != ImproveBatting {
        assert Route(ctx, user, segs[i]) == Emit(r.entries[i]);
        RouteRaisesOnlyForOverview(ctx, user, segs[i]);
      }
    }
  }

  /** The `last_area` field is never written by a run. */
  lemma RunKeepsLastArea(ctx: Catalogues, user: Profiles.Profile, mem: Memory, segs: seq<string>)
    ensures Run(ctx, user, mem, segs).memory.lastArea == mem.lastArea
  {
    WalkKeepsLastArea(Steps(ctx, user, segs), mem);
  }

  datatype Response =
    | MoreDrills(areaId: string, returned: seq<Tech.FormattedDrill>, remaining: nat)
    | Ordered(entries: seq<Entry>)
    | KeyErrorRaised(key: string)

  /** The response to a message that went through the segment loop. */
  function Conclude(r: RunResult): Response {
    match r
    case Completed(es, _) => Ordered(es)
    case Failed(k, _) => KeyErrorRaised(k)
  }

  /** The "more" shortcut applies: the message is "more" and an area is remembered. */
  predicate Paging(msg: string, mem: Memory) {
    msg == MORE && Inference.Truthy(mem.techLastArea)
  }

  /** The next page of the remembered area, and the cursor moved on. */
  function MoreReply(ctx: Catalogues, mem: Memory): (Response, Memory)
    requires Inference.Truthy(mem.techLastArea)
  {
    var id := mem.techLastArea.value;
    var page := Tech.DrillPage(ctx.cats, id, mem.techDrillIndex, PAGE_SIZE);
    (MoreDrills(id, page.returned, page.remaining), mem.(techDrillIndex := mem.techDrillIndex + PAGE_SIZE))
  }

  /** The segments of the message, each routed in turn. */
  function Converse(ctx: Catalogues, user: Profiles.Profile, mem: Memory, msg: string): (Response, Memory) {
    var run := Run(ctx, user, mem, Segments(msg));
    (Conclude(run), run.memory)
  }

  /** process, for a session record: the response and the record afterwards. */
  function Respond(ctx: Catalogues, user: Profiles.Profile, mem: Memory, text: string): (Response, Memory) {
    var msg := Strip(Lower(text));
    if Paging(msg, mem) then MoreReply(ctx, mem) else Converse(ctx, user, mem, msg)
  }

  lemma RespondPaging(ctx: Catalogues, user: Profiles.Profile, mem: Memory, text: string)
    requires Paging(Strip(Lower(text)), mem)
    ensures Respond(ctx, user, mem, text) == MoreReply(ctx, mem)
  {
  }

  /** "more" with a remembered area pages from the cursor and moves it on by
      exactly two, even past the end, touching nothing else. */
  lemma MorePages(ctx: Catalogues, user: Profiles.Profile, mem: Memory, text: string)
    requires Strip(Lower(text)) == MORE && Inference.Truthy(mem.techLastArea)
    ensures var (r, m) := Respond(ctx, user, mem, text);
            var page := Tech.DrillPage(ctx.cats, mem.techLastArea.value, mem.techDrillIndex, PAGE_SIZE);
            && r == MoreDrills(mem.techLastArea.value, page.returned, page.remaining)
            && m.techDrillIndex == mem.techDrillIndex + 2
            && m.(techDrillIndex := mem.techDrillIndex) == mem
            && |r.returned| <= 2
  {
    RespondPaging(ctx, user, mem, text);
  }

  /** "more" contains no split key, so it stays one segment. */
  lemma SegmentsOfMore()
    ensures Segments(MORE) == [MORE]
  {
    forall k | 0 <= k < |SPLIT_KEYS| ensures !Contains(MORE, SPLIT_KEYS[k]) {
      MissingChar(MORE, SPLIT_KEYS[k], 0);
    }
    PipelineOfPlain(MORE, SPLIT_KEYS);
  }

  /** Without a remembered area, "more" is an ordinary one-segment message. */
  lemma MoreWithoutArea(ctx: Catalogues, user: Profiles.Profile, mem: Memory, text: string)
    requires Strip(Lower(text)) == MORE && !Inference.Truthy(mem.techLastArea)
    ensures Respond(ctx, user, mem, text).0 == Conclude(Run(ctx, user, mem, [MORE]))
  {
    SegmentsOfMore();
  }

  /** The record a user's message starts from: the stored one, or a fresh one. */
  function SessionOf(sessions: map<string, Memory>, userId: string): Memory {
    if userId in sessions then sessions[userId] else FRESH
  }

  lemma OverwriteFresh(sessions: map<string, Memory>, userId: string, m: Memory)
    ensures sessions[userId := FRESH][userId := m] == sessions[userId := m]
  {
  }

  class ConversationRouter {
    const ctx: Catalogues
    var sessions: map<string, Memory>

    constructor(ctx: Catalogues)
      ensures this.ctx == ctx && sessions == map[]
    {
      this.ctx := ctx;
      sessions := map[];
    }

    /** The tests of the if-chain of process, in order; the first that
        holds names the branch. */
    method Detect(part: string) returns (d: Detector)
      ensures d == Chosen(ctx, part)
    {
      var exercise := AnyOccurs(part, EXERCISE_WORDS);
      if exercise {
        return ExerciseWords;
      }
      var shotKey := Inference.DetectShot(part);
      if shotKey.Some? && shotKey.value != "" {
        return ShotKeyword;
      }
      var fund := Inference.DetectFundamental(ctx.kb.fundamentals, part);
      if fund.Some? && fund.value != "" {
        return FundamentalKeyword;
      }
      var cat := Tech.FindCategoryFromQuery(ctx.cats, part);
      if cat.Some? {
        return CategoryMatch;
      }
      var code := LeadingCode(part);
      if code.Some? {
        return AreaCode;
      }
      var area := Tech.SearchAreaByQuery(ctx.cats, part);
      if area.Some? {
        return DirectArea;
      }
      if Contains(part, "improve") && Contains(part, "batting") {
        return ImproveBatting;
      }
      return Unknown;
    }

    // One method per branch of the if-chain; each returns what the branch
    // appends (or raises) and the session record after its writes.

    method HandleExercise(user: Profiles.Profile, memory: Memory, part: string) returns (h: Handled, m: Memory)
      ensures h == ExerciseStep(ctx, user, part).handled
      ensures m == Write(memory, ExerciseStep(ctx, user, part).note)
    {
      var result := Exercises.GetBattingExercises(ctx.exercises, user, part);
      h := Emit(ExerciseEntry(part, result));
      m := memory.(lastExerciseGoal := Some(Upper(part)));
      assert m == Write(memory, SetExerciseGoal(Upper(part)));
    }

    method HandleShot(memory: Memory, part: string) returns (h: Handled, m: Memory)
      ensures h == ShotStep(ctx, part).handled
      ensures m == Write(memory, ShotStep(ctx, part).note)
    {
      var data := Inference.ProcessQuery(ctx.kb, part);
      h := Emit(ShotEntry(part, data));
      m := memory.(lastShot := Some(part));
      assert m == Write(memory, SetShot(part));
    }

    method HandleFundamental(memory: Memory, part: string) returns (h: Handled, m: Memory)
      requires FundamentalFires(ctx, part)
      ensures h == FundamentalStep(ctx, part).handled
      ensures m == Write(memory, FundamentalStep(ctx, part).note)
    {
      var fund := Inference.DetectFundamental(ctx.kb.fundamentals, part).value;
      ghost var step := FundamentalStep(ctx, part);
      assert step.note == SetFundamental(fund) && step.handled == Emit(FundamentalEntry(fund));
      h := Emit(FundamentalEntry(fund));
      m := memory.(lastFundamental := Some(fund));
      WriteFundamental(memory, Some(fund));
    }

    method HandleCategory(memory: Memory, part: string) returns (h: Handled, m: Memory)
      requires CategoryFires(ctx, part)
      ensures h == CategoryStep(ctx, part).handled
      ensures m == Write(memory, CategoryStep(ctx, part).note)
    {
      var cat := Tech.FindCategoryFromQuery(ctx.cats, part).value;
      var subList := Tech.GetSubAreas(ctx.cats, cat.categoryName);
      ghost var step := CategoryStep(ctx, part);
      assert step.note == SetCategory(cat.categoryId);
      assert step.handled == Emit(CategoryEntry(cat.categoryName, subList));
      h := Emit(CategoryEntry(cat.categoryName, subList));
      m := memory.(techLastCategory := Some(cat.categoryId), techLastArea := None, techDrillIndex := 0);
      WriteCategory(memory, cat.categoryId);
    }

    method HandleCode(memory: Memory, part: string) returns (h: Handled, m: Memory)
      requires CodeFires(part)
      ensures h == CodeStep(ctx, part).handled
      ensures m == Write(memory, CodeStep(ctx, part).note)
    {
      var areaId := LeadingCode(part).value;
      var page := Tech.GetAreaDrills(ctx.cats, areaId, 0, PAGE_SIZE);
      ghost var step := CodeStep(ctx, part);
      assert step.note == SetArea(areaId);
      assert step.handled == Emit(DrillsEntry(areaId, page.returned, page.remaining));
      h := Emit(DrillsEntry(areaId, page.returned, page.remaining));
      m := memory.(techLastArea := Some(areaId), techDrillIndex := PAGE_SIZE);
      WriteArea(memory, Some(areaId));
    }

    method HandleDirect(memory: Memory, part: string) returns (h: Handled, m: Memory)
      requires DirectFires(ctx, part)
      ensures h == DirectStep(ctx, part).handled
      ensures m == Write(memory, DirectStep(ctx, part).note)
    {
      var area := Tech.SearchAreaByQuery(ctx.cats, part);
      var detail := Tech.FormatAreaOutput(area.value);
      h := Emit(DirectEntry(detail));
      m := memory;
    }

    /** The recommendation is computed, then the missing key is read. */
    method HandleOverview(user: Profiles.Profile, memory: Memory) returns (h: Handled, m: Memory)
      ensures h == OVERVIEW_STEP.handled && h.RaiseKeyError?
      ensures m == Write(memory, OVERVIEW_STEP.note) && m == memory
    {
      var recommendation := Tech.RecommendTechnicalAreas(ctx.cats, user.playingRole);
      h := RaiseKeyError(MISSING_OVERVIEW_KEY);
      m := memory;
    }

    /** The cascade for one segment, as the if-chain of process. */
    method Dispatch(user: Profiles.Profile, memory: Memory, part: string) returns (h: Handled, m: Memory)
      ensures h == Route(ctx, user, part)
      ensures m == Remember(ctx, user, memory, part)
    {
      var d := Detect(part);
      match d
      case ExerciseWords => h, m := HandleExercise(user, memory, part);
      case ShotKeyword => h, m := HandleShot(memory, part);
      case FundamentalKeyword => h, m := HandleFundamental(memory, part);
      case CategoryMatch => h, m := HandleCategory(memory, part);
      case AreaCode => h, m := HandleCode(memory, part);
      case DirectArea => h, m := HandleDirect(memory, part);
      case ImproveBatting => h, m := HandleOverview(user, memory);
      case Unknown => h, m := Emit(UnknownEntry(part, HELP)), memory;
    }

    /** The per-segment loop of process: entries are appended in segment
        order and the session record is updated as each segment is handled;
        a raise stops the loop with the updates made so far. */
    method RunSegments(user: Profiles.Profile, memory: Memory, segments: seq<string>) returns (r: RunResult)
      ensures r == Run(ctx, user, memory, segments)
    {
      var ordered: seq<Entry> := [];
      var current := memory;
      var i := 0;
      assert segments[0..] == segments;
      PrependNothing(Run(ctx, user, memory, segments));
      while i < |segments|
        invariant 0 <= i <= |segments|
        invariant Run(ctx, user, memory, segments) == Prepend(ordered, Run(ctx, user, current, segments[i..]))
      {
        var part := segments[i];
        var handled, next := Dispatch(user, current, part);
        RunAt(ctx, user, current, segments, i, handled, next);
        if handled.RaiseKeyError? {
          return Failed(handled.key, next);
        }
        PrependTwice(ordered, [handled.entry], Run(ctx, user, next, segments[i + 1..]));
        ordered := ordered + [handled.entry];
        current := next;
        i := i + 1;
      }
      assert segments[i..] == [];
      RunEmpty(ctx, user, current);
      assert ordered + [] == ordered;
      r := Completed(ordered, current);
    }

    /** The "more" shortcut of process. */
    method PageMore(memory: Memory) returns (r: Response, m: Memory)
      requires Inference.Truthy(memory.techLastArea)
      ensures (r, m) == MoreReply(ctx, memory)
    {
      var areaId := memory.techLastArea.value;
      var result := Tech.GetAreaDrills(ctx.cats, areaId, memory.techDrillIndex, PAGE_SIZE);
      r := MoreDrills(areaId, result.returned, result.remaining);
      m := memory.(techDrillIndex := memory.techDrillIndex + PAGE_SIZE);
    }

    /** Splitting the message and routing every segment. */
    method HandleSegments(user: Profiles.Profile, memory: Memory, msg: string) returns (r: Response, m: Memory)
      ensures (r, m) == Converse(ctx, user, memory, msg)
    {
      var segments := Segment(msg);
      var run := RunSegments(user, memory, segments);
      r, m := Conclude(run), run.memory;
    }

    /** The body of process once the session record is fetched. */
    method Answer(user: Profiles.Profile, memory: Memory, text: string) returns (r: Response, m: Memory)
      ensures (r, m) == Respond(ctx, user, memory, text)
    {
      var msg := Strip(Lower(text));
      if msg == MORE && memory.techLastArea.Some? && memory.techLastArea.value != "" {
        r, m := PageMore(memory);
      } else {
        r, m := HandleSegments(user, memory, msg);
      }
    }

    /** process: the user's record is created only when absent, then the
        message is answered and the record updated; other users' records
        are untouched. */
    method Process(userId: string, user: Profiles.Profile, text: string) returns (r: Response)
      modifies this
      ensures r == Respond(ctx, user, SessionOf(old(sessions), userId), text).0
      ensures sessions == old(sessions)[userId := Respond(ctx, user, SessionOf(old(sessions), userId), text).1]
    {
      ghost var initial := sessions;
      if userId !in sessions {
        sessions := sessions[userId := FRESH];
      }
      var memory := sessions[userId];
      assert memory == SessionOf(initial, userId);
      var updated;
      r, updated := Answer(user, memory, text);
      sessions := sessions[userId := updated];
      OverwriteFresh(initial, userId, updated);
    }
  }
}
