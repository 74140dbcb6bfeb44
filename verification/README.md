# Crickmate coaching agent — a Dafny model of its rule-based core

Crickmate is a cricket coaching chat agent. A player registers a profile
(age, height, weight, skill level, playing role). The player then sends free-text
messages. The conversation router splits each message into segments and
sends every segment down a fixed-priority cascade of detectors:

- exercise words;
- shot keywords;
- fundamental keywords;
- technical category;
- sub-area code;
- direct area search;
- "improve batting";
- unknown.

Each segment yields one typed entry. A per-user session record remembers the
last category, area and drill cursor, so a later "more" pages through the
drills of the remembered area.

This project models that core as it is written:

- `Text`: the Python string operations the core relies on. These are
  lower/upper, `in`, `find`, `split(sep)`, `split()` and `strip()`.
- `Seqs` and `Wrappers`: first-match search, filtering and `Option`.
- `Tech`: the technical-skills catalogue engine. It covers keyword and name
  routing to categories, sub-area listing, drill pagination, role-priority
  recommendations and the free-text area search with its core-first ranking.
- `Exercises`: goal detection, exercise filtering, prescription choice,
  personalisation and the safety warning.
- `Inference`: the shot, fundamental, intent and roadmap detectors, the
  drills-only answer and the priority of `process_query`.
- `Profiles`: age banding, rule-table validation of the registration form and
  the profile constructor.
- `UserStore`: the `UserManager` class, with registration under sequential
  `USERnnnn` ids and lookup.
- `Rag`: the keyword snippet search over the book library.
- `Router`: the `ConversationRouter` class. Its `sessions` map holds one
  session record per user. Its methods mirror `process`: the "more" shortcut,
  the splitting loop, the detector cascade, the segment loop and the session
  update. Each method is proved equal to a specification function
  (`Respond`, `Converse`, `Run`, `Route`, `Remember`). The properties of the
  router are lemmas about those functions.

Catalogues that the source reads from JSON files are parameters. These are
the technical categories, the exercises, the shots, fundamentals and roadmap,
the validation rules and the library of books.

Where the code and its design description differ, the model follows the code:

- There is no fast path for drill codes or single category letters. A code
  such as "a2" is recognised only at step 4 of the cascade, and only at the
  start of a segment.
- Empty segments are kept. They reach the "unknown" entry.
- The "improve batting" branch always raises `KeyError`. It reads
  `top_recommendations_full`, a key the recommendation never has. A raise ends
  the segment loop, and the session writes made by earlier segments persist.
  The model makes this a `KeyErrorRaised` response.

## Model

| member | source | states |
|---|---|---|
| Text.Find | backend/rag_engine.py:69 | `s.find(sub)`: found exactly when the substring occurs, at its first occurrence |
| Text.AnyOccurs | backend/agent/conversation_router.py:93 | `any(w in part for w in words)` holds exactly when some word occurs in the text |
| Text.FirstKeyFromFirst | backend/agent/tech_engine.py:147-149 | scanning an ordered keyword table returns the first key occurring in the text, and None only when no key occurs |
| Text.SplitJoin | backend/agent/conversation_router.py:75 | `seg.split(key)` never returns an empty list, and joining its pieces with the key gives back the segment |
| Text.SplitPiecesAvoidSep | backend/agent/conversation_router.py:75 | no piece of `split(key)` contains the key |
| Text.Strip | backend/agent/conversation_router.py:78 | `strip()` returns a stripped substring of its input |
| Text.Words | backend/agent/tech_engine.py:227 | every word of `split()` is non-empty and has no whitespace |
| Text.WordsLayout | backend/agent/tech_engine.py:227 | the words of `split()` are the maximal non-whitespace runs of the string, left to right: the string is whitespace, then the words, each pair separated by non-empty whitespace, then whitespace |
| Tech.FormatAreaOutput | backend/agent/tech_engine.py:275-297 | keeps the area's texts; gives one formatted drill per drill, in order, with "" for a missing equipment or safety field |
| Tech.GetCategoryById | backend/agent/tech_engine.py:324-328 | the first category with exactly this id; None exactly when no category has it |
| Tech.FirstKeywordFirst | backend/agent/tech_engine.py:12-71 | in dictionary order, the chosen routing keyword occurs in the lowercased text and no earlier keyword does; None only when no keyword occurs |
| Tech.KeywordToCategoryMapped | backend/agent/tech_engine.py:143-151 | no keyword gives None; a result is a catalogue category carrying the first keyword's id; for a found keyword there is a result exactly when some category has that id |
| Tech.FindCategoryFromQuery | backend/agent/tech_engine.py:303-322 | a found category is one of the catalogue's |
| Tech.FindCategoryOrder | backend/agent/tech_engine.py:303-322 | keyword routing wins when it names a category; otherwise the first category whose name or a word of its name occurs; None exactly when no name matches |
| Tech.GetSubAreas | backend/agent/tech_engine.py:335-349 | the id, name and description of every area of the first category named so (ignoring case), in order; [] when no category is named so |
| Tech.GetAreaDetailsByName | backend/agent/tech_engine.py:262-269 | the formatted first area, in catalogue order, whose name equals the given name ignoring case; None when there is none |
| Tech.AreaById | backend/agent/tech_engine.py:357-360 | a found area belongs to the catalogue and has the id; None exactly when no area has it |
| Tech.AreaByIdFirst | backend/agent/tech_engine.py:357-360 | the area found is the first in catalogue order that has the id |
| Tech.GetAreaDrills | backend/agent/tech_engine.py:355-386 | the page is at most `count` drills; when the start is within the drills, returned plus remaining drills cover all drills after the start |
| Tech.PagesAreContiguous | backend/agent/tech_engine.py:364-383 | pages of two drills at cursors 0, 2, 4 and so on show the area's drills in order without gaps or overlaps; remaining counts the drills after the page; a page past the end is empty |
| Tech.UnknownAreaPage | backend/agent/tech_engine.py:386 | an id that no area has gives an empty page with total and remaining 0 |
| Tech.RolePlansPartitionCategories | backend/agent/tech_engine.py:76-129 | for every role of the table, the priority, secondary and low lists together name each of the categories A to I exactly once |
| Tech.BuildRefs | backend/agent/tech_engine.py:176-186 | the `build` loop computes the references of every category carrying each requested id, in id order |
| Tech.BuildFollowsIds | backend/agent/tech_engine.py:176-186 | with distinct catalogue ids covering the requested ones, there is one reference per requested id, in the requested order |
| Tech.RecommendTechnicalAreas | backend/agent/tech_engine.py:157-193 | an unknown lowercased role gives three empty lists, unstructured; a known role gives the three built lists of its plan, structured |
| Tech.Score | backend/agent/tech_engine.py:198-212 | between 1 and 3; 3 exactly for "core", 2 exactly for "important" |
| Tech.CoreFirstSorted | backend/agent/tech_engine.py:251-254 | the ranked candidates are ordered by descending key (3 for core, 1 otherwise) |
| Tech.CoreFirstPermutes | backend/agent/tech_engine.py:251-254 | the ranking is a permutation of the candidates |
| Tech.CoreFirstStable | backend/agent/tech_engine.py:251-254 | within each key class the ranking keeps catalogue order, as Python's stable sort does |
| Tech.SearchAreaChoice | backend/agent/tech_engine.py:218-256 | no area when every word is a stopword; otherwise the first matching area flagged core for the reference role, else the first matching area, else none |
| Tech.CollectCandidates | backend/agent/tech_engine.py:232-246 | the candidate loop keeps, in catalogue order, exactly the areas whose lowercased name occurs in the text or contains a cleaned word |
| Tech.SearchAreaByQuery | backend/agent/tech_engine.py:218-256 | the candidate loop and ranking compute the search result |
| Exercises.DetectGoal | backend/agent/exercise_engine.py:80-88 | the detected goal is always one of the four goals |
| Exercises.DetectGoalFirstMatch | backend/agent/exercise_engine.py:80-88 | the goal of the first key, in table order, occurring in the lowercased text; the power-hitting default only when no key occurs; never empty |
| Exercises.PowerHittingShadowed | backend/agent/exercise_engine.py:7-9 | the key "power hitting" can never be the first match, since "power" precedes it and occurs in it |
| Exercises.BattingPowerShadowed | backend/agent/exercise_engine.py:7-10 | the key "batting power" can never be the first match, for the same reason |
| Exercises.FilterByGoal | backend/agent/exercise_engine.py:95-103 | the exercises listing the goal or "ALL", in catalogue order, and only those |
| Exercises.FindPrescription | backend/agent/exercise_engine.py:149-162 | the first prescription with the player's age group that covers "All" or the player's BMI band; None exactly when none fits |
| Exercises.Personalise | backend/agent/exercise_engine.py:119-138 | copies the exercise's fields; flags the role as recommended exactly when it is in the role priority; attaches the dosage of the fitting prescription, or the dosage warning when none fits |
| Exercises.PersonaliseAll | backend/agent/exercise_engine.py:110-142 | one personalised entry per exercise, in order |
| Exercises.Warning | backend/agent/exercise_engine.py:169-179 | only the power-hitting goal warns; being underweight outranks being a beginner; otherwise "" |
| Exercises.BattingExercisesOutcome | backend/agent/exercise_engine.py:42-73 | the "goal not recognized" error never occurs; the no-exercise error occurs exactly when no exercise serves the detected goal; a plan carries the detected goal, the count of the matches, the goal's warning, and the personalised entries of exactly the matching exercises, in catalogue order |
| Exercises.GetBattingExercises | backend/agent/exercise_engine.py:42-73 | the method computes the specified result |
| Inference.DetectIntent | backend/agent/inference.py:61-68 | drills-only exactly when a drill keyword occurs in the query |
| Inference.DetectShot | backend/agent/inference.py:70-84 | the shot of the first keyword, in table order, occurring in the query; None exactly when no keyword occurs |
| Inference.CutShotShadowed | backend/agent/inference.py:74-75 | "cut shot" can never be the first match, since "cut" precedes it and occurs in it |
| Inference.PullShotShadowed | backend/agent/inference.py:76-77 | "pull shot" can never be the first match, for the same reason |
| Inference.DetectFundamental | backend/agent/inference.py:86-91 | the key of the first fundamental, in file order, with a keyword occurring in the query; None exactly when there is none |
| Inference.DrillsOnlyLineCount | backend/agent/inference.py:123-134 | the drills answer is a header line, then per drill a name line, one line per step, and a reps line and a safety line |
| Inference.DrillNamesInOrder | backend/agent/inference.py:127-128 | the drill-name lines are exactly the drills' names, in drill order |
| Inference.FormatDrillsOnly | backend/agent/inference.py:123-134 | the appending loops build exactly the specified lines |
| Inference.ProcessQueryPriority | backend/agent/inference.py:32-59 | each answer in both directions with its full guard: the roadmap wins, then a truthy fundamental key; otherwise no shot keyword gives "couldn't identify", a detected shot missing from the table gives "no information", and a shot in the table gives the drills-only lines exactly when the intent is drills only and the full explanation exactly when it is not |
| Profiles.ComputeAgeGroup | backend/agent/user_profile.py:17-27 | for any numeric age: U13 up to 12, U15 above 12 up to 14, U17 above 14 up to 16, U19 above 16 up to 18, Adult above 18, each in both directions |
| Profiles.AgeGroupMonotone | backend/agent/user_profile.py:17-27 | an older player is never placed in a younger group |
| Profiles.CheckField | backend/agent/user_profile.py:60-71 | a value passes exactly when it is an integer within range, or is among the choices; otherwise the message of the first failing check |
| Profiles.ValidateInputs | backend/agent/user_profile.py:47-73 | accepted exactly when every required field is present and passes its checks |
| Profiles.ValidateInputsFirstFailure | backend/agent/user_profile.py:54-71 | a rejection names the first missing field when a field is missing; otherwise it names the first failing field with that check's message |
| Profiles.ProfileFromData | backend/agent/user_profile.py:5-37 | `UserProfile(**data)` returns exactly when the keyword arguments fit the signature, the age, height and weight are numbers and the height is not zero (string skill and role assumed, see Left out); it then keeps the given values, defaults `weekly_days` to None and derives the age group from the age |
| UserStore.UserIdParses | backend/agent/user_manager.py:34 | an id is "USER" followed by decimal digits that spell the count back |
| UserStore.UserIdInjective | backend/agent/user_manager.py:34 | different counts give different ids |
| UserStore.UserIdWidth | backend/agent/user_manager.py:34 | ids are eight characters long up to USER9999 |
| UserStore.SequentialIdsDistinct | backend/agent/user_manager.py:33-48 | in a store filled only by registrations, no id occurs twice |
| UserStore.UserManager.constructor | backend/agent/user_manager.py:7-13 | a new manager starts with no users |
| UserStore.UserManager.RegisterUser | backend/agent/user_manager.py:23-52 | a rejected form or a failing constructor stores nothing; otherwise one record is appended under the next id; ids stay sequential |
| UserStore.UserManager.GetUser | backend/agent/user_manager.py:54-59 | the first record with the id; "User not found" exactly when no record has it |
| Rag.AnchorIndex | backend/rag_engine.py:66-72 | the first occurrence of the first query word longer than three characters that occurs in the lowercased text; None exactly when there is none |
| Rag.Snippet | backend/rag_engine.py:76-78 | the window from 300 before to 1000 after the anchor, clamped, with newlines replaced by spaces |
| Rag.ChunkOf | backend/rag_engine.py:62-80 | a book contributes exactly when an anchoring word occurs in it; it contributes its file name and the window at the anchor |
| Rag.ChunksAppend | backend/rag_engine.py:59 | chunks are collected book by book, in library order |
| Rag.ChunksFromLibrary | backend/rag_engine.py:59-80 | every chunk comes from a book of the library and is tagged with that book's file name |
| Rag.SearchResult | backend/rag_engine.py:82-86 | None exactly when no book contributes; otherwise the first three chunks, or fewer when fewer exist |
| Rag.FindAnchor | backend/rag_engine.py:66-72 | the inner loop finds the anchor, with -1 for none |
| Rag.BookChunk | backend/rag_engine.py:62-80 | the loop body computes one book's contribution |
| Rag.Search | backend/rag_engine.py:51-86 | the loop over the library computes the specified result |
| Router.SegmentsClean | backend/agent/conversation_router.py:69-78 | every segment is stripped and contains none of the split keys |
| Router.PieceJoin | backend/agent/conversation_router.py:74-77 | a segment's pieces are never an empty list and join back with the key to the segment, so no text is lost, order is kept and empty pieces stay |
| Router.PipelineKeeps | backend/agent/conversation_router.py:71-78 | splitting never drops a segment, and an empty segment stays as an empty segment |
| Router.SegmentsOfMore | backend/agent/conversation_router.py:69-78 | "more" stays a single segment |
| Router.SplitEach | backend/agent/conversation_router.py:72-77 | each segment holding the key is replaced by its pieces, in order |
| Router.Segment | backend/agent/conversation_router.py:69-78 | the splitting loop computes the pipeline of split-and-strip stages, one per key |
| Router.LeadingCode | backend/agent/conversation_router.py:166-169 | a code exactly when the segment starts with a letter and a digit; it is the uppercased letter and the longest digit run after it |
| Router.FirstMatchWins | backend/agent/conversation_router.py:87-231 | a detector handles a segment exactly when it fires and no detector before it in the cascade fires |
| Router.RememberExercise | backend/agent/conversation_router.py:93-104 | an exercise segment records the uppercased segment as the goal, and nothing else |
| Router.RememberShot | backend/agent/conversation_router.py:110-121 | a shot segment records the segment as the last shot, and nothing else |
| Router.RememberFundamental | backend/agent/conversation_router.py:127-138 | a fundamental segment records the detected non-empty key, and nothing else |
| Router.RememberCategory | backend/agent/conversation_router.py:144-160 | a category segment records the category id, clears the area and resets the cursor to 0 |
| Router.RememberCode | backend/agent/conversation_router.py:166-183 | a code segment records the code as the area and sets the cursor to 2 |
| Router.RememberPassive | backend/agent/conversation_router.py:189-231 | a direct area, the overview and an unknown segment write nothing |
| Router.UnknownEntryCarriesHelp | backend/agent/conversation_router.py:220-231 | an unmatched segment gives the help entry echoing the segment, and no other detector fires for it |
| Router.RouteRaisesOnlyForOverview | backend/agent/conversation_router.py:202-214 | only the "improve batting" branch raises, always on `top_recommendations_full` |
| Router.OneEntryPerSegment | backend/agent/conversation_router.py:87-237 | a completed run has one entry per segment, in segment order, each the entry its segment routes to |
| Router.FailsOnlyAtOverview | backend/agent/conversation_router.py:87-214 | a run fails exactly when some segment reaches the overview branch, and then on the missing key |
| Router.RunKeepsLastArea | backend/agent/conversation_router.py:30 | `last_area` is never written |
| Router.MorePages | backend/agent/conversation_router.py:45-63 | "more" with a remembered area returns the page at the cursor and moves the cursor on by exactly 2, even past the end; nothing else changes |
| Router.MoreWithoutArea | backend/agent/conversation_router.py:45 | without a remembered area, "more" is routed as one ordinary segment |
| Router.ConversationRouter.constructor | backend/agent/conversation_router.py:13-18 | the router starts with no sessions |
| Router.ConversationRouter.Detect | backend/agent/conversation_router.py:93-202 | the if-chain's tests pick the cascade's detector |
| Router.ConversationRouter.HandleExercise | backend/agent/conversation_router.py:93-104 | the exercise branch's entry and session write |
| Router.ConversationRouter.HandleShot | backend/agent/conversation_router.py:110-121 | the shot branch's entry and session write |
| Router.ConversationRouter.HandleFundamental | backend/agent/conversation_router.py:127-138 | the fundamental branch's entry and session write |
| Router.ConversationRouter.HandleCategory | backend/agent/conversation_router.py:144-160 | the category branch's entry and session writes |
| Router.ConversationRouter.HandleCode | backend/agent/conversation_router.py:166-183 | the code branch's first page and session writes |
| Router.ConversationRouter.HandleDirect | backend/agent/conversation_router.py:189-196 | the direct branch's formatted area, with no write |
| Router.ConversationRouter.HandleOverview | backend/agent/conversation_router.py:202-214 | the overview branch raises and writes nothing |
| Router.ConversationRouter.Dispatch | backend/agent/conversation_router.py:93-231 | one segment's handling gives the routed entry or raise, and the record after its write |
| Router.ConversationRouter.RunSegments | backend/agent/conversation_router.py:81-231 | the segment loop computes the run: entries in segment order, writes threaded through, stopped by the first raise |
| Router.ConversationRouter.PageMore | backend/agent/conversation_router.py:45-63 | the "more" shortcut gives the next page and the advanced cursor |
| Router.ConversationRouter.HandleSegments | backend/agent/conversation_router.py:69-237 | splitting, then routing every segment, gives the response and the record afterwards |
| Router.ConversationRouter.Answer | backend/agent/conversation_router.py:23-237 | the body of `process` computes the specified response and record |
| Router.ConversationRouter.Process | backend/agent/conversation_router.py:21-237 | the user's record is created only when absent; it is then replaced by the record after answering; other users' records are untouched |

## Left out

- File and JSON I/O. Catalogues, rules, exercises, shots, fundamentals, roadmap and the book library are loading results passed in as values. The users file becomes the `users` field of `UserManager`, and the saving step is not modelled.
- BMI. `_compute_bmi` and `_compute_bmi_group` use floating-point division and rounding, so the BMI band is an input of the profile constructor. The BMI figure is not stored in the user record. The model does follow the raise for a zero height: the caught `ZeroDivisionError` leaves the BMI at None, and the band's `None < 18.5` then raises.
- Texts of formatted answers. The model keeps the structure of the answers, not their wording. This covers the chat acknowledgements, emoji and the "instruction" strings of the router, the full shot explanation, the fundamental answer and the roadmap answer. The drills-only answer is modelled line by line, without its decorations.
- Router.ConversationRouter.HandleFundamental: the entry carries the detected fundamental key rather than the formatted text of that fundamental, because `_format_fundamental` is a text formatter outside this model.
- Router.ConversationRouter.HandleOverview: the recommendation is computed and then discarded. The raise that follows is modelled; a Python traceback is not.
- Profiles.ProfileFromData: a non-string `skill_level` or `playing_role` is treated as a raise, whereas the source's constructor stores any value. The profile keeps both as strings because the engines that read them compare them with strings and call `.lower()` on the role.
- Profiles.ProfileFromData: float overflow and underflow are not modelled. A height so small that its square underflows to zero raises in the source, and a huge number can overflow in the division; the model treats numbers as exact reals.
- Inference.ProcessQueryPriority: an entry of the shots table is taken to be truthy. `if not shot` also rejects an empty dictionary as "no information", and the model's shot entries are never empty.
- Unicode. Lowercasing, uppercasing, whitespace and `\d` are modelled on ASCII only.
- Aliasing of the session record. The source mutates the dictionary stored in `sessions`. The model reads the record, computes the new record and stores it back. No other alias of that dictionary exists in `process`.
- Tech.SearchAreaByQuery: the in-place `list.sort` is modelled as the stable partition into core and other candidates. The lemmas prove that this partition is sorted by the key, a permutation of the candidates and stable.
- Router.ConversationRouter.Detect: the source runs each detection once in the if-chain and again inside the branch it selects. The model runs each detection once, and the branch functions re-evaluate the pure detectors.
- The language-model intent agent, the Flask app, the embedding-based RAG variant and the test scripts are not part of this model, and neither is the concurrency of sessions.
