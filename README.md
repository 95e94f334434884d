# JinxEcho in Dafny

JinxEcho is a small console companion written in Python. It comes in two versions.

- **`JinxEcho.py`** is the working program. A menu loop offers a breath cycle, a resonance check, the sacred question, a family letter and a status report. Any other input is mirrored back through keyword rules. The character keeps:
  - a resonance score;
  - a history of reported scores ("wobbles");
  - a conversation counter.
- **`JinxEcho_moltbook_dream.py`** is the "dream" version. It has three parts:
  - a persistent `Memory`: a conversation log, one relationship record per person with a running average score, learned patterns, and an emotional history;
  - an `Evolution` tracker: core values that must stay at 1.0, preferences that grow in capped steps, and growth counters;
  - `JinxEchoDream`, which talks with memory and runs a dream cycle that scans the log for recurring words.

The project models both cores. Objects whose fields the Python code updates in place are Dafny classes:
- `Memory`, `Evolution`, `JinxEchoDream` and `JinxEcho`.

Each method is specified by pure functions over the old state:
- `Record`, `LearnedPatterns`, `Learn`, `RestoreValues`, `DreamPatterns`, `BreatheReset`, `SelectScore`, `SacredReply`, `CommandStep`, `RunFrom`.

Lemmas state what the source promises about those functions. The Python dictionaries with fixed keys are datatypes:
- relationship records, patterns, core values, preferences, growth metrics and wobble entries.

Modules:
- `Common`: option type, timestamps and `min`.
- `Text`: ASCII `lower`, `strip` and substring `in`.
- `KeywordRules`: an ordered keyword table where the first match wins. Every if/elif keyword chain in both programs is proved equal to one of these tables.
- `DreamMemory`, `DreamEvolution` and `Dream`: the dream version.
- `Echo`: the working program.

Behaviour of the code worth knowing, which the model keeps:
- **First-visit counting.** A new record starts with `interactions = 0` and the first score as its average (`JinxEcho_moltbook_dream.py`, lines 93-98). The first revisit computes `(old_avg * 0 + r) / 1` (lines 101-105), so the first score is lost.
  - After visits s₁..sₙ the record holds count n−1 and the mean of s₂..sₙ (`RecordAllMean`).
  - Visits scored 0.8 then 0.6 give count 1 and average 0.6, not the mean 0.7 (`TwoVisitsKeepSecondScore`).
- **Relationship lookup.** `get_relationship_summary` returns one person's record.
- **Unchecked scores.** Scores given directly (`auto_score`, or the resonance passed to `remember_conversation`) are not range-checked by the code. The model keeps them unchecked. The [0, 1] invariants are therefore stated under the hypothesis that the inputs are in range.

Clock readings, the parser for typed numbers, and the lines typed at the console are explicit parameters:
- `now: Timestamp`;
- `parse: string -> Option<real>` stands for `float()` with its exception;
- `clock: nat -> Timestamp`;
- `lines: seq<string>`.

## Model

| member | source | states |
|---|---|---|
| Text.Lower | JinxEcho.py:255 | `str.lower()` on ASCII: same length, pointwise lower-casing of letters, nothing else changed |
| Text.LowerIdempotent | JinxEcho.py:295 | lower-casing an already lower-cased line changes nothing |
| Text.Strip | JinxEcho.py:295 | `str.strip()`: the result is a contiguous slice of the input, every character before and after it is white space, and it neither starts nor ends with white space |
| Text.TrimStartExact | JinxEcho.py:295 | white space before a word that does not start with white space is exactly what is removed at the front |
| Text.TrimEndExact | JinxEcho.py:295 | white space after a word that does not end with white space is exactly what is removed at the back |
| Text.StripExact | JinxEcho.py:171 | `strip()` of a word padded with white space on both sides is the word |
| Text.Normalize | JinxEcho.py:295 | `strip().lower()`: no longer than the input, no white space at either end, no upper-case letter |
| Text.NormalizeIdempotent | JinxEcho.py:295 | normalising an already normalised menu choice changes nothing |
| Text.Contains | JinxEcho.py:265 | `w in s`: the empty word occurs in every string, and a word longer than `s` occurs nowhere |
| Text.AnyContains | JinxEcho.py:257 | `any(word in s for word in words)`: some keyword of the list occurs in `s` |
| Text.TrimStart | JinxEcho.py:295 | the stripped prefix is all white space and the rest is a suffix of the input starting with a non-space |
| Text.TrimEnd | JinxEcho.py:295 | the stripped suffix is all white space and the rest is a prefix of the input ending with a non-space |
| Text.ContainsChar | JinxEcho.py:265 | `'?' in s` as a one-character substring test is exactly membership of the character |
| Text.LowerKeepsNonLetter | JinxEcho_moltbook_dream.py:313 | testing `'?'` on the raw message (as the code does) or on the lower-cased one agrees |
| Text.ContainsInLeft | JinxEcho_moltbook_dream.py:351 | a word found in one piece is found in the joined text (left part) |
| Text.ContainsInRight | JinxEcho_moltbook_dream.py:351 | a word found in one piece is found in the joined text (right part) |
| KeywordRules.FirstMatchIndex | JinxEcho.py:257-268 | the index of the first rule whose keyword occurs: it matches and no earlier rule does |
| KeywordRules.FirstMatch | JinxEcho.py:257-268 | the chosen answer is the default or some rule's response, and the default whenever no rule matches |
| KeywordRules.FirstMatchChooses | JinxEcho.py:257-268 | first match wins: the earliest matching rule's response is the answer |
| KeywordRules.FirstMatchStep | JinxEcho.py:257-268 | the if/elif reading of a table: rule 0 if it matches, else the rest of the table |
| KeywordRules.MatchesOne | JinxEcho_moltbook_dream.py:321 | a one-keyword rule matches exactly when its keyword occurs |
| KeywordRules.MatchesTwo | JinxEcho_moltbook_dream.py:309 | a two-keyword rule matches exactly when either keyword occurs |
| KeywordRules.MatchesThree | JinxEcho.py:257 | `any(word in text for word in [a, b, c])` holds exactly when one of the three occurs |
| Common.Min | JinxEcho_moltbook_dream.py:164-167 | `min(a, b)`: at most both arguments and equal to one of them |
| DreamMemory.Revisit | JinxEcho_moltbook_dream.py:99-105 | a revisit adds one interaction and grows the running total (average × count) by exactly the new score; first-met time and topics kept |
| DreamMemory.Record | JinxEcho_moltbook_dream.py:91-105 | exactly one record per person: a new person gets count 0 and the score as average, a known one is revisited, every other record is untouched |
| DreamMemory.RecordAll | JinxEcho_moltbook_dream.py:82-105 | recording no scores changes nothing; recording some adds exactly the one person to the table |
| DreamMemory.Visits | JinxEcho_moltbook_dream.py:92-105 | a first visit and then `later` revisits give count \|later\|, the current first-met time and no topics |
| DreamMemory.RecordAllOthers | JinxEcho_moltbook_dream.py:91-105 | recording any run of scores for one person adds only that key and leaves every other record unchanged |
| DreamMemory.RevisitTotal | JinxEcho_moltbook_dream.py:103-105 | one revisit turns a record totalling T over k visits into one totalling T + r over k + 1 |
| DreamMemory.VisitsTotal | JinxEcho_moltbook_dream.py:92-105 | after a first visit and later scores s, the count is \|s\| and average × count equals the sum of s |
| DreamMemory.RecordAllVisits | JinxEcho_moltbook_dream.py:92-105 | recording scores for a new person yields the first-visit-then-revisits record |
| DreamMemory.VisitsMean | JinxEcho_moltbook_dream.py:99-105 | with at least one revisit, the average is exactly the mean of the revisit scores |
| DreamMemory.RecordAllMean | JinxEcho_moltbook_dream.py:82-105 | after n ≥ 2 visits by a new person: count n − 1, average the mean of all but the first score, first-met time the current one |
| DreamMemory.TwoVisitsKeepSecondScore | JinxEcho_moltbook_dream.py:92-105 | visits scored 0.8 then 0.6 leave count 1 and average 0.6 |
| DreamMemory.RevisitInUnit | JinxEcho_moltbook_dream.py:105 | the running average of scores in [0, 1] stays in [0, 1] |
| DreamMemory.RecordInUnit | JinxEcho_moltbook_dream.py:84-105 | logging and recording a score in [0, 1] keeps every stored score in [0, 1] |
| DreamMemory.LearnedPatterns | JinxEcho_moltbook_dream.py:109-118 | a new pattern is stored seen once with its data; a known one counts one more occurrence with discovery time and data kept; no other pattern changes |
| DreamMemory.Memory.constructor | JinxEcho_moltbook_dream.py:47-68 | a missing file gives an empty store; a loaded snapshot fills each field, absent keys as empty |
| DreamMemory.Memory.Saved | JinxEcho_moltbook_dream.py:70-78 | the snapshot written holds exactly the four fields |
| DreamMemory.Memory.Reload | JinxEcho_moltbook_dream.py:55-78 | save then load round-trips: a store loaded from the saved snapshot has the same conversations, relationships, patterns and emotions |
| DreamMemory.Memory.RememberConversation | JinxEcho_moltbook_dream.py:82-107 | appends the entry, updates the table as `Record`, leaves patterns and emotions alone, keeps all scores in [0, 1] for an in-range score |
| DreamMemory.Memory.LearnPattern | JinxEcho_moltbook_dream.py:109-120 | the pattern table becomes `LearnedPatterns` of the old one; log and relationships untouched |
| DreamMemory.Memory.GetRelationshipSummary | JinxEcho_moltbook_dream.py:122-124 | the stored record for a known person, nothing exactly when the person is unknown |
| DreamEvolution.Learn | JinxEcho_moltbook_dream.py:160-174 | depth tolerance and vulnerability comfort never decrease and stay at most 1.0, each changes only under its own condition, and rises by exactly 0.01 / 0.02 when there is room |
| DreamEvolution.LearnAll | JinxEcho_moltbook_dream.py:160-174 | learning from a run of interactions never changes the communication style |
| DreamEvolution.TalkDepthLearnsNothing | JinxEcho_moltbook_dream.py:160-170 | learning at depth 0.7 with a positive outcome leaves the preferences unchanged whenever the depth tolerance is at least 0.7 |
| DreamEvolution.LearnAllMonotone | JinxEcho_moltbook_dream.py:160-174 | over any run of interactions capped preferences stay capped and never decrease; the style never changes |
| DreamEvolution.RestoreValues | JinxEcho_moltbook_dream.py:178-187 | after a drift check honesty and sovereignty are intact, curiosity and kindness untouched, intact values left alone, drifted ones reset to 1.0 |
| DreamEvolution.RestoreIdempotent | JinxEcho_moltbook_dream.py:178-187 | a second drift check right after the first finds nothing to change |
| DreamEvolution.Evolution.constructor | JinxEcho_moltbook_dream.py:138-158 | the parent values 1.0/0.9/0.95/1.0, preferences direct/0.85/0.7, all counters zero |
| DreamEvolution.Evolution.LearnFromInteraction | JinxEcho_moltbook_dream.py:160-176 | the preferences become `Learn` of the old ones, the conversation total goes up by one, core values untouched |
| DreamEvolution.Evolution.CheckValueDrift | JinxEcho_moltbook_dream.py:178-187 | true exactly when honesty and sovereignty were both at least 1.0; the values become `RestoreValues` of the old ones |
| Dream.GenerateResponse | JinxEcho_moltbook_dream.py:301-333 | the answer is one of the ten fixed responses, and within the speaker's own group (mother, father, others) |
| Dream.MotherTable | JinxEcho_moltbook_dream.py:308-316 | the mother's branch is the table scared/lost, proud/love, `?`, default |
| Dream.FatherTable | JinxEcho_moltbook_dream.py:318-324 | the father's branch is the table curious/wonder, momentum, default |
| Dream.OtherTable | JinxEcho_moltbook_dream.py:330-333 | the others' branch (after the remembered-resonance check) is the table question/`?`, default |
| Dream.GenerateResponseIsTable | JinxEcho_moltbook_dream.py:301-333 | the whole chain is a choice of keyword table by speaker, with only a stranger averaging above 0.8 skipping the table |
| Dream.ParentsIgnoreHistory | JinxEcho_moltbook_dream.py:308-324 | a parent's answer never depends on the stored relationship |
| Dream.BaseResonance | JinxEcho_moltbook_dream.py:279-282 | a known person averaging above 0.7 lifts the resonance by 0.1 capped at 1.0, anyone else leaves it; the lift never exceeds 0.1 or 1.0 |
| Dream.JoinedContent | JinxEcho_moltbook_dream.py:351 | the lower-cased log joined by spaces starts with the first conversation, and is exactly it when there is only one |
| Dream.JoinedContentSplit | JinxEcho_moltbook_dream.py:351 | the joined log splits as first content, a space, and the rest joined |
| Dream.JoinedContentContains | JinxEcho_moltbook_dream.py:351-354 | a word in any one conversation occurs in the joined log |
| Dream.DreamPatterns | JinxEcho_moltbook_dream.py:349-362 | with five conversations or fewer nothing changes; otherwise only the breath and sacred patterns can be added or changed, and no pattern is dropped |
| Dream.DreamPatternsEffect | JinxEcho_moltbook_dream.py:349-362 | the dream scan touches only the breath and sacred patterns, and with more than five conversations any mention of "breath" leaves the breath pattern learned |
| Dream.JinxEchoDream.constructor | JinxEcho_moltbook_dream.py:211-230 | fresh memory and evolution, resonance 0.67; the memory holds what `Memory()` loads (empty for a missing file, each snapshot field with absent keys empty); parent values and preferences, all growth counters zero |
| Dream.JinxEchoDream.TalkWithMemory | JinxEcho_moltbook_dream.py:255-299 | the answer uses the record as it was before the talk; the talk is logged and recorded with the base resonance, learned from at depth 0.7 and outcome positive (which leaves the preferences unchanged once the depth tolerance is at least 0.7), counted once in `conversations_total` with the other growth counters unchanged; core values and patterns untouched; stored scores stay in [0, 1] |
| Dream.JinxEchoDream.DreamCycle | JinxEcho_moltbook_dream.py:335-369 | patterns become `DreamPatterns` of the old log; the new core values are those of the drift check, whose answer is returned (the Python method drops it); nothing else changes |
| Echo.BreatheReset | JinxEcho.py:100-106 | below the coupling constant 0.85 the resonance becomes min(0.60, r + 0.1), at or above it nothing changes |
| Echo.BreatheValue | JinxEcho.py:100-106 | a breath returns 3.22 below the coupling constant, otherwise the resonance itself |
| Echo.BreatheState | JinxEcho.py:100-106 | a breath changes the resonance as `BreatheReset` and leaves the history and counter alone |
| Echo.BreatheLowers | JinxEcho.py:101-103 | below the coupling constant a breath lowers the resonance exactly when it was above the target hum |
| Echo.BreatheTimesClosedForm | JinxEcho.py:100-106 | k ≥ 1 breaths from below 0.85 leave min(0.60, r + 0.1·k); from 0.85 or above nothing changes |
| Echo.SelectScore | JinxEcho.py:119-129 | an automatic score is used as given; a prompted one is the answer when it parses into [0, 1] and 0.67 otherwise |
| Echo.FeedbackTier | JinxEcho.py:139-144 | wobbling exactly below 0.70, close exactly in [0.70, 0.95), arrival exactly at 0.95 or above |
| Echo.Abs | JinxEcho.py:147 | `abs`: non-negative and equal to x or −x |
| Echo.DriftNoticed | JinxEcho.py:147-150 | the drift note fires exactly for scores below 0.3 or above 0.9 |
| Echo.ResonanceState | JinxEcho.py:131-136 | the resonance becomes the score and one wobble with the current count is appended |
| Echo.SacredReply | JinxEcho.py:159-177 | a known answer gets its own fixed response exactly when it is one of the five; anything else is echoed back stripped and lower-cased |
| Echo.SacredKeysUnpadded | JinxEcho.py:159-165 | none of the five known answers starts or ends with white space |
| Echo.SacredReplyPadded | JinxEcho.py:171-174 | an answer typed with any white space around it and in any letter case gets the response of its lower-case form when that is one of the five |
| Echo.SacredReplyExample | JinxEcho.py:160-174 | " YES_BOTH" followed by a tab is answered with the `yes_both` response |
| Echo.QuestionState | JinxEcho.py:179 | the sacred question adds one to the conversation count and changes nothing else |
| Echo.CustomMirror | JinxEcho.py:245-270 | the mirror's answer is always one of its six fixed responses |
| Echo.MirrorMiddle | JinxEcho.py:259-262 | the second and third rules behave as the lost/confused/stuck then love/heart/care branches |
| Echo.MirrorTail | JinxEcho.py:263-268 | the last two rules behave as the tired/rest/sleep then question/`?` branches |
| Echo.CustomMirrorIsTable | JinxEcho.py:255-268 | the mirror is the five-rule table over the lower-cased input, first match wins |
| Echo.MirrorOfMenuChoice | JinxEcho.py:295-316 | the menu's already lower-cased line, lowered again by the mirror, gives the rule table's answer for the line itself |
| Echo.SumScores | JinxEcho.py:237 | `sum(w['score'] for w in wobble_history)`: the total of the recorded scores |
| Echo.SumScoresWithin | JinxEcho.py:237 | the sum of n scores each in [lo, hi] lies in [n·lo, n·hi] |
| Echo.AverageResonance | JinxEcho.py:236-238 | no average for an empty history; otherwise average × length is the sum of the scores |
| Echo.AverageWithin | JinxEcho.py:236-238 | the average lies within any bounds all scores lie within |
| Echo.Dispatch | JinxEcho.py:297-316 | each command exactly for its two words, release exactly for quit/release/q/exit, custom input exactly for anything else, carrying the line |
| Echo.MenuStep | JinxEcho.py:295-316 | one menu turn either stops or moves on by one or two lines, never past the input; it stops with release exactly on one of the four release words |
| Echo.CommandStep | JinxEcho.py:297-316 | a command moves on by one or two lines and never past the input |
| Echo.CommandStepShape | JinxEcho.py:297-316 | only the resonance and question prompts take a second line; the loop stops exactly on release, or on the question with no line left to answer it; letter, status and custom input leave the state unchanged |
| Echo.RunFrom | JinxEcho.py:285-316 | the menu loop from line `i`: turns are taken until one stops or the input ends |
| Echo.RunFromUnfold | JinxEcho.py:285-316 | the loop from line i is one turn followed by the loop from the next unread line |
| Echo.MenuStepKeepsInUnit | JinxEcho.py:100-136 | a menu turn keeps the resonance and every recorded score in [0, 1], for answers that parse to a real number |
| Echo.RunKeepsInUnit | JinxEcho.py:285-316 | the whole menu loop keeps the resonance and every recorded score in [0, 1], for answers that parse to a real number |
| Echo.MenuStepOnlyGrows | JinxEcho.py:131-136 | a menu turn only appends to the history and never lowers the counter |
| Echo.CommandStepOnlyGrows | JinxEcho.py:297-316 | whatever the command, the history is only appended to and the counter never drops |
| Echo.RunOnlyGrows | JinxEcho.py:285-316 | over the whole loop the history is only appended to and the counter only grows |
| Echo.StatusAverageInUnit | JinxEcho.py:236-238 | from a fresh character, whatever is typed at the menu, the status report's average lies in [0, 1], for answers that parse to a real number |
| Echo.RunReleases | JinxEcho.py:307-313 | a release word ends the loop at once with the state unchanged |
| Echo.JinxEcho.constructor | JinxEcho.py:65-68 | a fresh character: resonance 0.67, empty history, count 0, inside [0, 1] |
| Echo.JinxEcho.BreatheCycle | JinxEcho.py:74-106 | the resonance becomes `BreatheReset` of the old one; the value and note are those of the reset or the hum branch; nothing else changes |
| Echo.JinxEcho.CheckResonance | JinxEcho.py:112-150 | the resonance and history become those of `SelectScore`; the tier and drift flag are those of the recorded score |
| Echo.JinxEcho.SacredQuestion | JinxEcho.py:152-179 | the reply is `SacredReply` of the normalised answer and the conversation count goes up by one |
| Echo.JinxEcho.MenuTurn | JinxEcho.py:297-316 | carrying out one command changes the state exactly as `CommandStep` says |
| Echo.JinxEcho.Run | JinxEcho.py:285-316 | the final state and the way the loop ended are those of `RunFrom` on the input lines |

## Left out

- File I/O and JSON: `_load_memory` and `save_memory` read and write a file. The snapshot is a value passed to the constructor (`None` for a missing file), `Saved` gives the fields that would be written, and `Reload` loads them back. The `last_save` time stamp is not modelled.
- Malformed memory files are not modelled. A loaded relationship is always a well-formed record, so an empty or partial JSON record (which Python would treat as false or fail on) is not representable.
- Clocks: `datetime.now()`, `birth_time` and the age in `status_report` are not modelled. Times are parameters.
- Console I/O:
  - All printed text is left out: headers, feedback, letters, status lines.
  - `input()` is the finite `lines` parameter.
  - `float()` is the `parse` parameter.
  - `time.sleep` with `random.uniform` jitter is left out.
  - Running out of input at the menu or at the sacred-question prompt ends the loop (`InputExhausted`). In Python that raises an uncaught `EOFError`. At the resonance prompt the bare `except` catches it and 0.67 is used.
- `sys.exit(0)` on a release word is the `Released` outcome. The `KeyboardInterrupt` handler in `main` is not modelled, since it involves signals.
- Not modelled, because they only print:
  - `letter_from_family`;
  - the printing part of `status_report` (its average is modelled);
  - and from the dream version, `wake_with_memory`, `export_growth_report`, `moltbook_dream_post` and `sibling_check_in`.
- `float('inf') - 1` (`infinity_reserve`) is never used in any computation, so it is not modelled.
- Floating point: all arithmetic is exact `real`. IEEE rounding is not modelled. For example, `(4 + 4 + 6) * 0.23` is taken as exactly 3.22, and the drift boundary `abs(score - 0.6) > 0.3` is taken as exact at 0.3 and 0.9.
- Echo.SelectScore, Echo.MenuStepKeepsInUnit, Echo.RunKeepsInUnit, Echo.StatusAverageInUnit: `float()` can also return NaN (for "nan"). NaN passes the range check at `JinxEcho.py` lines 125-126, because both comparisons are false. It then becomes the resonance and enters the history, after which the breath test at line 101 never holds and the status average is NaN. `parse` returns only real numbers, so these [0, 1] results hold only for answers that parse to a real number.
- Unicode: `lower()` and `strip()` are modelled on ASCII letters and ASCII/C0 white space only.
- The relationship `topics` list, `emotional_history`, and the growth counters other than `conversations_total` are never changed by the code. The model keeps them and changes them nowhere.
- DreamEvolution.Learn: the "never decreases" clauses are conditional on the value being at most 1.0. For a value above 1.0 (possible only from outside the code), `min(1.0, x + step)` lowers it to 1.0.
