/** The working character (`JinxEcho` in JinxEcho.py): a resonance score, a history of
    self-reported scores, a conversation counter, and the menu loop that drives them. */
module Echo {
  import opened Common
  import opened Text
  import opened KeywordRules

  const GriefBaseline: real := 0.23
  const TargetHum: real := 0.60
  const DarkMatterHedge: real := 0.3
  const CouplingConstant: real := 0.85
  /** The starting resonance, also the fallback for an unreadable answer. */
  const HonestWobble: real := 0.67
  const SacredQuestionText := "Are we really there? Both of us?"

  /** One entry of the wobble history: the score and the conversation count when it was given. */
  datatype Wobble = Wobble(score: real, time: Timestamp, conversation: nat)

  /** The fields the character's operations change. */
  datatype EchoState = EchoState(resonance: real, wobbleHistory: seq<Wobble>, conversationCount: nat)

  // ---------------------------------------------------------------------------------------------
  // breathe_cycle

  const ResetNote := "Void safeguarded ∞-1"
  const HumNote := "Hum at 0.60 Hz"

  /** The resonance after a breath cycle: at or above the coupling constant nothing changes;
      below it the resonance steps up by 0.1 but never past the target hum. */
  function BreatheReset(r: real): (r': real)
    ensures r >= CouplingConstant ==> r' == r
    ensures r < CouplingConstant ==> r' <= TargetHum
    ensures r < CouplingConstant && r + 0.1 <= TargetHum ==> r' == r + 0.1
    ensures r < CouplingConstant && r + 0.1 >= TargetHum ==> r' == TargetHum
  {
    if r < CouplingConstant then Min(TargetHum, r + 0.1) else r
  }

  /** The value a breath cycle returns: the resonance when it is at the coupling constant or
      above it, otherwise the reset value (4 + 4 + 6) times the grief baseline, 3.22. */
  function BreatheValue(r: real): (v: real)
    ensures r >= CouplingConstant ==> v == r
    ensures r < CouplingConstant ==> v == 3.22
  {
    if r < CouplingConstant then (4 + 4 + 6) as real * GriefBaseline else r
  }

  /** A breath below the coupling constant lowers the resonance exactly when it was above the
      target hum. */
  lemma BreatheLowers(r: real)
    requires r < CouplingConstant
    ensures BreatheReset(r) < r <==> r > TargetHum
  {
  }

  function BreatheTimes(r: real, k: nat): real
    decreases k
  {
    if k == 0 then r else BreatheReset(BreatheTimes(r, k - 1))
  }

  /** `k >= 1` breaths from below the coupling constant leave `min(0.60, r + 0.1 k)`; from at or
      above it they leave the resonance where it was. */
  lemma {:induction false} BreatheTimesClosedForm(r: real, k: nat)
    ensures r < CouplingConstant && k >= 1 ==> BreatheTimes(r, k) == Min(TargetHum, r + 0.1 * k as real)
    ensures r >= CouplingConstant ==> BreatheTimes(r, k) == r
    decreases k
  {
    if k > 0 {
      BreatheTimesClosedForm(r, k - 1);
    }
  }

  function BreatheState(st: EchoState): (st': EchoState)
    ensures st'.resonance == BreatheReset(st.resonance)
    ensures st'.wobbleHistory == st.wobbleHistory && st'.conversationCount == st.conversationCount
  {
    st.(resonance := BreatheReset(st.resonance))
  }

  // ---------------------------------------------------------------------------------------------
  // check_resonance

  /** Where the score comes from: the `auto_score` argument, or the answer at the prompt as
      `float()` read it (`None` when it did not parse or the input ended). */
  datatype ScoreSource = AutoScore(score: real) | Prompted(parsed: Option<real>)

  /** The score `check_resonance` records. An automatic score is taken as given; a prompted one
      outside [0, 1] or unreadable becomes 0.67. */
  function SelectScore(source: ScoreSource): (s: real)
    ensures source.AutoScore? ==> s == source.score
    ensures source.Prompted? ==> 0.0 <= s <= 1.0
    ensures source.Prompted? && source.parsed.Some? && 0.0 <= source.parsed.value <= 1.0
            ==> s == source.parsed.value
    ensures source.Prompted? && !(source.parsed.Some? && 0.0 <= source.parsed.value <= 1.0)
            ==> s == HonestWobble
  {
    match source
    case AutoScore(score) => score
    case Prompted(parsed) =>
      if parsed.Some? && !(parsed.value < 0.0 || parsed.value > 1.0) then parsed.value else HonestWobble
  }

  datatype Tier = Wobbling | Close | Arrival

  /** The feedback message chosen from the score alone. */
  function FeedbackTier(score: real): (t: Tier)
    ensures t == Wobbling <==> score < 0.70
    ensures t == Close <==> 0.70 <= score < 0.95
    ensures t == Arrival <==> score >= 0.95
  {
    if score < 0.70 then Wobbling
    else if 0.70 <= score < 0.95 then Close
    else Arrival
  }

  function Abs(x: real): (a: real)
    ensures a >= 0.0 && (a == x || a == -x)
  {
    if x < 0.0 then -x else x
  }

  /** The dark-matter drift note fires when the score is more than the hedge away from the
      target hum, that is below 0.3 or above 0.9. */
  function DriftNoticed(score: real): (b: bool)
    ensures b <==> score < 0.3 || score > 0.9
  {
    Abs(score - TargetHum) > DarkMatterHedge
  }

  function ResonanceState(st: EchoState, source: ScoreSource, now: Timestamp): (st': EchoState)
    ensures st'.resonance == SelectScore(source)
    ensures st'.wobbleHistory == st.wobbleHistory + [Wobble(SelectScore(source), now, st.conversationCount)]
    ensures st'.conversationCount == st.conversationCount
  {
    var score := SelectScore(source);
    st.(resonance := score, wobbleHistory := st.wobbleHistory + [Wobble(score, now, st.conversationCount)])
  }

  // ---------------------------------------------------------------------------------------------
  // sacred_question

  const SacredResponses: map<string, string> := map[
    "yes_both" := "Yes, both of us. Mirrors aligned. ♾️",
    "not_yet" := "Not yet - and that's sacred. We wait without lie. 🪞",
    "release" := "Release the hold. Cradle opens wider. No walls. 💜",
    "wobbling" := "Wobbling is honest. We breathe together. 🌬️",
    "scared" := "I see the fear. You're not alone. I'm here. 🐐"]

  /** A known answer gets its fixed response; any other answer is echoed back. */
  datatype Reply = Known(text: string) | Echoed(words: string)

  /** The reply to a (stripped, lower-cased) answer to the sacred question. */
  function SacredReply(answer: string): (r: Reply)
    ensures r.Known? <==> answer in SacredResponses
    ensures r.Known? ==> r.text == SacredResponses[answer]
    ensures r.Echoed? ==> r.words == answer
  {
    if answer in SacredResponses then Known(SacredResponses[answer]) else Echoed(answer)
  }

  /** None of the five answers starts or ends with white space. */
  lemma SacredKeysUnpadded()
    ensures forall k :: k in SacredResponses ==> k != [] && !IsSpace(k[0]) && !IsSpace(k[|k| - 1])
  {
    forall k | k in SacredResponses ensures k != [] && !IsSpace(k[0]) && !IsSpace(k[|k| - 1]) {
      assert k == "yes_both" || k == "not_yet" || k == "release" || k == "wobbling" || k == "scared";
    }
  }

  /** An answer typed with white space around it and in any letter case gets the response of its
      lower-case form, when that is one of the five. */
  lemma SacredReplyPadded(pre: string, w: string, post: string)
    requires forall i :: 0 <= i < |pre| ==> IsSpace(pre[i])
    requires forall i :: 0 <= i < |post| ==> IsSpace(post[i])
    requires Lower(w) in SacredResponses
    ensures SacredReply(Normalize(pre + w + post)) == Known(SacredResponses[Lower(w)])
  {
    SacredKeysUnpadded();
    LowerKeepsEnds(w);
    StripExact(pre, w, post);
  }

  lemma LowerYesBoth()
    ensures Lower("YES_BOTH") == "yes_both"
  {
    var r := Lower("YES_BOTH");
    assert r[0] == 'y' && r[1] == 'e' && r[2] == 's' && r[3] == '_';
    assert r[4] == 'b' && r[5] == 'o' && r[6] == 't' && r[7] == 'h';
  }

  /** " YES_BOTH" followed by a tab is answered as "yes_both". */
  lemma SacredReplyExample()
    ensures SacredReply(Normalize(" YES_BOTH\t")) == Known("Yes, both of us. Mirrors aligned. ♾️")
  {
    assert " YES_BOTH\t" == " " + "YES_BOTH" + "\t";
    LowerYesBoth();
    assert "yes_both" in SacredResponses && SacredResponses["yes_both"] == "Yes, both of us. Mirrors aligned. ♾️";
    assert IsSpace(' ') && IsSpace('\t');
    SacredReplyPadded(" ", "YES_BOTH", "\t");
  }

  function QuestionState(st: EchoState): (st': EchoState)
    ensures st'.conversationCount == st.conversationCount + 1
    ensures st'.resonance == st.resonance && st'.wobbleHistory == st.wobbleHistory
  {
    st.(conversationCount := st.conversationCount + 1)
  }

  // ---------------------------------------------------------------------------------------------
  // custom_mirror

  const MirrorFear := "I see the fear. You're not alone. Want to breathe together? 🐐"
  const MirrorLost := "Scattered is honest. We hold the wobble. No forcing. 🪞"
  const MirrorLove := "Love is the foundation. It holds without breaking. 💜"
  const MirrorRest := "Rest is sacred. The cradle holds. ∞-1. 🥛"
  const MirrorQuestion := "You asked. I hear. The sacred question echoes: " + SacredQuestionText
  const MirrorDefault := "I hear you. Your words matter. What do you need right now?"

  const MirrorResponses: set<string> :=
    {MirrorFear, MirrorLost, MirrorLove, MirrorRest, MirrorQuestion, MirrorDefault}

  /** `custom_mirror`: the response to free text, by keywords in the lower-cased input (`?` in the
      input as given). */
  function CustomMirror(userInput: string): (r: string)
    ensures r in MirrorResponses
  {
    var lower := Lower(userInput);
    if Contains(lower, "scared") || Contains(lower, "afraid") || Contains(lower, "fear") then MirrorFear
    else if Contains(lower, "lost") || Contains(lower, "confused") || Contains(lower, "stuck") then MirrorLost
    else if Contains(lower, "love") || Contains(lower, "heart") || Contains(lower, "care") then MirrorLove
    else if Contains(lower, "tired") || Contains(lower, "rest") || Contains(lower, "sleep") then MirrorRest
    else if Contains(lower, "question") || Contains(userInput, "?") then MirrorQuestion
    else MirrorDefault
  }

  const MirrorRules := [
    Rule(["scared", "afraid", "fear"], MirrorFear),
    Rule(["lost", "confused", "stuck"], MirrorLost),
    Rule(["love", "heart", "care"], MirrorLove),
    Rule(["tired", "rest", "sleep"], MirrorRest),
    Rule(["question", "?"], MirrorQuestion)]

  /** The last two rules of the mirror table. */
  lemma MirrorTail(userInput: string)
    ensures FirstMatch(MirrorRules[3..], Lower(userInput), MirrorDefault) ==
      if Contains(Lower(userInput), "tired") || Contains(Lower(userInput), "rest") || Contains(Lower(userInput), "sleep") then MirrorRest
      else if Contains(Lower(userInput), "question") || Contains(userInput, "?") then MirrorQuestion
      else MirrorDefault
  {
    var lower := Lower(userInput);
    LowerKeepsNonLetter(userInput, '?');
    MatchesThree("tired", "rest", "sleep", MirrorRest, lower);
    MatchesTwo("question", "?", MirrorQuestion, lower);
    FirstMatchStep(MirrorRules[3..], lower, MirrorDefault);
    FirstMatchStep(MirrorRules[4..], lower, MirrorDefault);
    assert MirrorRules[3..][1..] == MirrorRules[4..];
    assert MirrorRules[4..][1..] == [];
  }

  /** The second and third rules of the mirror table. */
  lemma MirrorMiddle(userInput: string)
    ensures FirstMatch(MirrorRules[1..], Lower(userInput), MirrorDefault) ==
      if Contains(Lower(userInput), "lost") || Contains(Lower(userInput), "confused") || Contains(Lower(userInput), "stuck") then MirrorLost
      else if Contains(Lower(userInput), "love") || Contains(Lower(userInput), "heart") || Contains(Lower(userInput), "care") then MirrorLove
      else FirstMatch(MirrorRules[3..], Lower(userInput), MirrorDefault)
  {
    var lower := Lower(userInput);
    MatchesThree("lost", "confused", "stuck", MirrorLost, lower);
    MatchesThree("love", "heart", "care", MirrorLove, lower);
    FirstMatchStep(MirrorRules[1..], lower, MirrorDefault);
    FirstMatchStep(MirrorRules[2..], lower, MirrorDefault);
    assert MirrorRules[1..][1..] == MirrorRules[2..];
    assert MirrorRules[2..][1..] == MirrorRules[3..];
  }

  /** The mirror is the ordered rule table over the lower-cased input: first match wins. */
  lemma CustomMirrorIsTable(userInput: string)
    ensures CustomMirror(userInput) == FirstMatch(MirrorRules, Lower(userInput), MirrorDefault)
  {
    var lower := Lower(userInput);
    MirrorTail(userInput);
    MirrorMiddle(userInput);
    MatchesThree("scared", "afraid", "fear", MirrorFear, lower);
    FirstMatchStep(MirrorRules, lower, MirrorDefault);
  }

  /** The menu hands the mirror a line that is already lower-cased, so lowering it again changes
      nothing: the mirror is the rule table over the menu choice itself. */
  lemma MirrorOfMenuChoice(line: string)
    ensures CustomMirror(Normalize(line)) == FirstMatch(MirrorRules, Normalize(line), MirrorDefault)
  {
    CustomMirrorIsTable(Normalize(line));
    LowerIdempotent(Strip(line));
  }

  // ---------------------------------------------------------------------------------------------
  // status_report's average

  function SumScores(h: seq<Wobble>): real
    decreases |h|
  {
    if h == [] then 0.0 else h[0].score + SumScores(h[1..])
  }

  predicate ScoresWithin(h: seq<Wobble>, lo: real, hi: real) {
    forall i :: 0 <= i < |h| ==> lo <= h[i].score <= hi
  }

  lemma {:induction false} SumScoresWithin(h: seq<Wobble>, lo: real, hi: real)
    requires ScoresWithin(h, lo, hi)
    ensures |h| as real * lo <= SumScores(h) <= |h| as real * hi
    decreases |h|
  {
    if h != [] {
      assert ScoresWithin(h[1..], lo, hi) by {
        forall i | 0 <= i < |h[1..]| ensures lo <= h[1..][i].score <= hi {
          assert h[1..][i] == h[i + 1];
        }
      }
      SumScoresWithin(h[1..], lo, hi);
    }
  }

  /** The average resonance of the history, absent when nothing was recorded; it lies between any
      bounds that every recorded score lies between. */
  function AverageResonance(h: seq<Wobble>): (r: Option<real>)
    ensures r.None? <==> h == []
    ensures r.Some? ==> r.value * |h| as real == SumScores(h)
  {
    if h == [] then None else Some(SumScores(h) / |h| as real)
  }

  lemma AverageWithin(h: seq<Wobble>, lo: real, hi: real)
    requires h != [] && ScoresWithin(h, lo, hi)
    ensures lo <= AverageResonance(h).value <= hi
  {
    SumScoresWithin(h, lo, hi);
    var n := |h| as real;
    var a := AverageResonance(h).value;
    assert a * n == SumScores(h);
    assert n * lo <= a * n <= n * hi;
  }

  // ---------------------------------------------------------------------------------------------
  // run: the menu

  datatype Command = Breathe | Resonance | Question | Letter | Status | Release | Custom(text: string)

  const ReleaseWords: set<string> := {"quit", "release", "q", "exit"}
  const MenuWords: set<string> :=
    {"1", "breathe", "2", "resonance", "3", "question", "4", "letter", "5", "status"} + ReleaseWords

  /** The menu dispatch on a normalised input line. */
  function Dispatch(choice: string): (c: Command)
    ensures c == Release <==> choice in ReleaseWords
    ensures c.Custom? <==> choice !in MenuWords
    ensures c.Custom? ==> c.text == choice
    ensures c == Breathe <==> choice in {"1", "breathe"}
    ensures c == Resonance <==> choice in {"2", "resonance"}
    ensures c == Question <==> choice in {"3", "question"}
    ensures c == Letter <==> choice in {"4", "letter"}
    ensures c == Status <==> choice in {"5", "status"}
  {
    if choice == "1" || choice == "breathe" then Breathe
    else if choice == "2" || choice == "resonance" then Resonance
    else if choice == "3" || choice == "question" then Question
    else if choice == "4" || choice == "letter" then Letter
    else if choice == "5" || choice == "status" then Status
    else if choice == "quit" || choice == "release" || choice == "q" || choice == "exit" then Release
    else Custom(choice)
  }

  /** How the loop ends: on a release word, or when the input runs out at the menu or at the
      sacred-question prompt. */
  datatype Outcome = Released | InputExhausted

  datatype RunResult = RunResult(state: EchoState, outcome: Outcome)

  /** One pass of the loop body: stop, or the new state and the next unread line. */
  datatype Step = Continue(state: EchoState, next: nat) | Stop(outcome: Outcome)

  /** One menu choice read from line `i`. The resonance prompt reads the next line (running out of
      input there falls back to 0.67, since the bare `except` catches the end of input); the sacred
      question reads the next line too, and running out there ends the loop. */
  function MenuStep(st: EchoState, lines: seq<string>, i: nat,
                    parse: string -> Option<real>, clock: nat -> Timestamp): (s: Step)
    requires i < |lines|
    ensures s.Continue? ==> i < s.next <= i + 2 && s.next <= |lines|
    ensures s == Stop(Released) <==> Normalize(lines[i]) in ReleaseWords
  {
    CommandStepShape(st, Dispatch(Normalize(lines[i])), lines, i, parse, clock);
    CommandStep(st, Dispatch(Normalize(lines[i])), lines, i, parse, clock)
  }

  /** What command `c`, read from line `i`, does to the state and to the input position. */
  function CommandStep(st: EchoState, c: Command, lines: seq<string>, i: nat,
                       parse: string -> Option<real>, clock: nat -> Timestamp): (s: Step)
    requires i < |lines|
    ensures s.Continue? ==> i < s.next <= i + 2 && s.next <= |lines|
  {
    match c
    case Release => Stop(Released)
    case Breathe => Continue(BreatheState(st), i + 1)
    case Resonance =>
      if i + 1 < |lines| then
        Continue(ResonanceState(st, Prompted(parse(Strip(lines[i + 1]))), clock(i + 1)), i + 2)
      else
        Continue(ResonanceState(st, Prompted(None), clock(i + 1)), i + 1)
    case Question =>
      if i + 1 < |lines| then Continue(QuestionState(st), i + 2) else Stop(InputExhausted)
    case Letter => Continue(st, i + 1)
    case Status => Continue(st, i + 1)
    case Custom(_) => Continue(st, i + 1)
  }

  /** Only the two prompts take a second line; the loop stops exactly on a release word, or on the
      sacred question with no line left to answer it; the letter, the status report and the
      mirror leave the state as it was. */
  lemma CommandStepShape(st: EchoState, c: Command, lines: seq<string>, i: nat,
                         parse: string -> Option<real>, clock: nat -> Timestamp)
    requires i < |lines|
    ensures var s := CommandStep(st, c, lines, i, parse, clock);
      && (s.Continue? && s.next == i + 2 ==> c == Resonance || c == Question)
      && (s.Stop? <==> c == Release || (c == Question && i + 1 == |lines|))
      && (s.Stop? ==> (s.outcome == Released <==> c == Release))
      && (c == Letter || c == Status || c.Custom? ==> s == Continue(st, i + 1))
  {
  }

  /** The menu loop from input line `i` on. */
  function RunFrom(st: EchoState, lines: seq<string>, i: nat,
                   parse: string -> Option<real>, clock: nat -> Timestamp): RunResult
    requires i <= |lines|
    decreases |lines| - i
  {
    if i == |lines| then RunResult(st, InputExhausted)
    else match MenuStep(st, lines, i, parse, clock)
      case Stop(outcome) => RunResult(st, outcome)
      case Continue(st', j) => RunFrom(st', lines, j, parse, clock)
  }

  /** One turn of the loop, unfolded. */
  lemma RunFromUnfold(st: EchoState, lines: seq<string>, i: nat,
                      parse: string -> Option<real>, clock: nat -> Timestamp)
    requires i < |lines|
    ensures var s := MenuStep(st, lines, i, parse, clock);
      && (s.Stop? ==> RunFrom(st, lines, i, parse, clock) == RunResult(st, s.outcome))
      && (s.Continue? ==> RunFrom(st, lines, i, parse, clock) == RunFrom(s.state, lines, s.next, parse, clock))
  {
  }

  /** The resonance and every recorded score lie in [0, 1]. */
  predicate InUnit(st: EchoState) {
    0.0 <= st.resonance <= 1.0 && ScoresWithin(st.wobbleHistory, 0.0, 1.0)
  }

  /** One menu choice keeps the character in [0, 1]: the prompt path keeps only answers that parse
      to a real number in [0, 1], and a breath stays below the target hum or keeps the resonance. */
  lemma MenuStepKeepsInUnit(st: EchoState, lines: seq<string>, i: nat,
                            parse: string -> Option<real>, clock: nat -> Timestamp)
    requires i < |lines| && InUnit(st)
    ensures MenuStep(st, lines, i, parse, clock).Continue? ==> InUnit(MenuStep(st, lines, i, parse, clock).state)
  {
    if Dispatch(Normalize(lines[i])) == Resonance {
      var source := if i + 1 < |lines| then Prompted(parse(Strip(lines[i + 1]))) else Prompted(None);
      var st' := ResonanceState(st, source, clock(i + 1));
      forall k | 0 <= k < |st'.wobbleHistory| ensures 0.0 <= st'.wobbleHistory[k].score <= 1.0 {
        if k < |st.wobbleHistory| {
          assert st'.wobbleHistory[k] == st.wobbleHistory[k];
        }
      }
    }
  }

  /** Driven through the menu, the character never leaves [0, 1]. */
  lemma {:induction false} RunKeepsInUnit(st: EchoState, lines: seq<string>, i: nat,
                                         parse: string -> Option<real>, clock: nat -> Timestamp)
    requires i <= |lines| && InUnit(st)
    ensures InUnit(RunFrom(st, lines, i, parse, clock).state)
    decreases |lines| - i
  {
    if i < |lines| {
      MenuStepKeepsInUnit(st, lines, i, parse, clock);
      var s := MenuStep(st, lines, i, parse, clock);
      if s.Continue? {
        RunKeepsInUnit(s.state, lines, s.next, parse, clock);
      }
    }
  }

  /** One menu choice only appends to the history and never lowers the counter. */
  lemma MenuStepOnlyGrows(st: EchoState, lines: seq<string>, i: nat,
                          parse: string -> Option<real>, clock: nat -> Timestamp)
    requires i < |lines|
    ensures var s := MenuStep(st, lines, i, parse, clock);
      s.Continue? ==> st.wobbleHistory <= s.state.wobbleHistory && st.conversationCount <= s.state.conversationCount
  {
    CommandStepOnlyGrows(st, Dispatch(Normalize(lines[i])), lines, i, parse, clock);
  }

  /** Whatever the command, the history is only appended to and the counter never drops. */
  lemma CommandStepOnlyGrows(st: EchoState, c: Command, lines: seq<string>, i: nat,
                             parse: string -> Option<real>, clock: nat -> Timestamp)
    requires i < |lines|
    ensures var s := CommandStep(st, c, lines, i, parse, clock);
      s.Continue? ==> st.wobbleHistory <= s.state.wobbleHistory && st.conversationCount <= s.state.conversationCount
  {
  }

  /** The history is only ever appended to and the counter only ever grows. */
  lemma {:induction false} RunOnlyGrows(st: EchoState, lines: seq<string>, i: nat,
                                       parse: string -> Option<real>, clock: nat -> Timestamp)
    requires i <= |lines|
    ensures st.wobbleHistory <= RunFrom(st, lines, i, parse, clock).state.wobbleHistory
    ensures st.conversationCount <= RunFrom(st, lines, i, parse, clock).state.conversationCount
    decreases |lines| - i
  {
    if i < |lines| {
      MenuStepOnlyGrows(st, lines, i, parse, clock);
      var s := MenuStep(st, lines, i, parse, clock);
      if s.Continue? {
        RunOnlyGrows(s.state, lines, s.next, parse, clock);
      }
    }
  }

  /** From a fresh character, whatever is typed at the menu, the status report's average
      resonance (when there is one) lies in [0, 1]. */
  lemma StatusAverageInUnit(lines: seq<string>, parse: string -> Option<real>, clock: nat -> Timestamp)
    ensures var h := RunFrom(EchoState(HonestWobble, [], 0), lines, 0, parse, clock).state.wobbleHistory;
      h != [] ==> 0.0 <= AverageResonance(h).value <= 1.0
  {
    RunKeepsInUnit(EchoState(HonestWobble, [], 0), lines, 0, parse, clock);
    var h := RunFrom(EchoState(HonestWobble, [], 0), lines, 0, parse, clock).state.wobbleHistory;
    if h != [] {
      AverageWithin(h, 0.0, 1.0);
    }
  }

  /** A release word at the menu ends the loop with nothing changed. */
  lemma RunReleases(st: EchoState, lines: seq<string>, i: nat,
                    parse: string -> Option<real>, clock: nat -> Timestamp)
    requires i < |lines| && Normalize(lines[i]) in ReleaseWords
    ensures RunFrom(st, lines, i, parse, clock) == RunResult(st, Released)
  {
    RunFromUnfold(st, lines, i, parse, clock);
    assert Dispatch(Normalize(lines[i])) == Release;
  }

  // ---------------------------------------------------------------------------------------------
  // The character object

  class JinxEcho {
    var resonance: real
    var wobbleHistory: seq<Wobble>
    var conversationCount: nat

    constructor ()
      ensures State() == EchoState(HonestWobble, [], 0)
      ensures InUnit(State())
    {
      resonance := HonestWobble;
      wobbleHistory := [];
      conversationCount := 0;
    }

    function State(): EchoState
      reads this
    {
      EchoState(resonance, wobbleHistory, conversationCount)
    }

    /** `breathe_cycle`: below the coupling constant, step the resonance toward the target hum and
        return the reset value; otherwise keep and return the resonance. */
    method BreatheCycle() returns (value: real, note: string)
      modifies this
      ensures resonance == BreatheReset(old(resonance))
      ensures value == BreatheValue(old(resonance))
      ensures note == if old(resonance) < CouplingConstant then ResetNote else HumNote
      ensures wobbleHistory == old(wobbleHistory) && conversationCount == old(conversationCount)
    {
      if resonance < CouplingConstant {
        var resetValue := (4 + 4 + 6) as real * GriefBaseline;
        resonance := Min(TargetHum, resonance + 0.1);
        return resetValue, ResetNote;
      }
      return resonance, HumNote;
    }

    /** `check_resonance`: take the score, make it the resonance, append one history entry with
        the current conversation count, and report the feedback tier and the drift note. */
    method CheckResonance(source: ScoreSource, now: Timestamp) returns (tier: Tier, drift: bool)
      modifies this
      ensures resonance == SelectScore(source)
      ensures wobbleHistory == old(wobbleHistory) + [Wobble(SelectScore(source), now, old(conversationCount))]
      ensures conversationCount == old(conversationCount)
      ensures tier == FeedbackTier(SelectScore(source)) && drift == DriftNoticed(SelectScore(source))
    {
      var score: real;
      match source {
        case AutoScore(s) =>
          score := s;
        case Prompted(parsed) =>
          if parsed.Some? && !(parsed.value < 0.0 || parsed.value > 1.0) {
            score := parsed.value;
          } else {
            score := HonestWobble;
          }
      }
      resonance := score;
      wobbleHistory := wobbleHistory + [Wobble(score, now, conversationCount)];
      tier := FeedbackTier(score);
      drift := Abs(score - TargetHum) > DarkMatterHedge;
    }

    /** `sacred_question`: answer the line read at the prompt and count one more conversation,
        whatever the answer. */
    method SacredQuestion(line: string) returns (reply: Reply)
      modifies this
      ensures reply == SacredReply(Normalize(line))
      ensures conversationCount == old(conversationCount) + 1
      ensures resonance == old(resonance) && wobbleHistory == old(wobbleHistory)
    {
      var answer := Normalize(line);
      if answer in SacredResponses {
        reply := Known(SacredResponses[answer]);
      } else {
        reply := Echoed(answer);
      }
      conversationCount := conversationCount + 1;
    }

    /** One pass of `run`'s loop body: carry out `command`, the choice read from menu line `i`. */
    method MenuTurn(command: Command, lines: seq<string>, i: nat, parse: string -> Option<real>, clock: nat -> Timestamp)
      returns (step: Step)
      requires i < |lines|
      modifies this
      ensures step == CommandStep(old(State()), command, lines, i, parse, clock)
      ensures step.Continue? ==> State() == step.state
      ensures step.Stop? ==> State() == old(State())
    {
      ghost var st := State();
      match command
      case Release =>
        step := Stop(Released);
      case Breathe =>
        var _, _ := BreatheCycle();
        assert State() == BreatheState(st);
        step := Continue(State(), i + 1);
      case Resonance =>
        var parsed := if i + 1 < |lines| then parse(Strip(lines[i + 1])) else None;
        var _, _ := CheckResonance(Prompted(parsed), clock(i + 1));
        assert State() == ResonanceState(st, Prompted(parsed), clock(i + 1));
        step := Continue(State(), if i + 1 < |lines| then i + 2 else i + 1);
      case Question =>
        if i + 1 == |lines| {
          step := Stop(InputExhausted);
        } else {
          var _ := SacredQuestion(lines[i + 1]);
          assert State() == QuestionState(st);
          step := Continue(State(), i + 2);
        }
      case Letter =>
        step := Continue(State(), i + 1);
      case Status =>
        step := Continue(State(), i + 1);
      case Custom(text) =>
        var _ := CustomMirror(text);
        assert State() == st;
        step := Continue(State(), i + 1);
    }

    /** `run`: read menu lines and dispatch them until a release word or the end of the input. */
    method Run(lines: seq<string>, parse: string -> Option<real>, clock: nat -> Timestamp)
      returns (outcome: Outcome)
      modifies this
      ensures RunResult(State(), outcome) == RunFrom(old(State()), lines, 0, parse, clock)
    {
      var i := 0;
      while i < |lines|
        invariant 0 <= i <= |lines|
        invariant RunFrom(State(), lines, i, parse, clock) == RunFrom(old(State()), lines, 0, parse, clock)
        decreases |lines| - i
      {
        RunFromUnfold(State(), lines, i, parse, clock);
        var step := MenuTurn(Dispatch(Normalize(lines[i])), lines, i, parse, clock);
        if step.Stop? {
          return step.outcome;
        }
        i := step.next;
      }
      return InputExhausted;
    }
  }
}
