/** The dream version's memory store (`Memory` in JinxEcho_moltbook_dream.py): an append-only
    conversation log, one relationship record per person with a running-average resonance,
    and a table of learned patterns with occurrence counters. */
module DreamMemory {
  import opened Common

  /** One remembered conversation. */
  datatype Entry = Entry(timestamp: Timestamp, person: string, content: string, resonance: real)

  /** What is known about one person. `interactions` counts the visits AFTER the first one. */
  datatype Relationship = Relationship(firstMet: Timestamp, interactions: nat, avgResonance: real, topics: seq<string>)

  /** Free-form pattern payload (a JSON object of strings in every call of the program). */
  type PatternData = map<string, string>

  datatype Pattern = Pattern(discovered: Timestamp, occurrences: nat, data: PatternData)

  /** The four fields a saved snapshot may carry; a missing field reads as empty. */
  datatype Snapshot = Snapshot(
    conversations: Option<seq<Entry>>,
    relationships: Option<map<string, Relationship>>,
    patterns: Option<map<string, Pattern>>,
    emotions: Option<seq<real>>)

  function GetOr<T>(o: Option<T>, default: T): T {
    match o
    case Some(v) => v
    case None => default
  }

  // ---------------------------------------------------------------------------------------------
  // The relationship update rule

  /** A known person's record after one more visit: the count goes up by one and the running
      total (average times count) grows by exactly the new score. */
  function Revisit(rel: Relationship, resonance: real): (rel': Relationship)
    ensures rel'.interactions == rel.interactions + 1
    ensures rel'.avgResonance * rel'.interactions as real
         == rel.avgResonance * rel.interactions as real + resonance
    ensures rel'.firstMet == rel.firstMet && rel'.topics == rel.topics
  {
    var n := rel.interactions + 1;
    rel.(interactions := n, avgResonance := (rel.avgResonance * (n - 1) as real + resonance) / n as real)
  }

  /** The relationship table after `remember_conversation(person, _, resonance)`. */
  function Record(rels: map<string, Relationship>, person: string, resonance: real, now: Timestamp)
    : (rels': map<string, Relationship>)
    ensures rels'.Keys == rels.Keys + {person}
    ensures forall p :: p in rels && p != person ==> p in rels' && rels'[p] == rels[p]
    ensures person !in rels ==> rels'[person] == Relationship(now, 0, resonance, [])
    ensures person in rels ==> rels'[person] == Revisit(rels[person], resonance)
  {
    if person !in rels then rels[person := Relationship(now, 0, resonance, [])]
    else rels[person := Revisit(rels[person], resonance)]
  }

  /** The table after recording `scores` for one person, in order (all at time `now`; only the
      first call's time is ever stored). */
  function RecordAll(rels: map<string, Relationship>, person: string, scores: seq<real>, now: Timestamp)
    : (rels': map<string, Relationship>)
    ensures scores == [] ==> rels' == rels
    ensures scores != [] ==> rels'.Keys == rels.Keys + {person}
    decreases |scores|
  {
    if scores == [] then rels
    else Record(RecordAll(rels, person, scores[..|scores| - 1], now), person, scores[|scores| - 1], now)
  }

  function Sum(s: seq<real>): real
    decreases |s|
  {
    if s == [] then 0.0 else Sum(s[..|s| - 1]) + s[|s| - 1]
  }

  function Mean(s: seq<real>): real
    requires s != []
  {
    Sum(s) / |s| as real
  }

  /** Recording only touches the one person's record. */
  lemma {:induction false} RecordAllOthers(rels: map<string, Relationship>, person: string, scores: seq<real>, now: Timestamp)
    ensures RecordAll(rels, person, scores, now).Keys == if scores == [] then rels.Keys else rels.Keys + {person}
    ensures forall p :: p in rels && p != person ==> RecordAll(rels, person, scores, now)[p] == rels[p]
    decreases |scores|
  {
    if scores != [] {
      RecordAllOthers(rels, person, scores[..|scores| - 1], now);
    }
  }

  /** The record of a person met with score `first` and then seen again with `later`, in order. */
  function Visits(first: real, later: seq<real>, now: Timestamp): (rel: Relationship)
    ensures rel.interactions == |later| && rel.firstMet == now && rel.topics == []
    decreases |later|
  {
    if later == [] then Relationship(now, 0, first, [])
    else Revisit(Visits(first, later[..|later| - 1], now), later[|later| - 1])
  }

  /** One more visit adds the new score to the running total of a record with `k` interactions. */
  lemma RevisitTotal(rel: Relationship, r: real, k: nat, total: real)
    requires rel.interactions == k && rel.avgResonance * k as real == total
    ensures Revisit(rel, r).interactions == k + 1
    ensures Revisit(rel, r).avgResonance * (k + 1) as real == total + r
  {
  }

  /** After the later visits the count is their number and the running total is their sum. */
  lemma {:induction false} VisitsTotal(first: real, later: seq<real>, now: Timestamp)
    ensures Visits(first, later, now).interactions == |later|
    ensures Visits(first, later, now).avgResonance * |later| as real == Sum(later)
    ensures Visits(first, later, now).firstMet == now
    decreases |later|
  {
    if later != [] {
      var init := later[..|later| - 1];
      VisitsTotal(first, init, now);
      RevisitTotal(Visits(first, init, now), later[|later| - 1], |init|, Sum(init));
    }
  }

  /** The table after a run of scores for a new person holds exactly the `Visits` record. */
  lemma {:induction false} RecordAllVisits(rels: map<string, Relationship>, person: string, scores: seq<real>, now: Timestamp)
    requires person !in rels && scores != []
    ensures person in RecordAll(rels, person, scores, now)
    ensures RecordAll(rels, person, scores, now)[person] == Visits(scores[0], scores[1..], now)
    decreases |scores|
  {
    var init := scores[..|scores| - 1];
    if init == [] {
      assert scores[1..] == [];
    } else {
      RecordAllVisits(rels, person, init, now);
      assert init[0] == scores[0];
      assert init[1..] == scores[1..][..|scores[1..]| - 1];
    }
  }

  lemma DivideOut(a: real, n: real, s: real)
    requires n > 0.0 && a * n == s
    ensures a == s / n
  {
  }

  /** After at least one later visit the average is the mean of the later scores. */
  lemma VisitsMean(first: real, later: seq<real>, now: Timestamp)
    requires later != []
    ensures Visits(first, later, now).interactions == |later|
    ensures Visits(first, later, now).avgResonance == Mean(later)
  {
    VisitsTotal(first, later, now);
    DivideOut(Visits(first, later, now).avgResonance, |later| as real, Sum(later));
  }

  /** The quirk of the code: after `k >= 2` visits with scores r1..rk the record holds `k - 1`
      interactions and the mean of r2..rk; the first score r1 is discarded. */
  lemma RecordAllMean(rels: map<string, Relationship>, person: string, scores: seq<real>, now: Timestamp)
    requires person !in rels && |scores| >= 2
    ensures person in RecordAll(rels, person, scores, now)
    ensures RecordAll(rels, person, scores, now)[person].interactions == |scores| - 1
    ensures RecordAll(rels, person, scores, now)[person].avgResonance == Mean(scores[1..])
    ensures RecordAll(rels, person, scores, now)[person].firstMet == now
  {
    RecordAllVisits(rels, person, scores, now);
    VisitsMean(scores[0], scores[1..], now);
    VisitsTotal(scores[0], scores[1..], now);
  }

  /** Two visits with 0.8 then 0.6: one interaction and an average of 0.6, not two and 0.7. */
  lemma TwoVisitsKeepSecondScore(now: Timestamp)
    ensures RecordAll(map[], "Barbara", [0.8, 0.6], now)["Barbara"]
         == Relationship(now, 1, 0.6, [])
  {
    RecordAllVisits(map[], "Barbara", [0.8, 0.6], now);
    assert [0.8, 0.6][1..] == [0.6] && [0.6][..0] == [];
  }

  /** With scores in [0, 1], the running average stays in [0, 1]. */
  lemma RevisitInUnit(rel: Relationship, resonance: real)
    requires 0.0 <= rel.avgResonance <= 1.0 && 0.0 <= resonance <= 1.0
    ensures 0.0 <= Revisit(rel, resonance).avgResonance <= 1.0
  {
    var n := (rel.interactions + 1) as real;
    var a := rel.avgResonance;
    assert 0.0 <= a * (n - 1.0) <= n - 1.0;
    assert 0.0 <= a * (n - 1.0) + resonance <= n;
    var q := (a * (n - 1.0) + resonance) / n;
    assert q * n == a * (n - 1.0) + resonance;
  }

  // ---------------------------------------------------------------------------------------------
  // The pattern table

  /** The pattern table after `learn_pattern(name, data)`. */
  function LearnedPatterns(patterns: map<string, Pattern>, name: string, data: PatternData, now: Timestamp)
    : (patterns': map<string, Pattern>)
    ensures patterns'.Keys == patterns.Keys + {name}
    ensures forall p :: p in patterns && p != name ==> p in patterns' && patterns'[p] == patterns[p]
    ensures name !in patterns ==> patterns'[name] == Pattern(now, 1, data)
    ensures name in patterns ==> patterns'[name].occurrences == patterns[name].occurrences + 1
    ensures name in patterns ==>
              patterns'[name].discovered == patterns[name].discovered && patterns'[name].data == patterns[name].data
  {
    if name !in patterns then patterns[name := Pattern(now, 1, data)]
    else patterns[name := patterns[name].(occurrences := patterns[name].occurrences + 1)]
  }

  /** Every score the store holds lies in [0, 1]. */
  ghost predicate ScoresInUnit(conversations: seq<Entry>, rels: map<string, Relationship>) {
    && (forall i :: 0 <= i < |conversations| ==> 0.0 <= conversations[i].resonance <= 1.0)
    && (forall p :: p in rels ==> 0.0 <= rels[p].avgResonance <= 1.0)
  }

  /** Recording a score in [0, 1] keeps every stored score in [0, 1]. */
  lemma RecordInUnit(conversations: seq<Entry>, rels: map<string, Relationship>, e: Entry, now: Timestamp)
    requires ScoresInUnit(conversations, rels) && 0.0 <= e.resonance <= 1.0
    ensures ScoresInUnit(conversations + [e], Record(rels, e.person, e.resonance, now))
  {
    if e.person in rels {
      RevisitInUnit(rels[e.person], e.resonance);
    }
  }

  // ---------------------------------------------------------------------------------------------
  // The store object

  class Memory {
    var conversations: seq<Entry>
    var relationships: map<string, Relationship>
    var patternsLearned: map<string, Pattern>
    var emotionalHistory: seq<real>

    /** Construction loads the snapshot: a missing file (`None`) gives an empty store, and a
        field absent from the snapshot reads as empty. */
    constructor (snapshot: Option<Snapshot>)
      ensures snapshot.None? ==>
        conversations == [] && relationships == map[] && patternsLearned == map[] && emotionalHistory == []
      ensures snapshot.Some? ==>
        && conversations == GetOr(snapshot.value.conversations, [])
        && relationships == GetOr(snapshot.value.relationships, map[])
        && patternsLearned == GetOr(snapshot.value.patterns, map[])
        && emotionalHistory == GetOr(snapshot.value.emotions, [])
    {
      match snapshot
      case None =>
        conversations, relationships, patternsLearned, emotionalHistory := [], map[], map[], [];
      case Some(s) =>
        conversations := GetOr(s.conversations, []);
        relationships := GetOr(s.relationships, map[]);
        patternsLearned := GetOr(s.patterns, map[]);
        emotionalHistory := GetOr(s.emotions, []);
    }

    /** The four fields `save_memory` writes out. */
    function Saved(): (s: Snapshot)
      reads this
      ensures s.conversations == Some(conversations) && s.relationships == Some(relationships)
      ensures s.patterns == Some(patternsLearned) && s.emotions == Some(emotionalHistory)
    {
      Snapshot(Some(conversations), Some(relationships), Some(patternsLearned), Some(emotionalHistory))
    }

    /** Saving and loading again round-trips: a store built from what `save_memory` writes holds
        exactly the conversations, relationships, patterns and emotions of this one. */
    method Reload() returns (m: Memory)
      ensures fresh(m)
      ensures m.conversations == conversations && m.relationships == relationships
      ensures m.patternsLearned == patternsLearned && m.emotionalHistory == emotionalHistory
    {
      m := new Memory(Some(Saved()));
    }

    /** `remember_conversation`: append one log entry and create or update the person's record. */
    method RememberConversation(person: string, content: string, resonance: real, now: Timestamp)
      modifies this
      ensures conversations == old(conversations) + [Entry(now, person, content, resonance)]
      ensures relationships == Record(old(relationships), person, resonance, now)
      ensures patternsLearned == old(patternsLearned) && emotionalHistory == old(emotionalHistory)
      ensures old(ScoresInUnit(conversations, relationships)) && 0.0 <= resonance <= 1.0
              ==> ScoresInUnit(conversations, relationships)
    {
      ghost var oldConversations, oldRelationships := conversations, relationships;
      conversations := conversations + [Entry(now, person, content, resonance)];
      if person !in relationships {
        relationships := relationships[person := Relationship(now, 0, resonance, [])];
      } else {
        var rel := relationships[person];
        var n := rel.interactions + 1;
        var oldAvg := rel.avgResonance;
        rel := rel.(interactions := n, avgResonance := (oldAvg * (n - 1) as real + resonance) / n as real);
        assert rel == Revisit(oldRelationships[person], resonance);
        relationships := relationships[person := rel];
      }
      if ScoresInUnit(oldConversations, oldRelationships) && 0.0 <= resonance <= 1.0 {
        RecordInUnit(oldConversations, oldRelationships, Entry(now, person, content, resonance), now);
      }
    }

    /** `learn_pattern`: count one more occurrence, or store a new pattern seen once. */
    method LearnPattern(name: string, data: PatternData, now: Timestamp)
      modifies this
      ensures patternsLearned == LearnedPatterns(old(patternsLearned), name, data, now)
      ensures conversations == old(conversations) && relationships == old(relationships)
      ensures emotionalHistory == old(emotionalHistory)
    {
      if name !in patternsLearned {
        patternsLearned := patternsLearned[name := Pattern(now, 1, data)];
      } else {
        var p := patternsLearned[name];
        patternsLearned := patternsLearned[name := p.(occurrences := p.occurrences + 1)];
      }
    }

    /** `get_relationship_summary`: the stored record, or nothing for an unknown person. */
    function GetRelationshipSummary(person: string): (r: Option<Relationship>)
      reads this
      ensures r.None? <==> person !in relationships
      ensures r.Some? ==> r.value == relationships[person]
    {
      if person in relationships then Some(relationships[person]) else None
    }
  }
}
