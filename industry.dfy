/** Keyword-based industry classification, the scheme shared by
    `_classify_industry` (lead_generator.py, demo.py) and
    `_classify_industry_advanced` (enhanced_lead_generator.py): every industry
    scores `weight * (factor * primary hits + secondary hits)` on the
    lower-cased text, the industries scoring above zero enter a dictionary in
    table order, and `max(scores, key=scores.get)` picks the first one with the
    highest score; with no such industry the answer is "Other". */
module Industry {
  import opened Seqs
  import opened Text
  import opened Page

  /** One entry of an industry keyword table. Weights are integers: each
      table scales its decimal weights by a common factor, which keeps the
      order of the scores. */
  datatype Rule = Rule(name: string, primary: seq<string>, secondary: seq<string>, weight: nat)

  /** A keyword table and the multiplier of its primary keywords. */
  datatype Table = Table(rules: seq<Rule>, primaryFactor: nat)

  const Other: string := "Other"

  /** The score of one industry on already lower-cased text. */
  function RuleScore(t: Table, r: Rule, lowered: string): nat
  {
    r.weight * (t.primaryFactor * Hits(lowered, r.primary) + Hits(lowered, r.secondary))
  }

  /** The score of every industry, in table order. */
  function Scores(t: Table, lowered: string): (s: seq<nat>)
    ensures |s| == |t.rules|
    ensures forall i :: 0 <= i < |s| ==> s[i] == RuleScore(t, t.rules[i], lowered)
  {
    seq(|t.rules|, i requires 0 <= i < |t.rules| => RuleScore(t, t.rules[i], lowered))
  }

  /** Position `i` holds the highest score and no earlier position reaches it:
      the entry `max` returns when it scans in order and replaces its
      candidate only on a strictly greater score. */
  predicate IsFirstMax(s: seq<nat>, i: nat)
  {
    && i < |s|
    && (forall j :: 0 <= j < |s| ==> s[j] <= s[i])
    && (forall j :: 0 <= j < i ==> s[j] < s[i])
  }

  /** The first position of the highest score. */
  function FirstMax(s: seq<nat>): (i: nat)
    requires s != []
    ensures IsFirstMax(s, i)
  {
    if |s| == 1 then 0
    else
      var i := FirstMax(s[..|s| - 1]);
      assert forall j :: 0 <= j < |s| - 1 ==> s[..|s| - 1][j] == s[j];
      if s[|s| - 1] > s[i] then |s| - 1 else i
  }

  /** At most one position is the first maximum. */
  lemma FirstMaxUnique(s: seq<nat>, i: nat, j: nat)
    requires IsFirstMax(s, i) && IsFirstMax(s, j)
    ensures i == j
  {
    assert s[i] <= s[j] && s[j] <= s[i];
  }

  /** The winning industry's position, or None when nothing scored. */
  function Winner(s: seq<nat>): (w: Option<nat>)
    ensures w.None? <==> forall j :: 0 <= j < |s| ==> s[j] == 0
    ensures w.Some? ==> IsFirstMax(s, w.value) && s[w.value] > 0
  {
    if s == [] then None
    else
      var i := FirstMax(s);
      if s[i] == 0 then None else Some(i)
  }

  /** The industry the classifier reports for `text`. */
  function Classify(t: Table, text: string): string
  {
    var s := Scores(t, Lower(text));
    match Winner(s)
    case None => Other
    case Some(i) => t.rules[i].name
  }

  /** The tables the program uses: positive weights and factor, and no
      industry called "Other". */
  predicate WellFormed(t: Table)
  {
    && t.primaryFactor > 0
    && forall i :: 0 <= i < |t.rules| ==>
         && t.rules[i].weight > 0
         && t.rules[i].name != Other
  }

  /** An industry scores above zero exactly when one of its keywords occurs
      in the lower-cased text. */
  lemma RuleScorePositiveIff(t: Table, i: nat, lowered: string)
    requires WellFormed(t) && i < |t.rules|
    ensures RuleScore(t, t.rules[i], lowered) > 0 <==>
      ContainsAny(lowered, t.rules[i].primary) || ContainsAny(lowered, t.rules[i].secondary)
  {
    var r := t.rules[i];
    HitsZeroIffNoneOccurs(lowered, r.primary);
    HitsZeroIffNoneOccurs(lowered, r.secondary);
    var p, q := Hits(lowered, r.primary), Hits(lowered, r.secondary);
    ProductPositive(t.primaryFactor, p);
    ProductPositive(r.weight, t.primaryFactor * p + q);
  }

  /** A product of naturals is positive exactly when both factors are. */
  lemma ProductPositive(a: nat, b: nat)
    ensures a * b > 0 <==> a > 0 && b > 0
  {
    if a > 0 && b > 0 {
      MulAtLeast(a, b);
    }
  }

  lemma {:induction false} MulAtLeast(a: nat, b: nat)
    requires a >= 1
    ensures a * b >= b
    decreases a
  {
    if a > 1 {
      MulAtLeast(a - 1, b);
      assert a * b == (a - 1) * b + b;
    }
  }

  /** The answer is "Other" exactly when no keyword of any industry occurs in
      the lower-cased text; otherwise it is the label of the first industry
      with the highest positive score. */
  lemma ClassifyCharacterised(t: Table, text: string)
    requires WellFormed(t)
    ensures Classify(t, text) == Other <==>
      forall i :: 0 <= i < |t.rules| ==>
        !ContainsAny(Lower(text), t.rules[i].primary) && !ContainsAny(Lower(text), t.rules[i].secondary)
    ensures Classify(t, text) != Other ==>
      exists i: nat :: IsFirstMax(Scores(t, Lower(text)), i) && Scores(t, Lower(text))[i] > 0
        && Classify(t, text) == t.rules[i].name
  {
    var lowered := Lower(text);
    var s := Scores(t, lowered);
    forall i | 0 <= i < |t.rules|
      ensures s[i] > 0 <==> ContainsAny(lowered, t.rules[i].primary) || ContainsAny(lowered, t.rules[i].secondary)
    {
      RuleScorePositiveIff(t, i, lowered);
    }
  }

  /** Lower-casing twice is lower-casing once. */
  lemma {:induction false} LowerIdempotent(s: string)
    ensures Lower(Lower(s)) == Lower(s)
  {
    if s != [] {
      LowerIdempotent(s[1..]);
      assert Lower(s)[1..] == Lower(s[1..]);
    }
  }

  /** The classification ignores the case of the text. */
  lemma ClassifyIgnoresCase(t: Table, text: string)
    ensures Classify(t, Lower(text)) == Classify(t, text)
  {
    LowerIdempotent(text);
  }

  /** The classifier as the source runs it: score every industry keyword by
      keyword, record the positive scores in a dictionary kept in insertion
      order, then take the first entry with the highest score. */
  method ClassifyByKeywords(t: Table, text: string) returns (industry: string)
    ensures industry == Classify(t, text)
  {
    var lowered := Lower(text);
    var scores, at := PositiveScores(t, lowered);
    ghost var s := Scores(t, lowered);
    if scores == [] {
      industry := Other;
      assert Winner(s).None?;
      return;
    }
    var best := FirstMaxEntry(scores);
    industry := scores[best].0;
    WinnerFromEntries(s, at, best);
    FirstMaxUnique(s, at[best], Winner(s).value);
  }

  /** The `industry_scores` dictionary: the industries with a positive score,
      with their scores, in table order; `at` gives each entry's position in
      the table. */
  method PositiveScores(t: Table, lowered: string) returns (scores: seq<(string, nat)>, ghost at: seq<nat>)
    ensures |at| == |scores|
    ensures forall k :: 0 <= k < |at| ==>
      at[k] < |t.rules| && scores[k] == (t.rules[at[k]].name, Scores(t, lowered)[at[k]])
    ensures forall k, l :: 0 <= k < l < |at| ==> at[k] < at[l]
    ensures forall j :: 0 <= j < |t.rules| && Scores(t, lowered)[j] > 0 ==> j in at
    ensures forall k :: 0 <= k < |at| ==> Scores(t, lowered)[at[k]] > 0
  {
    ghost var s := Scores(t, lowered);
    scores := [];
    at := [];
    var i := 0;
    while i < |t.rules|
      invariant i <= |t.rules|
      invariant |at| == |scores|
      invariant forall k :: 0 <= k < |at| ==> at[k] < i && scores[k] == (t.rules[at[k]].name, s[at[k]])
      invariant forall k, l :: 0 <= k < l < |at| ==> at[k] < at[l]
      invariant forall j :: 0 <= j < i && s[j] > 0 ==> j in at
      invariant forall k :: 0 <= k < |at| ==> s[at[k]] > 0
    {
      var r := t.rules[i];
      var score := RuleScoreByLoops(t.primaryFactor, r, lowered);
      if score > 0 {
        scores := scores + [(r.name, score)];
        at := at + [i];
      }
      i := i + 1;
    }
  }

  /** `max(industry_scores, key=industry_scores.get)`: the first entry with
      the highest score. */
  method FirstMaxEntry(scores: seq<(string, nat)>) returns (best: nat)
    requires scores != []
    ensures best < |scores|
    ensures forall k :: 0 <= k < |scores| ==> scores[k].1 <= scores[best].1
    ensures forall k :: 0 <= k < best ==> scores[k].1 < scores[best].1
  {
    best := 0;
    var j := 1;
    while j < |scores|
      invariant 0 <= best < j <= |scores|
      invariant forall k :: 0 <= k < j ==> scores[k].1 <= scores[best].1
      invariant forall k :: 0 <= k < best ==> scores[k].1 < scores[best].1
    {
      if scores[j].1 > scores[best].1 {
        best := j;
      }
      j := j + 1;
    }
  }

  /** The winning dictionary entry is the first maximum of the full score
      list: the entries are the positive scores in position order. */
  lemma WinnerFromEntries(s: seq<nat>, at: seq<nat>, best: nat)
    requires best < |at|
    requires forall k :: 0 <= k < |at| ==> at[k] < |s| && s[at[k]] > 0
    requires forall k, l :: 0 <= k < l < |at| ==> at[k] < at[l]
    requires forall j :: 0 <= j < |s| && s[j] > 0 ==> j in at
    requires forall k :: 0 <= k < |at| ==> s[at[k]] <= s[at[best]]
    requires forall k :: 0 <= k < best ==> s[at[k]] < s[at[best]]
    ensures IsFirstMax(s, at[best]) && Winner(s).Some?
  {
    forall j | 0 <= j < at[best] && s[j] > 0
      ensures s[j] < s[at[best]]
    {
      var k :| 0 <= k < |at| && at[k] == j;
    }
  }

  /** One industry's score, accumulated keyword by keyword: each primary
      keyword adds `count * factor * weight`, each secondary one
      `count * weight`. */
  method RuleScoreByLoops(factor: nat, r: Rule, lowered: string) returns (score: nat)
    ensures score == RuleScore(Table([], factor), r, lowered)
  {
    ProductOfNats(factor, r.weight);
    var primaryScore := AccumulateCounts(lowered, r.primary, factor * r.weight);
    var secondaryScore := AccumulateCounts(lowered, r.secondary, r.weight);
    score := primaryScore + secondaryScore;
    WeightedSum(r.weight, factor, Hits(lowered, r.primary), Hits(lowered, r.secondary));
  }

  /** `for keyword in keys: score += text.count(keyword) * points`. */
  method AccumulateCounts(lowered: string, keys: seq<string>, points: nat) returns (score: nat)
    ensures score == points * Hits(lowered, keys)
  {
    score := 0;
    var k := 0;
    while k < |keys|
      invariant k <= |keys|
      invariant score == points * Hits(lowered, keys[..k])
    {
      var c := Count(lowered, keys[k]);
      HitsStep(lowered, keys, k);
      ScaledStep(points, Hits(lowered, keys[..k]), c);
      ProductOfNats(c, points);
      score := score + c * points;
      k := k + 1;
    }
    assert keys[..k] == keys;
  }

  lemma HitsStep(s: string, keys: seq<string>, k: nat)
    requires k < |keys|
    ensures Hits(s, keys[..k + 1]) == Hits(s, keys[..k]) + Count(s, keys[k])
  {
    assert keys[..k + 1][..k] == keys[..k];
  }

  lemma WeightedSum(w: nat, f: nat, p: nat, q: nat)
    ensures (f * w) * p + w * q == w * (f * p + q)
  {
    ScaledStep(w, f * p, q);
    assert (f * w) * p == w * (f * p);
  }

  lemma ProductOfNats(a: int, b: nat)
    requires a >= 0
    ensures a * b >= 0
  {
  }

  lemma ScaledStep(w: nat, h: nat, c: nat)
    ensures w * (h + c) == w * h + c * w
  {
  }
}
