/**
 * The emotion profiler of chatbot.py (`analyze_emotion` and its two lookup
 * tables): rank the classifier's (tag, score) pairs, keep the best three,
 * and derive the dominant label, the tone directive, the emoji summary and
 * the blend description.
 */
module Emotion {
  import opened Wrappers
  import opened Text

  /**
   * One (tag, score) pair of the classifier's output. Only the order of
   * scores matters to the profiler, so they are integers here; their
   * two-decimal rendering is a parameter of the summary.
   */
  datatype EmotionScore = EmotionScore(name: string, score: int)

  /** What `analyze_emotion` returns: dominant label, summary, tone, blend description. */
  datatype Profile = Profile(dominant: string, summary: string, tone: string, blend: string)

  /** An empty classifier result: `top_labels[0]` raises IndexError. */
  datatype AnalysisError = NoEmotions

  const TOP_COUNT := 3
  const DEFAULT_TONE := "neutral and thoughtful"
  const DEFAULT_EMOJI := "\U{1F914}"

  const EMOJI_MAP: map<string, string> := map[
    "joy" := "\U{1F60A}", "sadness" := "\U{1F622}", "anger" := "\U{1F620}",
    "fear" := "\U{1F628}", "love" := "\U{2764}\U{FE0F}", "surprise" := "\U{1F632}",
    "amusement" := "\U{1F602}", "disappointment" := "\U{1F61E}",
    "curiosity" := "\U{1F914}", "gratitude" := "\U{1F64F}",
    "admiration" := "\U{1F929}", "confusion" := "\U{1F615}"
  ]

  const TONE_GUIDE: map<string, string> := map[
    "joy" := "positive and cheerful",
    "sadness" := "gentle and comforting",
    "anger" := "calm and understanding",
    "fear" := "reassuring and supportive",
    "love" := "warm and affectionate",
    "surprise" := "excited but balanced",
    "disappointment" := "sympathetic and hopeful",
    "curiosity" := "informative and engaging",
    "gratitude" := "appreciative and friendly",
    "admiration" := "encouraging and uplifting",
    "amusement" := "light-hearted and fun",
    "confusion" := "clarifying and patient"
  ]

  // ---------------------------------------------------------------------
  // Ranking: Python's sorted(..., key=score, reverse=True), which is stable
  // ---------------------------------------------------------------------

  /** Scores never increase from left to right. */
  predicate Descending(s: seq<EmotionScore>)
  {
    forall i, j :: 0 <= i < j < |s| ==> s[i].score >= s[j].score
  }

  /** The entries of `s` whose score is `k`, in the order they have in `s`. */
  function Tied(s: seq<EmotionScore>, k: int): seq<EmotionScore>
  {
    if s == [] then [] else (if s[0].score == k then [s[0]] else []) + Tied(s[1..], k)
  }

  /** Puts `e` in front of the first entry that does not score higher than it. */
  function Insert(e: EmotionScore, s: seq<EmotionScore>): (r: seq<EmotionScore>)
    ensures |r| == |s| + 1
  {
    if s == [] || e.score >= s[0].score then [e] + s
    else [s[0]] + Insert(e, s[1..])
  }

  /** The classifier's entries by descending score, ties in their original order. */
  function SortByScore(s: seq<EmotionScore>): (r: seq<EmotionScore>)
    ensures |r| == |s|
  {
    if s == [] then []
    else Insert(s[0], SortByScore(s[1..]))
  }

  lemma {:induction false} InsertPermutes(e: EmotionScore, s: seq<EmotionScore>)
    ensures multiset(Insert(e, s)) == multiset(s) + multiset{e}
  {
    if s != [] && e.score < s[0].score {
      InsertPermutes(e, s[1..]);
      assert s == [s[0]] + s[1..];
    }
  }

  /** The sort rearranges the classifier's entries: it neither drops nor adds one. */
  lemma {:induction false} SortPermutes(s: seq<EmotionScore>)
    ensures multiset(SortByScore(s)) == multiset(s)
  {
    if s != [] {
      SortPermutes(s[1..]);
      InsertPermutes(s[0], SortByScore(s[1..]));
      assert s == [s[0]] + s[1..];
    }
  }

  /** No entry scores above `b`. */
  predicate Below(s: seq<EmotionScore>, b: int)
  {
    forall i :: 0 <= i < |s| ==> s[i].score <= b
  }

  lemma {:induction false} InsertBelow(e: EmotionScore, s: seq<EmotionScore>, b: int)
    requires Below(s, b) && e.score <= b
    ensures Below(Insert(e, s), b)
  {
    if s != [] && e.score < s[0].score {
      InsertBelow(e, s[1..], b);
      var r := Insert(e, s[1..]);
      assert Insert(e, s) == [s[0]] + r;
      forall i | 0 <= i < |Insert(e, s)|
        ensures Insert(e, s)[i].score <= b
      {
        if i > 0 {
          assert Insert(e, s)[i] == r[i - 1];
        }
      }
    }
  }

  lemma ConsDescending(x: EmotionScore, r: seq<EmotionScore>)
    requires Descending(r) && Below(r, x.score)
    ensures Descending([x] + r)
  {
    forall i, j | 0 <= i < j < |[x] + r|
      ensures ([x] + r)[i].score >= ([x] + r)[j].score
    {
      assert ([x] + r)[j] == r[j - 1];
      if i > 0 {
        assert ([x] + r)[i] == r[i - 1];
      }
    }
  }

  lemma {:induction false} InsertDescending(e: EmotionScore, s: seq<EmotionScore>)
    requires Descending(s)
    ensures Descending(Insert(e, s))
  {
    if s == [] || e.score >= s[0].score {
      assert Insert(e, s) == [e] + s;
      ConsDescending(e, s);
    } else {
      var t := s[1..];
      assert Descending(t);
      assert Below(t, s[0].score);
      InsertDescending(e, t);
      InsertBelow(e, t, s[0].score);
      ConsDescending(s[0], Insert(e, t));
    }
  }

  lemma {:induction false} SortDescending(s: seq<EmotionScore>)
    ensures Descending(SortByScore(s))
  {
    if s != [] {
      SortDescending(s[1..]);
      InsertDescending(s[0], SortByScore(s[1..]));
    }
  }

  lemma TiedCons(x: EmotionScore, t: seq<EmotionScore>, k: int)
    ensures Tied([x] + t, k) == (if x.score == k then [x] else []) + Tied(t, k)
  {
    assert ([x] + t)[1..] == t;
  }

  lemma {:induction false} InsertTied(e: EmotionScore, s: seq<EmotionScore>, k: int)
    ensures Tied(Insert(e, s), k) == (if e.score == k then [e] else []) + Tied(s, k)
  {
    if s == [] || e.score >= s[0].score {
      TiedCons(e, s, k);
    } else {
      InsertTied(e, s[1..], k);
      TiedCons(s[0], Insert(e, s[1..]), k);
      TiedCons(s[0], s[1..], k);
      assert s == [s[0]] + s[1..];
    }
  }

  /** Stability: for every score, the entries tied at it keep their original order. */
  lemma {:induction false} SortKeepsTies(s: seq<EmotionScore>, k: int)
    ensures Tied(SortByScore(s), k) == Tied(s, k)
  {
    if s != [] {
      SortKeepsTies(s[1..], k);
      InsertTied(s[0], SortByScore(s[1..]), k);
      TiedCons(s[0], s[1..], k);
      assert s == [s[0]] + s[1..];
    }
  }

  lemma {:induction false} TiedHasEntry(s: seq<EmotionScore>, i: nat)
    requires i < |s|
    ensures Tied(s, s[i].score) != []
  {
    if i > 0 {
      TiedHasEntry(s[1..], i - 1);
    }
  }

  lemma {:induction false} TiedEntries(s: seq<EmotionScore>, k: int)
    ensures forall x :: x in Tied(s, k) ==> x in s && x.score == k
  {
    if s != [] {
      TiedEntries(s[1..], k);
    }
  }

  lemma EmptyIffNoTies(s: seq<EmotionScore>)
    ensures s == [] <==> forall k :: Tied(s, k) == []
  {
    if s != [] {
      TiedHasEntry(s, 0);
    }
  }

  /**
   * Two descending arrangements that agree on the order of every group of
   * tied entries are the same: the stable descending sort has one result.
   */
  lemma {:induction false} DescendingUnique(a: seq<EmotionScore>, b: seq<EmotionScore>)
    requires Descending(a) && Descending(b)
    requires forall k :: Tied(a, k) == Tied(b, k)
    ensures a == b
  {
    if a == [] {
      EmptyIffNoTies(b);
    } else if b == [] {
      EmptyIffNoTies(a);
    } else {
      HeadsAgree(a, b);
      TailsTied(a, b);
      DescendingUnique(a[1..], b[1..]);
      assert a == [a[0]] + a[1..] && b == [b[0]] + b[1..];
    }
  }

  /** Both arrangements start with the first entry of the highest score. */
  lemma HeadsAgree(a: seq<EmotionScore>, b: seq<EmotionScore>)
    requires a != [] && b != []
    requires Descending(a) && Descending(b)
    requires forall k :: Tied(a, k) == Tied(b, k)
    ensures a[0] == b[0]
  {
    var m, n := a[0].score, b[0].score;
    TiedHasEntry(b, 0);
    TiedEntries(a, n);
    assert Tied(a, n)[0] in a;
    assert n <= m;
    TiedHasEntry(a, 0);
    TiedEntries(b, m);
    assert Tied(b, m)[0] in b;
    assert m <= n;
    TiedCons(a[0], a[1..], m);
    TiedCons(b[0], b[1..], m);
    assert a == [a[0]] + a[1..] && b == [b[0]] + b[1..];
  }

  /** With equal heads, the tails agree on every group of ties. */
  lemma TailsTied(a: seq<EmotionScore>, b: seq<EmotionScore>)
    requires a != [] && b != [] && a[0] == b[0]
    requires forall k :: Tied(a, k) == Tied(b, k)
    ensures forall k :: Tied(a[1..], k) == Tied(b[1..], k)
  {
    forall k
      ensures Tied(a[1..], k) == Tied(b[1..], k)
    {
      TiedCons(a[0], a[1..], k);
      TiedCons(b[0], b[1..], k);
      assert a == [a[0]] + a[1..] && b == [b[0]] + b[1..];
      var head := if a[0].score == k then [a[0]] else [];
      assert Tied(a[1..], k) == Tied(a, k)[|head|..];
    }
  }

  /** SortByScore arranges by descending score and keeps every group of ties in order. */
  lemma SortIsStable(s: seq<EmotionScore>)
    ensures Descending(SortByScore(s))
    ensures forall k :: Tied(SortByScore(s), k) == Tied(s, k)
  {
    SortDescending(s);
    forall k
      ensures Tied(SortByScore(s), k) == Tied(s, k)
    {
      SortKeepsTies(s, k);
    }
  }

  /**
   * SortByScore is the only arrangement with those two properties: any
   * descending arrangement that keeps every group of ties of `s` in order is
   * SortByScore(s), which is what Python's stable `sorted(..., reverse=True)`
   * returns.
   */
  lemma StableSortUnique(s: seq<EmotionScore>, r: seq<EmotionScore>)
    requires Descending(r)
    requires forall k :: Tied(r, k) == Tied(s, k)
    ensures r == SortByScore(s)
  {
    SortIsStable(s);
    DescendingUnique(r, SortByScore(s));
  }

  /** The index of the first entry with the highest score. */
  function FirstHighest(s: seq<EmotionScore>): (i: nat)
    requires s != []
    ensures i < |s|
    ensures forall j :: 0 <= j < |s| ==> s[j].score <= s[i].score
    ensures forall j :: 0 <= j < i ==> s[j].score < s[i].score
  {
    if |s| == 1 then 0
    else
      var k := FirstHighest(s[1..]) + 1;
      if s[0].score >= s[k].score then 0 else k
  }

  lemma {:induction false} TiedFirst(s: seq<EmotionScore>, i: nat)
    requires i < |s|
    requires forall j :: 0 <= j < i ==> s[j].score != s[i].score
    ensures Tied(s, s[i].score) != [] && Tied(s, s[i].score)[0] == s[i]
  {
    if i > 0 {
      TiedFirst(s[1..], i - 1);
    }
  }

  /** The first-ranked entry is the first of the highest-scoring entries of the classifier's list. */
  lemma SortHeadIsFirstHighest(s: seq<EmotionScore>)
    requires s != []
    ensures SortByScore(s)[0] == s[FirstHighest(s)]
  {
    var r, h := SortByScore(s), FirstHighest(s);
    var m := s[h].score;
    SortDescending(s);
    SortPermutes(s);
    assert r[0] in multiset(s);
    assert s[h] in multiset(r);
    var p :| 0 <= p < |r| && r[p] == s[h];
    assert r[0].score == m;
    TiedFirst(s, h);
    SortKeepsTies(s, m);
    TiedCons(r[0], r[1..], m);
    assert r == [r[0]] + r[1..];
  }

  lemma {:induction false} TiedPrefix(s: seq<EmotionScore>, n: nat, k: int)
    requires n <= |s|
    ensures Tied(s[..n], k) <= Tied(s, k)
  {
    if n > 0 {
      TiedPrefix(s[1..], n - 1, k);
      assert s[..n][1..] == s[1..][..n - 1];
    }
  }

  // ---------------------------------------------------------------------
  // The top three and their labels
  // ---------------------------------------------------------------------

  /** `sorted(...)[:3]`. */
  function TopEmotions(results: seq<EmotionScore>): seq<EmotionScore>
  {
    var sorted := SortByScore(results);
    sorted[..if |sorted| < TOP_COUNT then |sorted| else TOP_COUNT]
  }

  /**
   * The top list has min(3, n) entries, by non-increasing score, taken from
   * the classifier's list, and entries with equal scores keep the
   * classifier's order.
   */
  lemma TopEmotionsSpec(results: seq<EmotionScore>)
    ensures |TopEmotions(results)| == if |results| < TOP_COUNT then |results| else TOP_COUNT
    ensures Descending(TopEmotions(results))
    ensures multiset(TopEmotions(results)) <= multiset(results)
    ensures forall k :: Tied(TopEmotions(results), k) <= Tied(results, k)
  {
    var sorted, top := SortByScore(results), TopEmotions(results);
    SortDescending(results);
    TopFromResults(results);
    forall k
      ensures Tied(top, k) <= Tied(results, k)
    {
      TiedPrefix(sorted, |top|, k);
      SortKeepsTies(results, k);
    }
  }

  lemma TopFromResults(results: seq<EmotionScore>)
    ensures multiset(TopEmotions(results)) <= multiset(results)
  {
    var sorted, top := SortByScore(results), TopEmotions(results);
    SortPermutes(results);
    assert sorted == top + sorted[|top|..];
    assert multiset(sorted) == multiset(top) + multiset(sorted[|top|..]);
  }

  /** Every classifier entry left out of the top list scores no higher than any entry kept. */
  lemma TopEmotionsAreHighest(results: seq<EmotionScore>, i: nat, j: nat)
    requires i < |TopEmotions(results)| && j < |results|
    requires results[j] !in TopEmotions(results)
    ensures results[j].score <= TopEmotions(results)[i].score
  {
    var sorted, top := SortByScore(results), TopEmotions(results);
    SortDescending(results);
    SortPermutes(results);
    assert results[j] in multiset(sorted);
    var p :| 0 <= p < |sorted| && sorted[p] == results[j];
    assert p >= |top|;
    assert sorted[i] == top[i];
  }

  /** `e["label"].split("_")[0]`. */
  function BaseLabel(tag: string): string
  {
    BeforeFirst(tag, '_')
  }

  function TopLabels(top: seq<EmotionScore>): seq<string>
  {
    seq(|top|, i requires 0 <= i < |top| => BaseLabel(top[i].name))
  }

  // ---------------------------------------------------------------------
  // Lookups, summary and blend
  // ---------------------------------------------------------------------

  /** `TONE_GUIDE.get(tag, "neutral and thoughtful")`. */
  function Tone(tag: string): string
  {
    if tag in TONE_GUIDE then TONE_GUIDE[tag] else DEFAULT_TONE
  }

  /** `EMOJI_MAP.get(tag, "🤔")`. */
  function Emoji(tag: string): string
  {
    if tag in EMOJI_MAP then EMOJI_MAP[tag] else DEFAULT_EMOJI
  }

  /**
   * Tone lookup is total and never empty; it falls back to the default
   * exactly for the labels the table lacks. Emoji lookup is total and never
   * empty too.
   */
  lemma LookupsTotal(tag: string)
    ensures Tone(tag) != "" && Emoji(tag) != ""
    ensures Tone(tag) == DEFAULT_TONE <==> tag !in TONE_GUIDE
    ensures tag in TONE_GUIDE ==> Tone(tag) == TONE_GUIDE[tag]
    ensures Emoji(tag) == DEFAULT_EMOJI <==> tag !in EMOJI_MAP || tag == "curiosity"
  {
  }

  /** Both tables know the same labels. */
  lemma TablesShareLabels(tag: string)
    ensures tag in EMOJI_MAP <==> tag in TONE_GUIDE
  {
  }

  /** One part of the summary: emoji, capitalised label, rendered score in parentheses. */
  function SummaryPart(e: EmotionScore, formatScore: int -> string): string
  {
    var base := BaseLabel(e.name);
    Emoji(base) + " " + Capitalize(base) + " (" + formatScore(e.score) + ")"
  }

  function SummaryParts(top: seq<EmotionScore>, formatScore: int -> string): seq<string>
  {
    seq(|top|, i requires 0 <= i < |top| => SummaryPart(top[i], formatScore))
  }

  /** `", ".join(summary_parts)`. */
  function Summary(top: seq<EmotionScore>, formatScore: int -> string): string
  {
    Join(SummaryParts(top, formatScore), ", ")
  }

  /**
   * The summary holds exactly one part per top emotion, in the order of the
   * top list, with ", " between neighbours.
   */
  lemma SummaryPartsInOrder(top: seq<EmotionScore>, formatScore: int -> string, i: nat)
    requires i < |top|
    ensures Summary(top, formatScore) ==
      Summary(top[..i], formatScore) + (if i > 0 then ", " else "")
      + SummaryPart(top[i], formatScore)
      + (if i + 1 < |top| then ", " else "") + Summary(top[i + 1..], formatScore)
  {
    var parts := SummaryParts(top, formatScore);
    SummaryPartsSlice(top, formatScore, 0, i);
    SummaryPartsSlice(top, formatScore, i + 1, |top|);
    assert top[0..i] == top[..i] && parts[0..i] == parts[..i];
    assert top[i + 1..|top|] == top[i + 1..] && parts[i + 1..|top|] == parts[i + 1..];
    JoinAt(parts, ", ", i);
  }

  lemma SummaryPartsSlice(top: seq<EmotionScore>, formatScore: int -> string, lo: nat, hi: nat)
    requires lo <= hi <= |top|
    ensures SummaryParts(top, formatScore)[lo..hi] == SummaryParts(top[lo..hi], formatScore)
  {
  }

  /** The blend description of one, two, or three and more labels. */
  function Blend(labels: seq<string>): string
    requires labels != []
  {
    if |labels| > 1 then
      if |labels| > 2 then "a mix of " + Join(labels[..|labels| - 1], ", ") + " and " + labels[|labels| - 1]
      else "both " + labels[0] + " and " + labels[1]
    else labels[0]
  }

  /** The blend for the lists the profiler can produce: one, two or three labels. */
  lemma BlendShapes(a: string, b: string, c: string)
    ensures Blend([a]) == a
    ensures Blend([a, b]) == "both " + a + " and " + b
    ensures Blend([a, b, c]) == "a mix of " + a + ", " + b + " and " + c
  {
    assert [a, b, c][..2] == [a, b];
    assert Join([a, b], ", ") == a + ", " + Join([b], ", ");
  }

  // ---------------------------------------------------------------------
  // analyze_emotion
  // ---------------------------------------------------------------------

  /** The profile `analyze_emotion` derives from the classifier's result. */
  function ProfileOf(results: seq<EmotionScore>, formatScore: int -> string): Result<Profile, AnalysisError>
  {
    var top := TopEmotions(results);
    var labels := TopLabels(top);
    if labels == [] then Failure(NoEmotions)
    else Success(Profile(labels[0], Summary(top, formatScore), Tone(labels[0]), Blend(labels)))
  }

  /** The `for e in top_emotions` loop of `analyze_emotion` and the join after it. */
  method BuildSummary(top: seq<EmotionScore>, formatScore: int -> string) returns (summary: string)
    ensures summary == Summary(top, formatScore)
  {
    var parts: seq<string> := [];
    for i := 0 to |top|
      invariant |parts| == i
      invariant forall j :: 0 <= j < i ==> parts[j] == SummaryPart(top[j], formatScore)
    {
      var base := BaseLabel(top[i].name);
      var emoji := Emoji(base);
      var part := emoji + " " + Capitalize(base) + " (" + formatScore(top[i].score) + ")";
      assert part == SummaryPart(top[i], formatScore);
      parts := parts + [part];
    }
    assert parts == SummaryParts(top, formatScore);
    summary := Join(parts, ", ");
  }

  /** `analyze_emotion`, with the classifier's result and the score rendering as inputs. */
  method AnalyzeEmotion(results: seq<EmotionScore>, formatScore: int -> string)
    returns (r: Result<Profile, AnalysisError>)
    ensures r == ProfileOf(results, formatScore)
    ensures r.Failure? <==> results == []
  {
    var top := TopEmotions(results);
    var labels := TopLabels(top);
    if |labels| == 0 {
      return Failure(NoEmotions);
    }
    var dominant := labels[0];
    var tone := Tone(dominant);
    var summary := BuildSummary(top, formatScore);
    var blend := Blend(labels);
    r := Success(Profile(dominant, summary, tone, blend));
  }

  /**
   * The dominant label, and so the tone, come from the first of the
   * classifier's highest-scoring entries, cut at its first underscore.
   */
  lemma DominantIsFirstHighest(results: seq<EmotionScore>, formatScore: int -> string)
    requires results != []
    ensures ProfileOf(results, formatScore).Success?
    ensures ProfileOf(results, formatScore).value.dominant == BaseLabel(results[FirstHighest(results)].name)
    ensures ProfileOf(results, formatScore).value.tone == Tone(BaseLabel(results[FirstHighest(results)].name))
    ensures '_' !in ProfileOf(results, formatScore).value.dominant
  {
    SortHeadIsFirstHighest(results);
  }

  /** How the blend follows from the number of classifier entries. */
  lemma BlendOfProfile(results: seq<EmotionScore>, formatScore: int -> string)
    requires results != []
    ensures var labels := TopLabels(TopEmotions(results));
      var blend := ProfileOf(results, formatScore).value.blend;
      && (|results| == 1 ==> blend == labels[0])
      && (|results| == 2 ==> blend == "both " + labels[0] + " and " + labels[1])
      && (|results| >= 3 ==> blend == "a mix of " + labels[0] + ", " + labels[1] + " and " + labels[2])
  {
    TopEmotionsSpec(results);
    var labels := TopLabels(TopEmotions(results));
    if |results| >= 3 {
      assert labels == [labels[0], labels[1], labels[2]];
      BlendShapes(labels[0], labels[1], labels[2]);
    }
  }

  /**
   * The worked example: a classifier result {fear: 0.3, joy: 0.8, surprise: 0.1}
   * (scores in hundredths) ranks joy, fear, surprise; the profile follows
   * below.
   */
  lemma HappyAndNervousRanking()
    ensures TopEmotions([EmotionScore("fear", 30), EmotionScore("joy", 80), EmotionScore("surprise", 10)])
         == [EmotionScore("joy", 80), EmotionScore("fear", 30), EmotionScore("surprise", 10)]
  {
    RankMiddleFirst(EmotionScore("fear", 30), EmotionScore("joy", 80), EmotionScore("surprise", 10));
  }

  /** Three entries whose second scores highest and whose third scores lowest. */
  lemma RankMiddleFirst(f: EmotionScore, g: EmotionScore, h: EmotionScore)
    requires h.score < f.score < g.score
    ensures TopEmotions([f, g, h]) == [g, f, h]
  {
    SortPair(g, h);
    assert [f, g, h][1..] == [g, h];
    InsertBehindHead(f, g, h);
    assert SortByScore([f, g, h]) == [g, f, h];
  }

  lemma SortPair(g: EmotionScore, h: EmotionScore)
    requires h.score <= g.score
    ensures SortByScore([g, h]) == [g, h]
  {
    assert [h][1..] == [];
    assert SortByScore([h]) == [h];
    assert [g, h][1..] == [h];
    assert Insert(g, [h]) == [g] + [h];
  }

  lemma InsertBehindHead(f: EmotionScore, g: EmotionScore, h: EmotionScore)
    requires h.score <= f.score < g.score
    ensures Insert(f, [g, h]) == [g, f, h]
  {
    assert [g, h][1..] == [h];
    assert Insert(f, [h]) == [f, h];
    assert [g] + [f, h] == [g, f, h];
  }

  /** Labels without an underscore are their own base labels. */
  lemma TopLabelsWhole(top: seq<EmotionScore>)
    requires forall i :: 0 <= i < |top| ==> '_' !in top[i].name
    ensures TopLabels(top) == seq(|top|, i requires 0 <= i < |top| => top[i].name)
  {
    forall i | 0 <= i < |top|
      ensures TopLabels(top)[i] == top[i].name
    {
      BeforeFirstWhole(top[i].name, '_');
    }
  }

  lemma HappyAndNervousLabels(top: seq<EmotionScore>)
    requires top == [EmotionScore("joy", 80), EmotionScore("fear", 30), EmotionScore("surprise", 10)]
    ensures TopLabels(top) == ["joy", "fear", "surprise"]
  {
    TopLabelsWhole(top);
  }

  /** Top labels joy, fear, surprise give a cheerful tone and a three-way blend. */
  lemma JoyFearSurpriseProfile(results: seq<EmotionScore>, formatScore: int -> string)
    requires TopLabels(TopEmotions(results)) == ["joy", "fear", "surprise"]
    ensures var r := ProfileOf(results, formatScore);
      && r.Success?
      && r.value.dominant == "joy"
      && r.value.tone == "positive and cheerful"
      && r.value.blend == "a mix of joy, fear and surprise"
  {
    JoyTone();
    JoyFearSurpriseBlend();
  }

  lemma JoyTone()
    ensures Tone("joy") == "positive and cheerful"
  {
  }

  lemma JoyFearSurpriseBlend()
    ensures Blend(["joy", "fear", "surprise"]) == "a mix of joy, fear and surprise"
  {
    BlendShapes("joy", "fear", "surprise");
  }

  /** The worked example end to end. */
  lemma HappyAndNervousExample(formatScore: int -> string)
    ensures var r := ProfileOf([EmotionScore("fear", 30), EmotionScore("joy", 80), EmotionScore("surprise", 10)], formatScore);
      && r.Success?
      && r.value.dominant == "joy"
      && r.value.tone == "positive and cheerful"
      && r.value.blend == "a mix of joy, fear and surprise"
  {
    var results := [EmotionScore("fear", 30), EmotionScore("joy", 80), EmotionScore("surprise", 10)];
    HappyAndNervousRanking();
    HappyAndNervousLabels(TopEmotions(results));
    JoyFearSurpriseProfile(results, formatScore);
  }
}
