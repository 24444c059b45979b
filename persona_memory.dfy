/** The persona-evolution memory of one installation, as values: the
    short-term memory (one entry per analysed post), the long-term memory
    (one record per compressed batch of five or more posts) and the persona
    snapshots (one per user), together with the pure transition functions
    that the `PersonaEvolutionSystem` class implements step by step.

    The language model is a reply passed in (`LlmReply`), JSON decoding is
    a function passed in, and the wall clock is a `Clock` giving the whole
    seconds of `datetime.now().timestamp()` and the ISO text of the time. */
module PersonaMemory {
  import opened Wrappers
  import opened Text
  import opened Sorting
  import opened VectorStore
  import opened Engagement
  import opened LlmJson

  /** `int(datetime.now().timestamp())` and `datetime.now().isoformat()`. */
  datatype Clock = Clock(seconds: nat, iso: string)

  /** Metadata and document of one short-term memory entry. */
  datatype StmEntry = StmEntry(
    userId: string,
    document: string,
    topic: string,
    tone: string,
    belief: string,
    styleElements: seq<string>,
    postType: string,
    hooks: seq<string>,
    structure: string,
    ctaType: string,
    voiceCharacteristics: seq<string>,
    engagementFactors: seq<string>,
    successElements: seq<string>,
    engagementScore: real,
    likes: int,
    comments: int,
    shares: int,
    views: int,
    timestamp: string,
    processed: string)

  /** Metadata of one long-term memory record. The rendered document text is
      not modelled. */
  datatype LtmEntry = LtmEntry(
    userId: string,
    timestamp: string,
    postCount: nat,
    avgEngagement: real,
    maxEngagement: real,
    highEngagementCount: nat,
    engagementTrend: string,
    periodSummary: string,
    dominantTones: seq<string>,
    coreBeliefs: seq<string>,
    writingPatterns: seq<string>,
    voiceEvolution: string,
    stylePreferences: seq<string>,
    contentThemes: seq<string>,
    engagementStyle: string,
    personalityTraits: seq<string>,
    successFormulas: seq<string>,
    highEngagementHooks: seq<string>,
    winningStructures: seq<string>,
    engagementStrengths: seq<string>,
    voiceConfidence: real,
    uniquenessScore: real,
    engagementOptimization: real)

  /** Metadata of a persona snapshot. The rendered document text is not
      modelled. */
  datatype Snapshot = Snapshot(
    userId: string,
    lastUpdated: string,
    avgEngagement: real,
    peakEngagement: real,
    highEngagementRatio: real,
    currentVoice: string,
    primaryTones: seq<string>,
    coreBeliefs: seq<string>,
    writingSignature: string,
    preferredStructures: seq<string>,
    contentFocusAreas: seq<string>,
    engagementApproach: string,
    successPatterns: seq<string>,
    winningHooks: seq<string>,
    engagementStrengths: seq<string>,
    voiceMaturityLevel: real,
    engagementMastery: real,
    personalityBlend: string,
    evolutionDirection: string)

  /** The three persona collections. */
  datatype Memory = Memory(stm: Table<StmEntry>, ltm: Table<LtmEntry>, snapshots: Table<Snapshot>)

  /** The number of unprocessed posts that starts a compression. */
  const CompressionBatch: nat := 5

  function StmId(userId: string, clock: Clock): string {
    "stm_" + userId + "_" + NatStr(clock.seconds)
  }

  function LtmId(userId: string, clock: Clock): string {
    "ltm_" + userId + "_" + NatStr(clock.seconds)
  }

  /** The one id a user's snapshot is stored under. */
  function SnapshotId(userId: string): string {
    "persona_" + userId
  }

  /** Different users have different snapshot ids. */
  lemma SnapshotIdInjective(u: string, v: string)
    requires SnapshotId(u) == SnapshotId(v)
    ensures u == v
  {
    assert u == SnapshotId(u)[8..];
    assert v == SnapshotId(v)[8..];
  }

  // ---------------------------------------------------------------------
  // Filters used with `get(where=...)`

  /** `{"user_id": u, "processed": "false"}` */
  function UnprocessedOf(u: string): StmEntry -> bool {
    (e: StmEntry) => e.userId == u && e.processed == "false"
  }

  /** `{"user_id": u}` on short-term memory. */
  function StmOf(u: string): StmEntry -> bool {
    (e: StmEntry) => e.userId == u
  }

  /** `{"user_id": u}` on long-term memory. */
  function LtmOf(u: string): LtmEntry -> bool {
    (e: LtmEntry) => e.userId == u
  }

  /** The ids of the user's unprocessed posts, in store order. */
  function Backlog(stm: Table<StmEntry>, u: string): seq<string> {
    stm.Select(UnprocessedOf(u))
  }

  /** The engagement scores of some stored posts, in the order given. */
  function ScoresOf(stm: Table<StmEntry>, sel: seq<string>): (r: seq<real>)
    requires forall id :: id in sel ==> id in stm.rows
    ensures |r| == |sel| && forall i :: 0 <= i < |sel| ==> r[i] == stm.rows[sel[i]].engagementScore
  {
    seq(|sel|, i requires 0 <= i < |sel| => stm.rows[sel[i]].engagementScore)
  }

  // ---------------------------------------------------------------------
  // Fallback records used when a reply is not JSON

  /** The post analysis used when the reply is not JSON. */
  function StmFallback(topic: string, postType: string): JsonObject {
    JsonObject(
      map["topic" := topic, "tone" := "Professional", "belief" := "Growth mindset",
          "post_type" := postType, "structure" := "Hook-Content-Action", "cta_type" := "Engagement"],
      map["style_elements" := ["Clear", "Engaging"], "hooks" := ["Question"],
          "voice_characteristics" := ["Professional", "Authentic"],
          "engagement_factors" := ["Relatable", "Actionable"],
          "success_elements" := ["Clear message", "Call to action"]],
      map[], {})
  }

  /** The period analysis used when the compression reply is not JSON. */
  const LtmFallback: JsonObject := JsonObject(
    map["period_summary" := "Analysis period summary", "voice_evolution" := "Voice developing",
        "engagement_style" := "Professional engagement"],
    map["dominant_tones" := ["Professional"], "core_beliefs" := ["Growth mindset"],
        "writing_patterns" := ["Clear communication"], "style_preferences" := ["Professional"],
        "content_themes" := ["Professional development"], "personality_traits" := ["Professional"],
        "success_formulas" := ["Hook-Content-Action"], "high_engagement_hooks" := ["Question"],
        "winning_structures" := ["Problem-Solution"], "engagement_strengths" := ["Clear", "Professional"]],
    map["voice_confidence" := 0.7, "uniqueness_score" := 0.8, "engagement_optimization" := 0.9],
    {})

  /** The persona used when the snapshot reply is not JSON. */
  const SnapshotFallback: JsonObject := JsonObject(
    map["current_voice" := "Professional and engaging",
        "writing_signature" := "Clear and actionable content",
        "engagement_approach" := "Ask questions and provide value",
        "personality_blend" := "Professional yet approachable",
        "evolution_direction" := "Toward more engaging content"],
    map["primary_tones" := ["Professional", "Friendly"],
        "core_beliefs" := ["Growth mindset", "Continuous learning"],
        "preferred_structures" := ["Hook-Insight-Action"],
        "content_focus_areas" := ["Professional development"],
        "success_patterns" := ["Start with story", "End with action"],
        "winning_hooks" := ["Question", "Story"],
        "engagement_strengths" := ["Authentic", "Actionable"]],
    map["voice_maturity_level" := 0.8, "engagement_mastery" := 0.7],
    {})

  /** The period-analysis fields that go through `', '.join` or `float()`
      while the record is written. */
  const LtmConverted: set<string> :=
    {"dominant_tones", "core_beliefs", "writing_patterns", "style_preferences", "content_themes",
     "personality_traits", "success_formulas", "high_engagement_hooks", "winning_structures",
     "engagement_strengths", "voice_confidence", "uniqueness_score", "engagement_optimization"}

  /** The persona fields that go through `', '.join` or `float()` while the
      snapshot is written. */
  const SnapshotConverted: set<string> :=
    {"primary_tones", "core_beliefs", "preferred_structures", "content_focus_areas",
     "success_patterns", "winning_hooks", "engagement_strengths", "voice_maturity_level",
     "engagement_mastery"}

  // ---------------------------------------------------------------------
  // Building the records

  /** The short-term memory entry of an analysed post. Missing analysis
      fields take the defaults of the source: tone "Professional", the
      caller's topic and post type, empty texts and lists. */
  function NewStmEntry(u: string, post: string, topic: string, postType: string,
                       data: map<string, int>, a: JsonObject, clock: Clock): (e: StmEntry)
    ensures e.userId == u && e.document == post && e.processed == "false"
    ensures e.timestamp == clock.iso
    ensures e.engagementScore == PostScore(data)
    ensures data == map[] ==> e.engagementScore == 0.5 && e.likes == 0 && e.comments == 0
                               && e.shares == 0 && e.views == 0
    ensures "tone" !in a.strings ==> e.tone == "Professional"
    ensures "topic" !in a.strings ==> e.topic == topic
    ensures "post_type" !in a.strings ==> e.postType == postType
  {
    StmEntry(
      userId := u,
      document := post,
      topic := GetStr(a, "topic", topic),
      tone := GetStr(a, "tone", "Professional"),
      belief := GetStr(a, "belief", ""),
      styleElements := GetList(a, "style_elements"),
      postType := GetStr(a, "post_type", postType),
      hooks := GetList(a, "hooks"),
      structure := GetStr(a, "structure", ""),
      ctaType := GetStr(a, "cta_type", ""),
      voiceCharacteristics := GetList(a, "voice_characteristics"),
      engagementFactors := GetList(a, "engagement_factors"),
      successElements := GetList(a, "success_elements"),
      engagementScore := PostScore(data),
      likes := Count(data, "likes"),
      comments := Count(data, "comments"),
      shares := Count(data, "shares"),
      views := Count(data, "views"),
      timestamp := clock.iso,
      processed := "false")
  }

  /** The long-term memory record of a compressed batch with scores `scores`. */
  function NewLtmEntry(u: string, scores: seq<real>, a: JsonObject, clock: Clock): (e: LtmEntry)
    requires |scores| > 0
    ensures e.userId == u && e.postCount == |scores|
    ensures e.highEngagementCount == |High(scores)| && e.engagementTrend == Trend(scores)
    ensures Within(scores, MinScore, 1.0) ==>
              MinScore <= e.avgEngagement <= e.maxEngagement <= 1.0
              && e.highEngagementCount <= e.postCount
    ensures "voice_confidence" !in a.numbers ==> e.voiceConfidence == 0.7
    ensures "uniqueness_score" !in a.numbers ==> e.uniquenessScore == 0.8
    ensures "engagement_optimization" !in a.numbers ==> e.engagementOptimization == 0.9
  {
    BatchFiguresOk(scores);
    LtmEntry(
      userId := u,
      timestamp := clock.iso,
      postCount := |scores|,
      avgEngagement := Mean(scores),
      maxEngagement := MaxOf(scores),
      highEngagementCount := |High(scores)|,
      engagementTrend := Trend(scores),
      periodSummary := GetStr(a, "period_summary", ""),
      dominantTones := GetList(a, "dominant_tones"),
      coreBeliefs := GetList(a, "core_beliefs"),
      writingPatterns := GetList(a, "writing_patterns"),
      voiceEvolution := GetStr(a, "voice_evolution", ""),
      stylePreferences := GetList(a, "style_preferences"),
      contentThemes := GetList(a, "content_themes"),
      engagementStyle := GetStr(a, "engagement_style", ""),
      personalityTraits := GetList(a, "personality_traits"),
      successFormulas := GetList(a, "success_formulas"),
      highEngagementHooks := GetList(a, "high_engagement_hooks"),
      winningStructures := GetList(a, "winning_structures"),
      engagementStrengths := GetList(a, "engagement_strengths"),
      voiceConfidence := GetNum(a, "voice_confidence", 0.7),
      uniquenessScore := GetNum(a, "uniqueness_score", 0.8),
      engagementOptimization := GetNum(a, "engagement_optimization", 0.9))
  }

  /** The figures of a batch of scores in the score range are in range. */
  lemma BatchFiguresOk(scores: seq<real>)
    requires |scores| > 0
    ensures Within(scores, MinScore, 1.0) ==> MinScore <= Mean(scores) <= MaxOf(scores) <= 1.0
  {
    if Within(scores, MinScore, 1.0) {
      InsightsInRange(scores);
    }
  }

  // ---------------------------------------------------------------------
  // Snapshot metrics over a user's long-term records

  function Avgs(es: seq<LtmEntry>): (r: seq<real>)
    ensures |r| == |es| && forall i :: 0 <= i < |es| ==> r[i] == es[i].avgEngagement
  {
    seq(|es|, i requires 0 <= i < |es| => es[i].avgEngagement)
  }

  function Peaks(es: seq<LtmEntry>): (r: seq<real>)
    ensures |r| == |es| && forall i :: 0 <= i < |es| ==> r[i] == es[i].maxEngagement
  {
    seq(|es|, i requires 0 <= i < |es| => es[i].maxEngagement)
  }

  /** `high_engagement_count / max(post_count, 1)` */
  function HighRatio(e: LtmEntry): real {
    e.highEngagementCount as real / (if e.postCount > 1 then e.postCount else 1) as real
  }

  function Ratios(es: seq<LtmEntry>): (r: seq<real>)
    ensures |r| == |es| && forall i :: 0 <= i < |es| ==> r[i] == HighRatio(es[i])
  {
    seq(|es|, i requires 0 <= i < |es| => HighRatio(es[i]))
  }

  /** A record whose figures are those of a batch of scores in the score range. */
  predicate LtmEntryOk(e: LtmEntry) {
    MinScore <= e.avgEngagement <= e.maxEngagement <= 1.0 && e.highEngagementCount <= e.postCount
  }

  /** The snapshot of user `u` from all of the user's long-term records. */
  function NewSnapshot(u: string, es: seq<LtmEntry>, a: JsonObject, clock: Clock): (s: Snapshot)
    requires |es| > 0
    ensures s.userId == u
    ensures (forall i :: 0 <= i < |es| ==> LtmEntryOk(es[i])) ==> SnapshotOk(s)
    ensures "voice_maturity_level" !in a.numbers ==> s.voiceMaturityLevel == 0.5
    ensures "engagement_mastery" !in a.numbers ==> s.engagementMastery == 0.5
  {
    SnapshotMetricsOk(es);
    Snapshot(
      userId := u,
      lastUpdated := clock.iso,
      avgEngagement := Mean(Avgs(es)),
      peakEngagement := MaxOf(Peaks(es)),
      highEngagementRatio := Mean(Ratios(es)),
      currentVoice := GetStr(a, "current_voice", ""),
      primaryTones := GetList(a, "primary_tones"),
      coreBeliefs := GetList(a, "core_beliefs"),
      writingSignature := GetStr(a, "writing_signature", ""),
      preferredStructures := GetList(a, "preferred_structures"),
      contentFocusAreas := GetList(a, "content_focus_areas"),
      engagementApproach := GetStr(a, "engagement_approach", ""),
      successPatterns := GetList(a, "success_patterns"),
      winningHooks := GetList(a, "winning_hooks"),
      engagementStrengths := GetList(a, "engagement_strengths"),
      voiceMaturityLevel := GetNum(a, "voice_maturity_level", 0.5),
      engagementMastery := GetNum(a, "engagement_mastery", 0.5),
      personalityBlend := GetStr(a, "personality_blend", ""),
      evolutionDirection := GetStr(a, "evolution_direction", ""))
  }

  /** Metrics over records in range are in range. */
  lemma SnapshotMetricsOk(es: seq<LtmEntry>)
    requires |es| > 0
    ensures (forall i :: 0 <= i < |es| ==> LtmEntryOk(es[i])) ==>
              && MinScore <= Mean(Avgs(es)) <= 1.0
              && MinScore <= MaxOf(Peaks(es)) <= 1.0
              && 0.0 <= Mean(Ratios(es)) <= 1.0
  {
    if forall i :: 0 <= i < |es| ==> LtmEntryOk(es[i]) {
      MeanBounds(Avgs(es), MinScore, 1.0);
      assert Within(Peaks(es), MinScore, 1.0);
      var k :| 0 <= k < |es| && Peaks(es)[k] == MaxOf(Peaks(es));
      assert Within(Ratios(es), 0.0, 1.0) by {
        forall i | 0 <= i < |es| ensures 0.0 <= HighRatio(es[i]) <= 1.0 {
          RatioInUnit(es[i].highEngagementCount, if es[i].postCount > 1 then es[i].postCount else 1);
        }
      }
      MeanBounds(Ratios(es), 0.0, 1.0);
    }
  }

  /** A count out of a larger positive count is a fraction in [0, 1]. */
  lemma RatioInUnit(a: nat, b: nat)
    requires 1 <= b && a <= b
    ensures 0.0 <= a as real / b as real <= 1.0
  {
    assert (a as real / b as real) * b as real == a as real;
  }

  predicate SnapshotOk(s: Snapshot) {
    && MinScore <= s.avgEngagement <= 1.0
    && MinScore <= s.peakEngagement <= 1.0
    && 0.0 <= s.highEngagementRatio <= 1.0
  }

  // ---------------------------------------------------------------------
  // Prompt context: the three strongest periods

  /** Sort order of `sort(key=(avg_engagement, timestamp), reverse=True)`:
      `a` may come before `b` when its key is not smaller. */
  function StrongerPeriod(a: LtmEntry, b: LtmEntry): bool {
    a.avgEngagement > b.avgEngagement
    || (a.avgEngagement == b.avgEngagement && StrLe(b.timestamp, a.timestamp))
  }

  lemma StrongerPeriodOrders()
    ensures TotalPreorder(StrongerPeriod)
  {
    forall a: LtmEntry, b: LtmEntry ensures StrongerPeriod(a, b) || StrongerPeriod(b, a) {
      StrLeTotal(a.timestamp, b.timestamp);
    }
    forall a: LtmEntry, b: LtmEntry, c: LtmEntry | StrongerPeriod(a, b) && StrongerPeriod(b, c)
      ensures StrongerPeriod(a, c)
    {
      if a.avgEngagement == b.avgEngagement == c.avgEngagement {
        StrLeTrans(c.timestamp, b.timestamp, a.timestamp);
      }
    }
  }

  /** `sorted_ltm[:3]`: the records the snapshot prompt quotes. */
  function PromptPeriods(es: seq<LtmEntry>): seq<LtmEntry> {
    Take(Sort(es, StrongerPeriod), 3)
  }

  /** The prompt quotes three records (fewer when there are fewer), strongest
      first, and no record left out is stronger than one quoted. */
  lemma PromptPeriodsAreTop(es: seq<LtmEntry>)
    ensures var r := PromptPeriods(es);
            && |r| == (if |es| < 3 then |es| else 3)
            && multiset(r) <= multiset(es)
            && SortedBy(r, StrongerPeriod)
            && forall i, e :: 0 <= i < |r| && e in multiset(es) - multiset(r) ==> StrongerPeriod(r[i], e)
  {
    StrongerPeriodOrders();
    var sorted := Sort(es, StrongerPeriod);
    SortSorted(es, StrongerPeriod);
    var r := Take(sorted, 3);
    SortedPrefixTop(sorted, |r|, StrongerPeriod);
    assert r == sorted[..|r|] && multiset(sorted) == multiset(es);
    assert |sorted| == |multiset(sorted)| == |multiset(es)| == |es|;
  }

  // ---------------------------------------------------------------------
  // Transitions

  /** `update_user_persona_snapshot(u)`: nothing without long-term records
      or when the reply or its reading raised; otherwise the user's snapshot
      is deleted and added again under `persona_{u}`. */
  function SnapshotStep(m: Memory, u: string, reply: LlmReply, decode: string -> Decoded, clock: Clock): (r: Memory)
    ensures r.stm == m.stm && r.ltm == m.ltm
    ensures m.ltm.Select(LtmOf(u)) == [] ==> r == m
    ensures reply.Raised? ==> r == m
    ensures ObjectOf(reply, decode, SnapshotFallback).None? ==> r == m
    ensures Converted(ObjectOf(reply, decode, SnapshotFallback), SnapshotConverted).None? ==> r == m
  {
    var sel := m.ltm.Select(LtmOf(u));
    if sel == [] then m
    else
      match Converted(ObjectOf(reply, decode, SnapshotFallback), SnapshotConverted)
      case None => m
      case Some(a) => Rebuilt(m, u, a, clock)
  }

  /** A rebuild that goes ahead with the analysis `a`: the user's snapshot
      is deleted and added again from all of the user's long-term records. */
  function Rebuilt(m: Memory, u: string, a: JsonObject, clock: Clock): Memory
    requires m.ltm.Select(LtmOf(u)) != []
  {
    var s := NewSnapshot(u, m.ltm.RowsOf(m.ltm.Select(LtmOf(u))), a, clock);
    m.(snapshots := m.snapshots.Delete(SnapshotId(u)).Add(SnapshotId(u), s))
  }

  /** The short-term memory after the posts `batch` are marked processed by
      deleting and re-adding each: they move to the end in batch order and
      read "true", and nothing else changes. */
  function Flipped(t: Table<StmEntry>, batch: seq<string>): (r: Table<StmEntry>)
    requires forall id :: id in batch ==> id in t.rows
  {
    Table(WithoutAll(t.ids, batch) + batch,
          map k | k in t.rows :: if k in batch then t.rows[k].(processed := "true") else t.rows[k])
  }

  /** `compress_user_stm_to_ltm(u)`: with five or more unprocessed posts
      and a usable reply, one long-term record is added, every post of the
      batch is marked processed, and the snapshot is rebuilt. */
  function CompressStep(m: Memory, u: string, reply: LlmReply, snapshotReply: LlmReply,
                        decode: string -> Decoded, clock: Clock): (r: Memory)
    requires m.stm.Valid()
    ensures |Backlog(m.stm, u)| < CompressionBatch ==> r == m
    ensures reply.Raised? ==> r == m
    ensures ObjectOf(reply, decode, LtmFallback).None? ==> r == m
    ensures Converted(ObjectOf(reply, decode, LtmFallback), LtmConverted).None? ==> r == m
  {
    var batch := Backlog(m.stm, u);
    if |batch| < CompressionBatch then m
    else
      match Converted(ObjectOf(reply, decode, LtmFallback), LtmConverted)
      case None => m
      case Some(a) => SnapshotStep(Compressed(m, u, a, clock), u, snapshotReply, decode, clock)
  }

  /** A compression that goes ahead with the analysis `a`, before the
      snapshot rebuild: one long-term record is added and the backlog is
      marked processed. */
  function Compressed(m: Memory, u: string, a: JsonObject, clock: Clock): Memory
    requires m.stm.Valid() && |Backlog(m.stm, u)| >= CompressionBatch
  {
    var batch := Backlog(m.stm, u);
    var e := NewLtmEntry(u, ScoresOf(m.stm, batch), a, clock);
    Memory(Flipped(m.stm, batch), m.ltm.Add(LtmId(u, clock), e), m.snapshots)
  }

  /** `add_user_post_to_memory`: without a model client nothing happens; a
      reply that raised (or is JSON but not an object) stores nothing; else
      the analysed post is added unprocessed, and the user's backlog is
      compressed once it holds five or more posts. */
  function RecordStep(m: Memory, hasLlm: bool, u: string, post: string, topic: string, postType: string,
                      data: map<string, int>, reply: LlmReply, compressReply: LlmReply,
                      snapshotReply: LlmReply, decode: string -> Decoded, clock: Clock): (r: Memory)
    requires m.stm.Valid()
    ensures !hasLlm ==> r == m
    ensures reply.Raised? ==> r == m
    ensures ObjectOf(reply, decode, StmFallback(topic, postType)).None? ==> r == m
  {
    if !hasLlm then m
    else
      match ObjectOf(reply, decode, StmFallback(topic, postType))
      case None => m
      case Some(a) =>
        var m1 := Recorded(m, u, post, topic, postType, data, a, clock);
        if |Backlog(m1.stm, u)| >= CompressionBatch
        then CompressStep(m1, u, compressReply, snapshotReply, decode, clock)
        else m1
  }

  /** The post analysed as `a` added to the short-term memory, unprocessed. */
  function Recorded(m: Memory, u: string, post: string, topic: string, postType: string,
                    data: map<string, int>, a: JsonObject, clock: Clock): Memory
  {
    m.(stm := m.stm.Add(StmId(u, clock), NewStmEntry(u, post, topic, postType, data, a, clock)))
  }
}
