/** The `PersonaEvolutionSystem` object: six vector-store collections that
    its methods update in place. The memory methods follow the transition
    functions of `PersonaMemory` step by step (the processed-flag loop of a
    compression among them); the memory-feeder methods add context items,
    count their uses and retrieve the ones relevant to a query. */
module Persona {
  import opened Wrappers
  import opened Text
  import opened VectorStore
  import opened Engagement
  import opened LlmJson
  import opened PersonaMemory
  import opened PersonaLaws

  // ---------------------------------------------------------------------
  // Memory-feeder items

  /** One row of the user-context, company-info or achievements collection. */
  datatype ContextItem =
    | UserContext(userId: string, contextType: string, title: string, content: string,
                  tags: seq<string>, importance: real, timestamp: string, usageCount: nat)
    | CompanyInfo(userId: string, companyName: string, infoType: string, title: string,
                  content: string, relevance: real, timestamp: string, usageCount: nat)
    | Achievement(userId: string, achievementType: string, title: string, content: string,
                  impact: string, date: string, skillsUsed: seq<string>, timestamp: string,
                  usageCount: nat)

  /** The collection an item lives in. */
  datatype ContextStore = UserContextStore | CompanyInfoStore | AchievementsStore

  predicate InStore(store: ContextStore, e: ContextItem) {
    match store
    case UserContextStore => e.UserContext?
    case CompanyInfoStore => e.CompanyInfo?
    case AchievementsStore => e.Achievement?
  }

  /** A collection holding only items of its own kind. */
  ghost predicate StoreOk(store: ContextStore, t: Table<ContextItem>) {
    t.Valid() && forall id :: id in t.rows ==> InStore(store, t.rows[id])
  }

  function ContextId(u: string, clock: Clock): string {
    "context_" + u + "_" + NatStr(clock.seconds)
  }

  function CompanyId(u: string, clock: Clock): string {
    "company_" + u + "_" + NatStr(clock.seconds)
  }

  function AchievementId(u: string, clock: Clock): string {
    "achievement_" + u + "_" + NatStr(clock.seconds)
  }

  /** An optional line of an achievement's document: absent when `value` is empty. */
  function OptionalLine(name: string, value: string): (r: string)
    ensures r == [] <==> value == []
    ensures value != [] ==> StartsWith(r, "\n" + name + ": ")
  {
    if value == [] then [] else "\n" + name + ": " + value
  }

  function AchievementHeader(title: string, description: string): string {
    "Achievement: " + title + "\nDescription: " + description
  }

  /** The stored document of an achievement: the title and description,
      then the impact, date and skills lines for those that are given. */
  function AchievementContent(title: string, description: string, impact: string,
                              date: string, skills: seq<string>): (r: string)
    ensures StartsWith(r, AchievementHeader(title, description))
    ensures r == AchievementHeader(title, description) <==> impact == [] && date == [] && skills == []
  {
    var h := AchievementHeader(title, description);
    var r := h + OptionalLine("Impact", impact) + OptionalLine("Date", date)
             + (if skills == [] then [] else "\nSkills Used: " + Join(skills, ", "));
    assert r[..|h|] == h;
    r
  }

  /** `update_context_usage`: the item `id` has its use count raised by one
      and is stored again, which moves it to the end of the collection; an
      id the collection does not hold changes nothing. */
  function Bumped(t: Table<ContextItem>, id: string): (r: Table<ContextItem>)
    ensures t.Valid() ==> r.Valid()
    ensures forall k :: k in r.rows <==> k in t.rows
    ensures id in t.rows ==> r.rows[id] == t.rows[id].(usageCount := t.rows[id].usageCount + 1)
    ensures forall k :: k in t.rows && k != id ==> r.rows[k] == t.rows[k]
    ensures id in t.rows && t.Valid() ==> r.ids == Without(t.ids, id) + [id]
    ensures id !in t.rows && t.Valid() ==> r == t
  {
    if id in t.rows then t.Delete(id).Add(id, t.rows[id].(usageCount := t.rows[id].usageCount + 1))
    else t
  }

  lemma BumpedOk(store: ContextStore, t: Table<ContextItem>, id: string)
    requires StoreOk(store, t)
    ensures StoreOk(store, Bumped(t, id))
  {
  }

  function OwnedBy(u: string): ContextItem -> bool {
    (e: ContextItem) => e.userId == u
  }

  /** One query of `get_relevant_context`: the first `n` items of the
      store's ranking that belong to user `u`. */
  function Relevant(t: Table<ContextItem>, u: string, ranking: seq<string>, n: nat): (r: seq<ContextItem>)
    ensures |r| <= n
    ensures forall i :: 0 <= i < |r| ==> r[i].userId == u && r[i] in t.rows.Values
  {
    var ids := t.Query(ranking, OwnedBy(u), n);
    var r := t.RowsOf(ids);
    assert forall i :: 0 <= i < |r| ==> r[i] == t.rows[ids[i]];
    r
  }

  /** Fewer than `n` results means every ranked item of the user was returned. */
  lemma RelevantIsComplete(t: Table<ContextItem>, u: string, ranking: seq<string>, n: nat, id: string)
    requires id in ranking && id in t.rows && t.rows[id].userId == u
    requires |Relevant(t, u, ranking, n)| < n
    ensures t.rows[id] in Relevant(t, u, ranking, n)
  {
    var all := SelectFrom(ranking, t.rows, OwnedBy(u));
    assert id in all;
    assert Take(all, n) == all;
    var k :| 0 <= k < |all| && all[k] == id;
    assert Relevant(t, u, ranking, n)[k] == t.rows[id];
  }

  /** What `get_relevant_context` returns. */
  datatype RelevantContext = RelevantContext(
    userContext: seq<ContextItem>,
    companyInfo: seq<ContextItem>,
    achievements: seq<ContextItem>)

  // ---------------------------------------------------------------------
  // The system object

  class PersonaEvolutionSystem {
    /** Whether a language-model client was configured. */
    const hasLlm: bool
    var stm: Table<StmEntry>
    var ltm: Table<LtmEntry>
    var snapshots: Table<Snapshot>
    var userContext: Table<ContextItem>
    var companyInfo: Table<ContextItem>
    var achievements: Table<ContextItem>

    ghost predicate Valid()
      reads this
    {
      && MemValid(State())
      && StoreOk(UserContextStore, userContext)
      && StoreOk(CompanyInfoStore, companyInfo)
      && StoreOk(AchievementsStore, achievements)
    }

    /** The three persona-memory collections as one value. */
    function State(): Memory
      reads this
    {
      Memory(stm, ltm, snapshots)
    }

    /** A system over empty collections. */
    constructor(hasLlm: bool)
      ensures Valid() && this.hasLlm == hasLlm
      ensures stm.ids == [] && ltm.ids == [] && snapshots.ids == []
      ensures userContext.ids == [] && companyInfo.ids == [] && achievements.ids == []
    {
      this.hasLlm := hasLlm;
      stm := Table([], map[]);
      ltm := Table([], map[]);
      snapshots := Table([], map[]);
      userContext := Table([], map[]);
      companyInfo := Table([], map[]);
      achievements := Table([], map[]);
    }

    /** `update_user_persona_snapshot`: the user's snapshot is deleted and
        added again from all of the user's long-term records. */
    method UpdatePersonaSnapshot(u: string, reply: LlmReply, decode: string -> Decoded, clock: Clock)
      requires Valid()
      modifies this
      ensures Valid()
      ensures State() == SnapshotStep(old(State()), u, reply, decode, clock)
      ensures userContext == old(userContext) && companyInfo == old(companyInfo)
      ensures achievements == old(achievements)
    {
      var sel := ltm.Select(LtmOf(u));
      if sel != [] {
        var parsed := Converted(ObjectOf(reply, decode, SnapshotFallback), SnapshotConverted);
        if parsed.Some? {
          PutSnapshot(u, parsed.value, clock);
        }
      }
    }

    /** The rebuild once the reply was read as `a`. */
    method PutSnapshot(u: string, a: JsonObject, clock: Clock)
      requires Valid() && ltm.Select(LtmOf(u)) != []
      modifies this
      ensures Valid()
      ensures State() == Rebuilt(old(State()), u, a, clock)
      ensures userContext == old(userContext) && companyInfo == old(companyInfo)
      ensures achievements == old(achievements)
    {
      RebuiltKeepsValid(State(), u, a, clock);
      var sel := ltm.Select(LtmOf(u));
      var s := NewSnapshot(u, ltm.RowsOf(sel), a, clock);
      Replace(SnapshotId(u), s);
    }

    /** Stores `s` under `id` in place of any snapshot kept there. */
    method Replace(id: string, s: Snapshot)
      modifies this
      ensures snapshots == old(snapshots).Delete(id).Add(id, s)
      ensures stm == old(stm) && ltm == old(ltm)
      ensures userContext == old(userContext) && companyInfo == old(companyInfo)
      ensures achievements == old(achievements)
    {
      snapshots := snapshots.Delete(id).Add(id, s);
    }

    /** The loop of `compress_user_stm_to_ltm` that marks a batch processed:
        each post is read, deleted and added again with the flag "true". */
    method MarkProcessed(batch: seq<string>)
      requires NoDup(batch) && forall id :: id in batch ==> id in stm.rows
      modifies this
      ensures stm == Flipped(old(stm), batch)
      ensures ltm == old(ltm) && snapshots == old(snapshots)
      ensures userContext == old(userContext) && companyInfo == old(companyInfo)
      ensures achievements == old(achievements)
    {
      var stm0 := stm;
      FlippedNothing(stm0);
      assert batch[..0] == [];
      var i := 0;
      while i < |batch|
        invariant 0 <= i <= |batch|
        invariant stm == Flipped(stm0, batch[..i])
        invariant ltm == old(ltm) && snapshots == old(snapshots)
        invariant userContext == old(userContext) && companyInfo == old(companyInfo)
        invariant achievements == old(achievements)
      {
        FlipAt(stm0, batch, i);
        FlipOne(batch[i]);
        i := i + 1;
      }
      assert batch[..|batch|] == batch;
    }

    /** One post of the batch: read, deleted, and added again flagged processed. */
    method FlipOne(id: string)
      requires id in stm.rows
      modifies this
      ensures stm == old(stm).Delete(id).Add(id, old(stm).rows[id].(processed := "true"))
      ensures ltm == old(ltm) && snapshots == old(snapshots)
      ensures userContext == old(userContext) && companyInfo == old(companyInfo)
      ensures achievements == old(achievements)
    {
      var row := stm.rows[id];
      stm := stm.Delete(id);
      stm := stm.Add(id, row.(processed := "true"));
    }

    /** `compress_user_stm_to_ltm`: with five or more unprocessed posts of
        the user and a usable analysis, a long-term record is added, the
        posts are marked processed, and the snapshot is refreshed. */
    method CompressUserStm(u: string, reply: LlmReply, snapshotReply: LlmReply,
                           decode: string -> Decoded, clock: Clock)
      requires Valid()
      modifies this
      ensures Valid()
      ensures State() == CompressStep(old(State()), u, reply, snapshotReply, decode, clock)
      ensures userContext == old(userContext) && companyInfo == old(companyInfo)
      ensures achievements == old(achievements)
    {
      var batch := stm.Select(UnprocessedOf(u));
      var parsed := Converted(ObjectOf(reply, decode, LtmFallback), LtmConverted);
      if |batch| >= CompressionBatch && parsed.Some? {
        CompressBatch(u, parsed.value, clock);
        UpdatePersonaSnapshot(u, snapshotReply, decode, clock);
      }
    }

    /** A compression that goes ahead with the analysis `a`: the record is
        added, then the batch is marked processed. */
    method CompressBatch(u: string, a: JsonObject, clock: Clock)
      requires Valid() && |Backlog(stm, u)| >= CompressionBatch
      modifies this
      ensures Valid()
      ensures State() == Compressed(old(State()), u, a, clock)
      ensures userContext == old(userContext) && companyInfo == old(companyInfo)
      ensures achievements == old(achievements)
    {
      CompressedKeepsValid(State(), u, a, clock);
      var batch := Backlog(stm, u);
      var e := NewLtmEntry(u, ScoresOf(stm, batch), a, clock);
      Commit(batch, LtmId(u, clock), e);
    }

    /** Stores the long-term entry `e` under `id` and marks `batch` processed. */
    method Commit(batch: seq<string>, id: string, e: LtmEntry)
      requires NoDup(batch) && forall b :: b in batch ==> b in stm.rows
      modifies this
      ensures stm == Flipped(old(stm), batch) && ltm == old(ltm).Add(id, e)
      ensures snapshots == old(snapshots)
      ensures userContext == old(userContext) && companyInfo == old(companyInfo)
      ensures achievements == old(achievements)
    {
      ltm := ltm.Add(id, e);
      MarkProcessed(batch);
    }

    /** `add_user_post_to_memory`: without a language-model client nothing
        happens; otherwise the analysed post is added and, once the user has
        five or more unprocessed posts, compressed with them. */
    method RecordPost(u: string, post: string, topic: string, postType: string,
                      data: map<string, int>, reply: LlmReply, compressReply: LlmReply,
                      snapshotReply: LlmReply, decode: string -> Decoded, clock: Clock)
      requires Valid()
      modifies this
      ensures Valid()
      ensures State() == RecordStep(old(State()), hasLlm, u, post, topic, postType, data,
                                    reply, compressReply, snapshotReply, decode, clock)
      ensures userContext == old(userContext) && companyInfo == old(companyInfo)
      ensures achievements == old(achievements)
    {
      var parsed := ObjectOf(reply, decode, StmFallback(topic, postType));
      if hasLlm && parsed.Some? {
        AddAnalysedPost(u, post, topic, postType, data, parsed.value, clock);
        var unprocessed := stm.Select(UnprocessedOf(u));
        if |unprocessed| >= CompressionBatch {
          CompressUserStm(u, compressReply, snapshotReply, decode, clock);
        }
      }
    }

    /** The post analysed as `a` is stored unprocessed. */
    method AddAnalysedPost(u: string, post: string, topic: string, postType: string,
                           data: map<string, int>, a: JsonObject, clock: Clock)
      requires Valid()
      modifies this
      ensures Valid()
      ensures State() == Recorded(old(State()), u, post, topic, postType, data, a, clock)
      ensures userContext == old(userContext) && companyInfo == old(companyInfo)
      ensures achievements == old(achievements)
    {
      var e := NewStmEntry(u, post, topic, postType, data, a, clock);
      AddedPostValid(State(), StmId(u, clock), e);
      stm := stm.Add(StmId(u, clock), e);
    }

    /** `get_engagement_insights`: figures over the scores of all of the
        user's posts, in collection order; none for a user without posts. */
    function EngagementInsights(u: string): (r: Option<Insights>)
      reads this
      requires Valid()
      ensures r.None? <==> stm.Select(StmOf(u)) == []
      ensures r.Some? ==>
                && r.value.totalPosts == |stm.Select(StmOf(u))|
                && MinScore <= r.value.avgEngagement <= r.value.peakEngagement <= 1.0
                && r.value.highPerformers <= r.value.totalPosts
    {
      var s := ScoresOf(stm, stm.Select(StmOf(u)));
      if s == [] then None
      else
        InsightsInRange(s);
        InsightsOf(s)
    }

    /** `add_user_context` */
    method AddUserContext(u: string, contextType: string, title: string, content: string,
                          tags: seq<string>, importance: real, clock: Clock) returns (id: string)
      requires Valid()
      modifies this
      ensures Valid() && id == ContextId(u, clock)
      ensures userContext == old(userContext).Add(id,
                UserContext(u, contextType, title, content, tags, importance, clock.iso, 0))
      ensures State() == old(State()) && companyInfo == old(companyInfo)
      ensures achievements == old(achievements)
    {
      id := ContextId(u, clock);
      userContext := userContext.Add(id, UserContext(u, contextType, title, content, tags, importance, clock.iso, 0));
    }

    /** `add_company_info` */
    method AddCompanyInfo(u: string, companyName: string, infoType: string, title: string,
                          content: string, relevance: real, clock: Clock) returns (id: string)
      requires Valid()
      modifies this
      ensures Valid() && id == CompanyId(u, clock)
      ensures companyInfo == old(companyInfo).Add(id,
                CompanyInfo(u, companyName, infoType, title, content, relevance, clock.iso, 0))
      ensures State() == old(State()) && userContext == old(userContext)
      ensures achievements == old(achievements)
    {
      id := CompanyId(u, clock);
      companyInfo := companyInfo.Add(id, CompanyInfo(u, companyName, infoType, title, content, relevance, clock.iso, 0));
    }

    /** `add_user_achievement` */
    method AddUserAchievement(u: string, achievementType: string, title: string, description: string,
                              impact: string, date: string, skills: seq<string>, clock: Clock)
      returns (id: string)
      requires Valid()
      modifies this
      ensures Valid() && id == AchievementId(u, clock)
      ensures achievements == old(achievements).Add(id,
                Achievement(u, achievementType, title,
                            AchievementContent(title, description, impact, date, skills),
                            impact, date, skills, clock.iso, 0))
      ensures State() == old(State()) && userContext == old(userContext)
      ensures companyInfo == old(companyInfo)
    {
      id := AchievementId(u, clock);
      var content := AchievementContent(title, description, impact, date, skills);
      achievements := achievements.Add(id, Achievement(u, achievementType, title, content, impact, date, skills, clock.iso, 0));
    }

    /** `update_context_usage` */
    method UpdateContextUsage(store: ContextStore, id: string)
      requires Valid()
      modifies this
      ensures Valid()
      ensures userContext == if store == UserContextStore then Bumped(old(userContext), id) else old(userContext)
      ensures companyInfo == if store == CompanyInfoStore then Bumped(old(companyInfo), id) else old(companyInfo)
      ensures achievements == if store == AchievementsStore then Bumped(old(achievements), id) else old(achievements)
      ensures State() == old(State())
    {
      match store
      case UserContextStore =>
        BumpedOk(store, userContext, id);
        userContext := Bumped(userContext, id);
      case CompanyInfoStore =>
        BumpedOk(store, companyInfo, id);
        companyInfo := Bumped(companyInfo, id);
      case AchievementsStore =>
        BumpedOk(store, achievements, id);
        achievements := Bumped(achievements, id);
    }

    /** `get_relevant_context`: up to `n` items of the user from each of the
        three collections, in the order of that collection's similarity
        ranking (`None` for a query that raised: the lists already filled
        are kept and the rest stay empty). */
    function GetRelevantContext(u: string, contextRanking: Option<seq<string>>,
                                companyRanking: Option<seq<string>>,
                                achievementRanking: Option<seq<string>>, n: nat): (r: RelevantContext)
      reads this
      requires Valid()
      ensures |r.userContext| <= n && |r.companyInfo| <= n && |r.achievements| <= n
      ensures forall i :: 0 <= i < |r.userContext| ==> r.userContext[i].userId == u && r.userContext[i].UserContext?
      ensures forall i :: 0 <= i < |r.companyInfo| ==> r.companyInfo[i].userId == u && r.companyInfo[i].CompanyInfo?
      ensures forall i :: 0 <= i < |r.achievements| ==> r.achievements[i].userId == u && r.achievements[i].Achievement?
      ensures contextRanking.None? ==> r == RelevantContext([], [], [])
      ensures companyRanking.None? ==> r.companyInfo == [] && r.achievements == []
      ensures achievementRanking.None? ==> r.achievements == []
    {
      match contextRanking
      case None => RelevantContext([], [], [])
      case Some(cr) =>
        var uc := Relevant(userContext, u, cr, n);
        match companyRanking
        case None => RelevantContext(uc, [], [])
        case Some(kr) =>
          var ci := Relevant(companyInfo, u, kr, n);
          match achievementRanking
          case None => RelevantContext(uc, ci, [])
          case Some(ar) => RelevantContext(uc, ci, Relevant(achievements, u, ar, n))
    }
  }
}
