/** What the persona transitions guarantee: the well-formedness they keep,
    the compression trigger, what a compression consumes and produces, and
    the one-snapshot-per-user rule. */
module PersonaLaws {
  import opened Text
  import opened VectorStore
  import opened Engagement
  import opened LlmJson
  import opened PersonaMemory

  /** Every stored score is a score, every flag reads "false" or "true",
      every long-term record carries the figures of a batch in range, and
      every snapshot sits under its user's id with metrics in range. */
  ghost predicate MemValid(m: Memory) {
    && m.stm.Valid() && m.ltm.Valid() && m.snapshots.Valid()
    && (forall id :: id in m.stm.rows ==>
          MinScore <= m.stm.rows[id].engagementScore <= 1.0
          && (m.stm.rows[id].processed == "false" || m.stm.rows[id].processed == "true"))
    && (forall id :: id in m.ltm.rows ==> LtmEntryOk(m.ltm.rows[id]))
    && (forall id :: id in m.snapshots.rows ==>
          id == SnapshotId(m.snapshots.rows[id].userId) && SnapshotOk(m.snapshots.rows[id]))
  }

  /** A user has at most one snapshot, stored under `persona_{user}`. */
  lemma AtMostOneSnapshot(m: Memory, a: string, b: string)
    requires MemValid(m) && a in m.snapshots.rows && b in m.snapshots.rows
    requires m.snapshots.rows[a].userId == m.snapshots.rows[b].userId
    ensures a == b && a == SnapshotId(m.snapshots.rows[a].userId)
  {
  }

  // ---------------------------------------------------------------------
  // Marking a batch processed

  lemma NoDupConcat(a: seq<string>, b: seq<string>)
    requires NoDup(a) && NoDup(b) && forall x :: x in a ==> x !in b
    ensures NoDup(a + b)
  {
    forall i, j | 0 <= i < j < |a + b| ensures (a + b)[i] != (a + b)[j] {
      if i < |a| && j >= |a| {
        assert (a + b)[i] in a && (a + b)[j] == b[j - |a|];
      }
    }
  }

  /** Marking a batch of stored, distinct posts keeps the store well formed,
      keeps every id, marks exactly the batch, and changes nothing else. */
  lemma FlippedFacts(t: Table<StmEntry>, batch: seq<string>)
    requires t.Valid() && NoDup(batch) && forall id :: id in batch ==> id in t.rows
    ensures var f := Flipped(t, batch);
            && f.Valid()
            && (forall id :: id in f.rows <==> id in t.rows)
            && (forall id :: id in batch ==> f.rows[id] == t.rows[id].(processed := "true"))
            && (forall id :: id in t.rows && id !in batch ==> f.rows[id] == t.rows[id])
  {
    NoDupConcat(WithoutAll(t.ids, batch), batch);
  }

  /** Flipping an empty batch changes nothing. */
  lemma FlippedNothing(t: Table<StmEntry>)
    ensures Flipped(t, []) == t
  {
    WithoutAllNone(t.ids);
    var f := Flipped(t, []);
    assert f.ids == t.ids;
    assert f.rows == t.rows;
  }

  /** FlipStep at position `i` of a batch without duplicates. */
  lemma FlipAt(t: Table<StmEntry>, batch: seq<string>, i: nat)
    requires NoDup(batch) && (forall id :: id in batch ==> id in t.rows) && i < |batch|
    ensures forall id :: id in batch[..i] ==> id in t.rows
    ensures var f := Flipped(t, batch[..i]);
            && batch[i] in f.rows
            && Flipped(t, batch[..i + 1]) == f.Delete(batch[i]).Add(batch[i], f.rows[batch[i]].(processed := "true"))
  {
    assert batch[..i + 1] == batch[..i] + [batch[i]];
    FlipStep(t, batch[..i], batch[i]);
  }

  /** One more turn of the marking loop: deleting the next post and adding
      it back marked extends the marked prefix by that post. */
  lemma FlipStep(t: Table<StmEntry>, b: seq<string>, x: string)
    requires x !in b && x in t.rows && forall id :: id in b ==> id in t.rows
    ensures var f := Flipped(t, b);
            && x in f.rows
            && Flipped(t, b + [x]) == f.Delete(x).Add(x, f.rows[x].(processed := "true"))
  {
    var f := Flipped(t, b);
    var h := Flipped(t, b + [x]);
    assert f.rows[x] == t.rows[x];
    var g := f.Delete(x).Add(x, f.rows[x].(processed := "true"));
    assert g.ids == h.ids by {
      WithoutMovesLast(t.ids, b, x);
    }
    assert g.rows == h.rows by {
      FlipStepRows(t, b, x);
    }
  }

  /** The rows after one more turn of the marking loop. */
  lemma FlipStepRows(t: Table<StmEntry>, b: seq<string>, x: string)
    requires x !in b && x in t.rows && forall id :: id in b ==> id in t.rows
    ensures var f := Flipped(t, b).rows;
            (f - {x})[x := t.rows[x].(processed := "true")] == Flipped(t, b + [x]).rows
  {
    var f := Flipped(t, b).rows;
    var g := (f - {x})[x := t.rows[x].(processed := "true")];
    var h := Flipped(t, b + [x]).rows;
    assert forall k :: k in g <==> k in h;
    forall k | k in h ensures g[k] == h[k] {
      if k != x {
        assert (k in b + [x]) == (k in b);
      }
    }
  }

  /** After the user's backlog is marked, the user has no backlog. */
  lemma FlippedBacklogEmpty(t: Table<StmEntry>, u: string)
    requires t.Valid()
    ensures var batch := Backlog(t, u);
            (forall id :: id in batch ==> id in t.rows)
            && Backlog(Flipped(t, batch), u) == []
  {
    var batch := Backlog(t, u);
    var f := Flipped(t, batch);
    forall id | id in f.ids && id in f.rows ensures !UnprocessedOf(u)(f.rows[id]) {
      if id !in batch {
        assert f.rows[id] == t.rows[id];
        assert id in t.ids;
      }
    }
    SelectFromNone(f.ids, f.rows, UnprocessedOf(u));
  }

  // ---------------------------------------------------------------------
  // Snapshot rebuild

  /** A rebuild with a usable reply stores the user's snapshot under
      `persona_{u}` and leaves every other snapshot as it was. */
  lemma SnapshotReplaces(m: Memory, u: string, reply: LlmReply, decode: string -> Decoded, clock: Clock)
    requires m.snapshots.Valid()
    requires m.ltm.Select(LtmOf(u)) != [] && Converted(ObjectOf(reply, decode, SnapshotFallback), SnapshotConverted).Some?
    ensures var r := SnapshotStep(m, u, reply, decode, clock);
            && SnapshotId(u) in r.snapshots.rows
            && r.snapshots.rows[SnapshotId(u)].userId == u
            && (forall k :: k in r.snapshots.rows <==> k in m.snapshots.rows || k == SnapshotId(u))
            && (forall k :: k in m.snapshots.rows && k != SnapshotId(u) ==> r.snapshots.rows[k] == m.snapshots.rows[k])
  {
  }

  /** A rebuild that goes ahead keeps the memory well formed: the new
      snapshot is built from well-formed records and stored under its
      user's id. */
  lemma RebuiltKeepsValid(m: Memory, u: string, a: JsonObject, clock: Clock)
    requires MemValid(m) && m.ltm.Select(LtmOf(u)) != []
    ensures MemValid(Rebuilt(m, u, a, clock))
  {
    var es := m.ltm.RowsOf(m.ltm.Select(LtmOf(u)));
    UserRecordsOk(m, u);
    StoredSnapshotValid(m, NewSnapshot(u, es, a, clock));
  }

  /** The records a rebuild reads are well formed. */
  lemma UserRecordsOk(m: Memory, u: string)
    requires forall id :: id in m.ltm.rows ==> LtmEntryOk(m.ltm.rows[id])
    ensures var es := m.ltm.RowsOf(m.ltm.Select(LtmOf(u)));
            forall i :: 0 <= i < |es| ==> LtmEntryOk(es[i])
  {
    var sel := m.ltm.Select(LtmOf(u));
    forall i | 0 <= i < |sel| ensures LtmEntryOk(m.ltm.rows[sel[i]]) {
      assert sel[i] in sel;
    }
  }

  /** A well-formed snapshot stored under its user's id keeps the memory
      well formed. */
  lemma StoredSnapshotValid(m: Memory, s: Snapshot)
    requires MemValid(m) && SnapshotOk(s)
    ensures var id := SnapshotId(s.userId);
            MemValid(m.(snapshots := m.snapshots.Delete(id).Add(id, s)))
  {
  }

  lemma SnapshotKeepsValid(m: Memory, u: string, reply: LlmReply, decode: string -> Decoded, clock: Clock)
    requires MemValid(m)
    ensures MemValid(SnapshotStep(m, u, reply, decode, clock))
  {
    if m.ltm.Select(LtmOf(u)) != [] && Converted(ObjectOf(reply, decode, SnapshotFallback), SnapshotConverted).Some? {
      RebuiltKeepsValid(m, u, ObjectOf(reply, decode, SnapshotFallback).value, clock);
    }
  }

  // ---------------------------------------------------------------------
  // Compression

  /** What a compression does when it goes through: one long-term record
      with the batch's figures is added; every post of the batch, and only
      those, is marked processed; the user's backlog is then empty. */
  lemma CompressConsumesBacklog(m: Memory, u: string, reply: LlmReply, snapshotReply: LlmReply,
                                decode: string -> Decoded, clock: Clock)
    requires MemValid(m)
    requires |Backlog(m.stm, u)| >= CompressionBatch && Converted(ObjectOf(reply, decode, LtmFallback), LtmConverted).Some?
    ensures var batch := Backlog(m.stm, u);
            var r := CompressStep(m, u, reply, snapshotReply, decode, clock);
            && (forall id :: id in batch ==> id in m.stm.rows)
            && r.ltm == m.ltm.Add(LtmId(u, clock),
                                  NewLtmEntry(u, ScoresOf(m.stm, batch), ObjectOf(reply, decode, LtmFallback).value, clock))
            && (forall id :: id in r.stm.rows <==> id in m.stm.rows)
            && (forall id :: id in batch ==> r.stm.rows[id] == m.stm.rows[id].(processed := "true"))
            && (forall id :: id in m.stm.rows && id !in batch ==> r.stm.rows[id] == m.stm.rows[id])
            && Backlog(r.stm, u) == []
  {
    var batch := Backlog(m.stm, u);
    var m1 := Compressed(m, u, ObjectOf(reply, decode, LtmFallback).value, clock);
    assert CompressStep(m, u, reply, snapshotReply, decode, clock) == SnapshotStep(m1, u, snapshotReply, decode, clock);
    FlippedFacts(m.stm, batch);
    FlippedBacklogEmpty(m.stm, u);
  }

  /** The compression record's figures: the batch size, the high-tier
      count, and an average between the floor score and the peak. */
  lemma CompressRecordFigures(m: Memory, u: string, a: JsonObject, clock: Clock)
    requires MemValid(m) && |Backlog(m.stm, u)| >= CompressionBatch
    ensures var batch := Backlog(m.stm, u);
            var scores := ScoresOf(m.stm, batch);
            var e := NewLtmEntry(u, scores, a, clock);
            && e.postCount == |batch| >= CompressionBatch
            && e.highEngagementCount == |High(scores)|
            && (e.engagementTrend == "improving" <==> |High(scores)| > |Low(scores)|)
            && LtmEntryOk(e)
  {
    var batch := Backlog(m.stm, u);
    var scores := ScoresOf(m.stm, batch);
    assert Within(scores, MinScore, 1.0) by {
      forall i | 0 <= i < |scores| ensures MinScore <= scores[i] <= 1.0 {
        assert batch[i] in batch;
      }
    }
  }

  /** A second compression right after one that went through finds no
      backlog and changes nothing. */
  lemma CompressTwice(m: Memory, u: string, reply: LlmReply, snapshotReply: LlmReply,
                      reply2: LlmReply, snapshotReply2: LlmReply, decode: string -> Decoded,
                      clock: Clock, clock2: Clock)
    requires MemValid(m)
    requires |Backlog(m.stm, u)| >= CompressionBatch && Converted(ObjectOf(reply, decode, LtmFallback), LtmConverted).Some?
    ensures var r := CompressStep(m, u, reply, snapshotReply, decode, clock);
            r.stm.Valid() && CompressStep(r, u, reply2, snapshotReply2, decode, clock2) == r
  {
    CompressConsumesBacklog(m, u, reply, snapshotReply, decode, clock);
    FlippedFacts(m.stm, Backlog(m.stm, u));
  }

  /** Marking a batch and adding a record in range keeps the memory well formed. */
  lemma CompressedValid(m: Memory, batch: seq<string>, id: string, e: LtmEntry)
    requires MemValid(m) && NoDup(batch) && (forall k :: k in batch ==> k in m.stm.rows)
    requires LtmEntryOk(e)
    ensures MemValid(Memory(Flipped(m.stm, batch), m.ltm.Add(id, e), m.snapshots))
  {
    FlippedFacts(m.stm, batch);
    var f := Flipped(m.stm, batch);
    forall k | k in f.rows
      ensures MinScore <= f.rows[k].engagementScore <= 1.0 && f.rows[k].processed in {"false", "true"}
    {
      if k in batch {
        assert f.rows[k] == m.stm.rows[k].(processed := "true");
      }
    }
    var l := m.ltm.Add(id, e);
    assert forall k :: k in l.rows ==> LtmEntryOk(l.rows[k]);
  }

  /** Adding the record of the user's backlog and marking the backlog
      processed keeps the memory well formed. */
  lemma CompressedKeepsValid(m: Memory, u: string, a: JsonObject, clock: Clock)
    requires MemValid(m) && |Backlog(m.stm, u)| >= CompressionBatch
    ensures var batch := Backlog(m.stm, u);
            && NoDup(batch) && (forall k :: k in batch ==> k in m.stm.rows)
            && MemValid(Compressed(m, u, a, clock))
  {
    var batch := Backlog(m.stm, u);
    CompressRecordFigures(m, u, a, clock);
    CompressedValid(m, batch, LtmId(u, clock), NewLtmEntry(u, ScoresOf(m.stm, batch), a, clock));
  }

  lemma CompressKeepsValid(m: Memory, u: string, reply: LlmReply, snapshotReply: LlmReply,
                           decode: string -> Decoded, clock: Clock)
    requires MemValid(m)
    ensures MemValid(CompressStep(m, u, reply, snapshotReply, decode, clock))
  {
    if |Backlog(m.stm, u)| >= CompressionBatch && Converted(ObjectOf(reply, decode, LtmFallback), LtmConverted).Some? {
      var a := ObjectOf(reply, decode, LtmFallback).value;
      CompressedKeepsValid(m, u, a, clock);
      SnapshotKeepsValid(Compressed(m, u, a, clock), u, snapshotReply, decode, clock);
    }
  }

  // ---------------------------------------------------------------------
  // Recording a post

  /** Adding a post of user `u` under a new id appends that id to the
      user's backlog. */
  lemma AddExtendsBacklog(t: Table<StmEntry>, id: string, e: StmEntry, u: string)
    requires t.Valid() && id !in t.rows && e.userId == u && e.processed == "false"
    ensures Backlog(t.Add(id, e), u) == Backlog(t, u) + [id]
  {
    var t1 := t.Add(id, e);
    SelectFromAppend(t.ids, id, t1.rows, UnprocessedOf(u));
    SelectFromSameRows(t.ids, t1.rows, t.rows, UnprocessedOf(u));
  }

  /** Adding an unprocessed post with a score in range keeps the memory well formed. */
  lemma AddedPostValid(m: Memory, id: string, e: StmEntry)
    requires MemValid(m) && MinScore <= e.engagementScore <= 1.0 && e.processed == "false"
    ensures MemValid(m.(stm := m.stm.Add(id, e)))
  {
  }

  /** A recorded post is added, then the trigger is checked. */
  lemma RecordUnfolds(m: Memory, u: string, post: string, topic: string, postType: string,
                      data: map<string, int>, reply: LlmReply, compressReply: LlmReply,
                      snapshotReply: LlmReply, decode: string -> Decoded, clock: Clock)
    requires m.stm.Valid() && ObjectOf(reply, decode, StmFallback(topic, postType)).Some?
    ensures var a := ObjectOf(reply, decode, StmFallback(topic, postType)).value;
            var m1 := m.(stm := m.stm.Add(StmId(u, clock), NewStmEntry(u, post, topic, postType, data, a, clock)));
            var r := RecordStep(m, true, u, post, topic, postType, data, reply, compressReply,
                                snapshotReply, decode, clock);
            && (|Backlog(m1.stm, u)| >= CompressionBatch ==> r == CompressStep(m1, u, compressReply, snapshotReply, decode, clock))
            && (|Backlog(m1.stm, u)| < CompressionBatch ==> r == m1)
  {
  }

  /** Below five unprocessed posts, a post recorded under a new id joins the
      user's backlog and neither the long-term memory nor the snapshots
      change. */
  lemma RecordBelowTrigger(m: Memory, u: string, post: string, topic: string, postType: string,
                           data: map<string, int>, reply: LlmReply, compressReply: LlmReply,
                           snapshotReply: LlmReply, decode: string -> Decoded, clock: Clock)
    requires MemValid(m) && StmId(u, clock) !in m.stm.rows
    requires ObjectOf(reply, decode, StmFallback(topic, postType)).Some?
    requires |Backlog(m.stm, u)| + 1 < CompressionBatch
    ensures var r := RecordStep(m, true, u, post, topic, postType, data, reply, compressReply,
                                snapshotReply, decode, clock);
            && Backlog(r.stm, u) == Backlog(m.stm, u) + [StmId(u, clock)]
            && r.stm.rows[StmId(u, clock)].processed == "false"
            && r.ltm == m.ltm && r.snapshots == m.snapshots
  {
    var a := ObjectOf(reply, decode, StmFallback(topic, postType)).value;
    var e := NewStmEntry(u, post, topic, postType, data, a, clock);
    AddExtendsBacklog(m.stm, StmId(u, clock), e, u);
    RecordUnfolds(m, u, post, topic, postType, data, reply, compressReply, snapshotReply, decode, clock);
  }

  /** At five or more unprocessed posts, the post recorded under a new id
      is compressed together with the backlog: with a usable compression
      reply the user has no backlog left and one long-term record exists
      under this compression's id. */
  lemma RecordAtTrigger(m: Memory, u: string, post: string, topic: string, postType: string,
                        data: map<string, int>, reply: LlmReply, compressReply: LlmReply,
                        snapshotReply: LlmReply, decode: string -> Decoded, clock: Clock)
    requires MemValid(m) && StmId(u, clock) !in m.stm.rows
    requires ObjectOf(reply, decode, StmFallback(topic, postType)).Some?
    requires |Backlog(m.stm, u)| + 1 >= CompressionBatch
    requires Converted(ObjectOf(compressReply, decode, LtmFallback), LtmConverted).Some?
    ensures var r := RecordStep(m, true, u, post, topic, postType, data, reply, compressReply,
                                snapshotReply, decode, clock);
            && Backlog(r.stm, u) == []
            && StmId(u, clock) in r.stm.rows && r.stm.rows[StmId(u, clock)].processed == "true"
            && LtmId(u, clock) in r.ltm.rows
  {
    var a := ObjectOf(reply, decode, StmFallback(topic, postType)).value;
    var e := NewStmEntry(u, post, topic, postType, data, a, clock);
    var m1 := m.(stm := m.stm.Add(StmId(u, clock), e));
    AddExtendsBacklog(m.stm, StmId(u, clock), e, u);
    RecordUnfolds(m, u, post, topic, postType, data, reply, compressReply, snapshotReply, decode, clock);
    AddedPostValid(m, StmId(u, clock), e);
    assert StmId(u, clock) in Backlog(m1.stm, u);
    CompressConsumesBacklog(m1, u, compressReply, snapshotReply, decode, clock);
  }

  /** Recording a post keeps the memory well formed. */
  lemma RecordKeepsValid(m: Memory, hasLlm: bool, u: string, post: string, topic: string, postType: string,
                         data: map<string, int>, reply: LlmReply, compressReply: LlmReply,
                         snapshotReply: LlmReply, decode: string -> Decoded, clock: Clock)
    requires MemValid(m)
    ensures MemValid(RecordStep(m, hasLlm, u, post, topic, postType, data, reply, compressReply,
                                snapshotReply, decode, clock))
  {
    if hasLlm && ObjectOf(reply, decode, StmFallback(topic, postType)).Some? {
      var a := ObjectOf(reply, decode, StmFallback(topic, postType)).value;
      var m1 := Recorded(m, u, post, topic, postType, data, a, clock);
      RecordedKeepsValid(m, u, post, topic, postType, data, a, clock);
      if |Backlog(m1.stm, u)| >= CompressionBatch {
        CompressKeepsValid(m1, u, compressReply, snapshotReply, decode, clock);
      }
    }
  }

  /** Adding an analysed post keeps the memory well formed. */
  lemma RecordedKeepsValid(m: Memory, u: string, post: string, topic: string, postType: string,
                           data: map<string, int>, a: JsonObject, clock: Clock)
    requires MemValid(m)
    ensures MemValid(Recorded(m, u, post, topic, postType, data, a, clock))
  {
    AddedPostValid(m, StmId(u, clock), NewStmEntry(u, post, topic, postType, data, a, clock));
  }
}
