/**
 Properties of the proposal stream handler: what each kind of chunk does,
 how the reply is built up over a stream, when the session completes, and
 that the in-place file table is always redrawn over exactly the lines it
 occupies.
 */
module ProposalProperties {
  import opened Wrappers
  import opened Proposal

  /** A chunk the transport delivered without an error. */
  predicate Clean(d: Delivery) {
    d.chunk.err.None?
  }

  /** A chunk that extends the reply once the proposal id is known. */
  predicate ReplyChunk(d: Delivery) {
    Clean(d) && (d.chunk.state == Replying || d.chunk.state == Revising)
  }

  /** The contents of a sequence of chunks, in arrival order. */
  function Concat(t: seq<Delivery>): (r: string)
    ensures |t| > 0 ==> t[0].chunk.content <= r
  {
    if |t| == 0 then "" else t[0].chunk.content + Concat(t[1..])
  }

  // ---------------------------------------------------------------------
  // One chunk at a time
  // ---------------------------------------------------------------------

  /**
   A chunk carrying an error fails the session and closes `done`, whatever
   state it is in; nothing else changes. On a session whose `done` is
   already closed, closing it again panics.
   */
  lemma ErrorChunkFails(m: Markers, s: Session, d: Delivery)
    requires !s.Panicked() && d.chunk.err.Some?
    ensures var f := Some(Transport(d.chunk.err.value));
      && (!s.done ==> Step(m, s, d) == s.(failure := f, done := true))
      && (s.done ==> Step(m, s, d) == s.(failure := f, panic := Some(ClosedTwice)))
  {
  }

  /** Before the proposal id is known, a chunk with empty content is a missing-id failure. */
  lemma EmptyFirstChunkFails(m: Markers, s: Session, d: Delivery)
    requires !s.Panicked() && !s.done && s.proposalId == ""
    requires Clean(d) && d.chunk.content == ""
    ensures Step(m, s, d) == s.(failure := Some(MissingProposalId), done := true)
  {
  }

  /**
   Before the proposal id is known, a chunk with content is the id, whatever
   its stream state: it becomes the root id too when there was none, and
   it never reaches the reply nor starts it.
   */
  lemma IdChunkIsAdopted(m: Markers, s: Session, d: Delivery)
    requires !s.Panicked() && s.proposalId == ""
    requires Clean(d) && d.chunk.content != "" && d.io.planSave.None?
    ensures Step(m, s, d) == s.(proposalId := d.chunk.content,
                                rootId := if s.rootId == "" then d.chunk.content else s.rootId)
    ensures Step(m, s, d).reply == s.reply && Step(m, s, d).replyStarted == s.replyStarted
  {
  }

  /** The id is saved with the plan state; when that fails, the session fails with the id adopted. */
  lemma IdSaveFailureFails(m: Markers, s: Session, d: Delivery)
    requires !s.Panicked() && !s.done && s.proposalId == ""
    requires Clean(d) && d.chunk.content != "" && d.io.planSave.Some?
    ensures var r := Step(m, s, d);
      r.proposalId == d.chunk.content && r.done && r.failure == Some(PlanStateSave(d.io.planSave.value))
  {
  }

  /**
   A Finished chunk marks the stream finished and leaves the reply alone;
   it closes `done` exactly when the files were already finished.
   */
  lemma FinishedChunk(m: Markers, s: Session, d: Delivery)
    requires !s.Panicked() && !s.done && s.proposalId != ""
    requires Clean(d) && d.chunk.state == Finished
    ensures var r := Step(m, s, d);
      && r.streamFinished && r.replyStarted
      && r.reply == s.reply && r.filesFinished == s.filesFinished
      && (r.done <==> s.filesFinished)
      && !r.Errored() == !s.Errored() && !r.Panicked()
  {
  }

  /** The two phase markers change nothing but mark the reply as started. */
  lemma PhaseMarkersAreNoOps(m: Markers, s: Session, d: Delivery)
    requires !s.Panicked() && s.proposalId != "" && Clean(d)
    requires (d.chunk.state == Describing && d.chunk.content == m.description)
          || (d.chunk.state == Building && d.chunk.content == m.build)
    ensures Step(m, s, d) == s.(replyStarted := true)
  {
  }

  /** A Describing chunk that is not the marker is the description payload. */
  predicate DescribesPayload(m: Markers, d: Delivery) {
    d.chunk.state == Describing && d.chunk.content != m.description
  }

  /** A Building chunk that is not the marker is a file fragment. */
  predicate BuildsPayload(m: Markers, d: Delivery) {
    d.chunk.state == Building && d.chunk.content != m.build
  }

  /**
   A description payload that does not decode fails the session, keeping
   whatever the decoder managed to fill in. One that
   decodes and is saved is stored, and the files count as finished from
   then on exactly when the plan announces no file to build.
   */
  lemma DescriptionPayload(m: Markers, s: Session, d: Delivery)
    requires !s.Panicked() && !s.done && s.proposalId != ""
    requires Clean(d) && DescribesPayload(m, d)
    ensures d.io.decoding.Malformed? ==>
      var r := Step(m, s, d);
      var partial := d.io.decoding.partial;
      && r.failure == Some(DescriptionParse(d.io.decoding.msg)) && r.done
      && r.desc == (if partial.Some? then partial else s.desc)
    ensures d.io.decoding.Decoded? && d.io.planSave.None? ==>
      var r := Step(m, s, d);
      && r.desc == Some(d.io.decoding.desc)
      && (r.filesFinished <==> s.filesFinished || !PlanHasFiles(d.io.decoding.desc))
      && r.done == s.done && r.streamFinished == s.streamFinished && r.reply == s.reply
    ensures d.io.decoding.Decoded? && d.io.planSave.Some? ==>
      var r := Step(m, s, d);
      && r.failure == Some(PlanStateSave(d.io.planSave.value)) && r.done
      && r.desc == Some(d.io.decoding.desc) && r.filesFinished == s.filesFinished
    ensures d.io.decoding.NullDesc? ==> Step(m, s, d).panic == Some(NilDescription)
  {
  }

  /**
   A file fragment: the files become finished exactly when the receiver
   reports a written file and as many finished paths as the plan lists;
   `done` is closed then exactly when the stream has finished too.
   */
  lemma FileFragment(m: Markers, s: Session, d: Delivery)
    requires !s.Panicked() && !s.done && s.proposalId != "" && s.desc.Some?
    requires Clean(d) && BuildsPayload(m, d) && d.io.file.err.None?
    ensures var r := Step(m, s, d);
      var fr := d.io.file;
      var completes := fr.wroteFile && |fr.finishedByPath| == |s.desc.value.files|;
      && r.finishedByPath == fr.finishedByPath
      && (r.filesFinished <==> s.filesFinished || completes)
      && (r.done <==> completes && s.streamFinished)
      && r.streamFinished == s.streamFinished && r.reply == s.reply && !r.Panicked()
  {
  }

  /**
   A file fragment the file-token receiver rejects fails the session and
   closes `done`, with or without a description; only the receiver's
   finished paths are taken over.
   */
  lemma FileTokenErrorFails(m: Markers, s: Session, d: Delivery)
    requires !s.Panicked() && !s.done && s.proposalId != ""
    requires Clean(d) && BuildsPayload(m, d) && d.io.file.err.Some?
    ensures var fr := d.io.file;
      Step(m, s, d) == s.(replyStarted := true, finishedByPath := fr.finishedByPath,
                          failure := Some(FileToken(fr.err.value)), done := true)
  {
  }

  /** An error-free file fragment that arrives before any description dereferences a nil description. */
  lemma FragmentWithoutDescriptionPanics(m: Markers, s: Session, d: Delivery)
    requires !s.Panicked() && s.proposalId != "" && s.desc.None?
    requires Clean(d) && BuildsPayload(m, d) && d.io.file.err.None?
    ensures Step(m, s, d).panic == Some(NilDescription)
  {
  }

  // ---------------------------------------------------------------------
  // Completion does not depend on arrival order
  // ---------------------------------------------------------------------

  /**
   Whether the Finished chunk or the file fragment that completes the files
   arrives first, the session ends up in the same state, and it is done
   exactly when the fragment completes the files (or it already was).
   */
  lemma CompletionOrderIndependent(m: Markers, s: Session, fin: Delivery, bld: Delivery)
    requires !s.Panicked() && s.proposalId != "" && s.desc.Some?
    requires !s.streamFinished && !s.filesFinished
    requires Clean(fin) && fin.chunk.state == Finished
    requires Clean(bld) && BuildsPayload(m, bld) && bld.io.file.err.None?
    ensures Step(m, Step(m, s, fin), bld) == Step(m, Step(m, s, bld), fin)
    ensures var fr := bld.io.file;
      var completes := fr.wroteFile && |fr.finishedByPath| == |s.desc.value.files|;
      Step(m, Step(m, s, fin), bld).done <==> s.done || completes
  {
  }

  // ---------------------------------------------------------------------
  // Counting finished paths means every file is finished
  // ---------------------------------------------------------------------

  /** No path is listed twice. */
  predicate Distinct(files: seq<string>) {
    forall i, j :: 0 <= i < j < |files| ==> files[i] != files[j]
  }

  /** The paths a plan lists. */
  function Elems(files: seq<string>): (r: set<string>)
    ensures forall f :: f in r <==> f in files
  {
    set f | f in files
  }

  lemma {:induction false} DistinctElemsCount(files: seq<string>)
    requires Distinct(files)
    ensures |Elems(files)| == |files|
  {
    if |files| > 0 {
      var rest := files[1..];
      assert Distinct(rest) by {
        forall i, j | 0 <= i < j < |rest| ensures rest[i] != rest[j] {
          assert rest[i] == files[i + 1] && rest[j] == files[j + 1];
        }
      }
      DistinctElemsCount(rest);
      assert files[0] !in Elems(rest);
      assert Elems(files) == {files[0]} + Elems(rest) by {
        assert files == [files[0]] + rest;
      }
    }
  }

  lemma SubsetOfSameSize(a: set<string>, b: set<string>)
    requires a <= b && |a| == |b|
    ensures a == b
  {
    if a != b {
      var x :| x in b && x !in a;
      assert a <= b - {x};
      assert |b - {x}| == |b| - 1;
      SubsetCardinality(a, b - {x});
    }
  }

  lemma SubsetCardinality(a: set<string>, b: set<string>)
    requires a <= b
    ensures |a| <= |b|
  {
    assert b == a + (b - a);
  }

  /**
   The handler only compares the number of finished paths with the number
   of planned files. When the plan lists each path once and only planned
   paths are ever finished, that count matches exactly when every planned
   file is finished.
   */
  lemma CountMeansAllFinished(files: seq<string>, finished: set<string>)
    requires Distinct(files) && finished <= Elems(files)
    ensures |finished| == |files| <==> Elems(files) <= finished
  {
    DistinctElemsCount(files);
    if |finished| == |files| {
      SubsetOfSameSize(finished, Elems(files));
    }
    if Elems(files) <= finished {
      assert finished == Elems(files);
    }
  }

  /** A file fragment finishes the files exactly when it is written and every planned path is finished. */
  lemma FragmentFinishesAllFiles(m: Markers, s: Session, d: Delivery)
    requires !s.Panicked() && !s.done && s.proposalId != "" && s.desc.Some?
    requires Clean(d) && BuildsPayload(m, d) && d.io.file.err.None?
    requires Distinct(s.desc.value.files) && d.io.file.finishedByPath <= Elems(s.desc.value.files)
    ensures Step(m, s, d).filesFinished
      <==> s.filesFinished || (d.io.file.wroteFile && Elems(s.desc.value.files) <= d.io.file.finishedByPath)
  {
    CountMeansAllFinished(s.desc.value.files, d.io.file.finishedByPath);
    FileFragment(m, s, d);
  }

  // ---------------------------------------------------------------------
  // The reply over a stream
  // ---------------------------------------------------------------------

  /**
   Once the id is known, Replying and Revising chunks append their contents
   to the reply in arrival order, and any of them starts the reply.
   */
  lemma {:induction false} ReplyAccumulates(m: Markers, s: Session, t: seq<Delivery>)
    requires !s.Panicked() && s.proposalId != ""
    requires forall i :: 0 <= i < |t| ==> ReplyChunk(t[i])
    ensures Run(m, s, t) == s.(reply := s.reply + Concat(t), replyStarted := s.replyStarted || |t| > 0)
    decreases |t|
  {
    if |t| > 0 {
      var s1 := Step(m, s, t[0]);
      assert s1.reply == s.reply + t[0].chunk.content;
      ReplyAccumulates(m, s1, t[1..]);
    }
  }

  /**
   A stream of one id chunk followed by Replying and Revising chunks leaves
   exactly the concatenation of those chunks in the reply (empty for none),
   and the id in `proposalId`.
   */
  lemma ReplyIsConcatenationOfChunks(m: Markers, rootId: string, id: Delivery, t: seq<Delivery>)
    requires Clean(id) && id.chunk.content != "" && id.io.planSave.None?
    requires forall i :: 0 <= i < |t| ==> ReplyChunk(t[i])
    ensures Run(m, Initial(rootId), [id] + t).reply == Concat(t)
    ensures Run(m, Initial(rootId), [id] + t).proposalId == id.chunk.content
    ensures Run(m, Initial(rootId), [id] + t).rootId == (if rootId == "" then id.chunk.content else rootId)
  {
    var s1 := Step(m, Initial(rootId), id);
    assert ([id] + t)[1..] == t;
    ReplyAccumulates(m, s1, t);
  }

  /** Handling two streams one after the other is handling their concatenation. */
  lemma {:induction false} RunAppend(m: Markers, s: Session, a: seq<Delivery>, b: seq<Delivery>)
    ensures Run(m, s, a + b) == Run(m, Run(m, s, a), b)
    decreases |a|
  {
    if |a| > 0 {
      assert (a + b)[0] == a[0];
      assert (a + b)[1..] == a[1..] + b;
      RunAppend(m, Step(m, s, a[0]), a[1..], b);
    } else {
      assert a + b == b;
    }
  }

  /**
   A stream that finishes without ever sending a description is not failed:
   the session stays open, waiting for the files, and only the user can
   leave it.
   */
  lemma FinishedWithoutDescriptionStaysOpen(
    m: Markers, rootId: string, id: Delivery, t: seq<Delivery>, fin: Delivery)
    requires Clean(id) && id.chunk.content != "" && id.io.planSave.None?
    requires forall i :: 0 <= i < |t| ==> ReplyChunk(t[i])
    requires Clean(fin) && fin.chunk.state == Finished
    ensures var r := Run(m, Initial(rootId), [id] + t + [fin]);
      r.streamFinished && !r.filesFinished && !r.done && !r.Errored() && r.reply == Concat(t)
  {
    ReplyIsConcatenationOfChunks(m, rootId, id, t);
    RunAppend(m, Initial(rootId), [id] + t, [fin]);
    var s := Run(m, Initial(rootId), [id] + t);
    ReplyAccumulates(m, Step(m, Initial(rootId), id), t);
    assert ([id] + t)[1..] == t;
    assert Run(m, s, [fin]) == Step(m, s, fin);
  }

  // ---------------------------------------------------------------------
  // Session invariant over well-ordered streams
  // ---------------------------------------------------------------------

  /**
   What every live session keeps: `done` is closed exactly when the session
   failed or completed, and while a plan with files is being built the
   render cursor holds the height of the table on screen.
   */
  predicate Good(s: Session) {
    !s.Panicked() ==>
      && (s.done <==> s.Errored() || s.Complete())
      && (!s.Errored() && s.desc.Some? && PlanHasFiles(s.desc.value) ==>
            s.tableLines == TableHeight(|s.desc.value.files|, s.filesFinished))
  }

  /** Chunks after which no description payload is expected: Finished, Building, and the description itself. */
  predicate ClosesDescribing(m: Markers, d: Delivery) {
    d.chunk.state == Finished || d.chunk.state == Building || DescribesPayload(m, d)
  }

  /**
   The stream order the protocol follows: the description arrives once,
   before any Building or Finished chunk.
   */
  predicate WellOrdered(m: Markers, t: seq<Delivery>) {
    forall i, j :: 0 <= i < j < |t| && ClosesDescribing(m, t[i]) ==> !DescribesPayload(m, t[j])
  }

  predicate NoDescription(m: Markers, t: seq<Delivery>) {
    forall j :: 0 <= j < |t| ==> !DescribesPayload(m, t[j])
  }

  /** One step keeps the invariant, unless a description arrives after the stream or the files finished. */
  lemma StepKeepsGood(m: Markers, s: Session, d: Delivery)
    requires Good(s)
    requires DescribesPayload(m, d) ==> !s.streamFinished && !s.filesFinished
    ensures Good(Step(m, s, d))
  {
  }

  /** The flags a step raises come from the chunks that close the Describing phase. */
  lemma StepRaisesFlags(m: Markers, s: Session, d: Delivery)
    ensures var r := Step(m, s, d);
      (r.streamFinished || r.filesFinished) ==>
        s.streamFinished || s.filesFinished || ClosesDescribing(m, d)
  {
  }

  lemma {:induction false} RunKeepsGood(m: Markers, s: Session, t: seq<Delivery>)
    requires Good(s) && WellOrdered(m, t)
    requires s.streamFinished || s.filesFinished ==> NoDescription(m, t)
    ensures Good(Run(m, s, t))
    decreases |t|
  {
    if |t| > 0 {
      StepKeepsGood(m, s, t[0]);
      var s1 := Step(m, s, t[0]);
      StepRaisesFlags(m, s, t[0]);
      var rest := t[1..];
      assert WellOrdered(m, rest) by {
        forall i, j | 0 <= i < j < |rest| && ClosesDescribing(m, rest[i])
          ensures !DescribesPayload(m, rest[j])
        {
          assert rest[i] == t[i + 1] && rest[j] == t[j + 1];
        }
      }
      if s1.streamFinished || s1.filesFinished {
        forall j | 0 <= j < |rest| ensures !DescribesPayload(m, rest[j]) {
          assert rest[j] == t[j + 1];
        }
      }
      RunKeepsGood(m, s1, rest);
    }
  }

  /**
   For every well-ordered stream, a session that neither failed nor
   panicked is done exactly when both the stream and the files finished:
   completion needs both flags, whichever came first.
   */
  lemma CompletionNeedsBothFlags(m: Markers, rootId: string, t: seq<Delivery>)
    requires WellOrdered(m, t)
    ensures var r := Run(m, Initial(rootId), t);
      !r.Panicked() && !r.Errored() ==> (r.done <==> r.streamFinished && r.filesFinished)
  {
    RunKeepsGood(m, Initial(rootId), t);
  }

  /**
   For every well-ordered stream, a file fragment arriving while a plan
   with files is being built moves up exactly over the table lines on
   screen. `RedrawLines` computes the table height for the current
   `filesFinished`, so this is the render-cursor part of `Good`: the
   cursor recorded by the previous draw matches that height.
   */
  lemma RedrawErasesTable(m: Markers, rootId: string, t: seq<Delivery>)
    requires WellOrdered(m, t)
    ensures var r := Run(m, Initial(rootId), t);
      !r.Panicked() && !r.Errored() && r.desc.Some? && PlanHasFiles(r.desc.value) ==>
        RedrawLines(r.filesFinished, |r.desc.value.files|) == r.tableLines
  {
    RunKeepsGood(m, Initial(rootId), t);
  }

  /**
   The order matters to the source: a description without files arriving
   after the Finished chunk finishes the files but never closes `done`.
   */
  lemma DescriptionAfterFinishedNeverCompletes(m: Markers, s: Session, d: Delivery)
    requires !s.Panicked() && !s.done && !s.Errored() && s.proposalId != ""
    requires s.streamFinished && !s.filesFinished
    requires Clean(d) && DescribesPayload(m, d) && d.io.planSave.None?
    requires d.io.decoding.Decoded? && !PlanHasFiles(d.io.decoding.desc)
    ensures Step(m, s, d).Complete() && !Step(m, s, d).done
  {
  }

  /** An error closes `done` for good and the failure is never cleared by later chunks. */
  lemma ErrorIsTerminal(m: Markers, s: Session, d: Delivery, t: seq<Delivery>)
    requires !s.Panicked() && d.chunk.err.Some?
    ensures Run(m, Step(m, s, d), t).done && Run(m, Step(m, s, d), t).Errored()
  {
  }

  // ---------------------------------------------------------------------
  // The final menu
  // ---------------------------------------------------------------------

  /**
   After a description is stored, the apply/diffs/preview commands are
   offered exactly when the files were not declared finished on the spot,
   i.e. when a Building phase is expected.
   */
  lemma MenuOffersApplyIffBuildExpected(m: Markers, s: Session, d: Delivery)
    requires !s.Panicked() && s.proposalId != "" && !s.filesFinished
    requires Clean(d) && DescribesPayload(m, d) && d.io.planSave.None? && d.io.decoding.Decoded?
    ensures var r := Step(m, s, d);
      "apply" in FinalMenu(r.desc) <==> !r.filesFinished
  {
  }
}
