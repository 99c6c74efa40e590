/**
 The stream handler of the `Propose` command: the state machine that
 consumes the chunks a plan-generation server streams back for one prompt.

 The first chunk carries the proposal id; afterwards each chunk is tagged
 with the stream state it belongs to. Replying and Revising chunks extend
 the reply, a Describing chunk carries the plan description, Building
 chunks carry fragments of the files the plan writes, and a Finished chunk
 ends the stream. The session completes (the `done` channel is closed)
 once the stream has finished and every planned file has been written; any
 error closes it too.

 The handler is a pure `Step` over a `Session` record. What it learns from
 its collaborators (saving the plan state, decoding the description JSON,
 the file-token receiver) arrives as an explicit `StepIO` value. The Go
 runtime panics the handler can hit (closing `done` twice, dereferencing
 a nil description) are recorded in `panic`; a panicked session ignores
 every later chunk, since the process is gone.
 */
module Proposal {
  import opened Wrappers

  datatype StreamState = Replying | Revising | Describing | Building | Finished

  /** One streamed update: its stream state, its text, and a transport error if any. */
  datatype Chunk = Chunk(state: StreamState, content: string, err: Option<string>)

  /** The plan description sent once, in the Describing phase. */
  datatype Desc = Desc(madePlan: bool, files: seq<string>, responseTimestamp: string)

  /**
   The two sentinel contents that open the Describing and Building phases.
   Their values are defined in the shared protocol package, which is not part
   of this model, so they are a parameter of the handler.
   */
  datatype Markers = Markers(description: string, build: string)

  /**
   What decoding a description payload produced: an error, JSON `null`, or a
   description. A decoding error can still leave a value behind: a payload
   that is valid JSON but has a field of the wrong type is decoded as far as
   it goes, and `partial` is that value; a syntax error leaves the previous
   description in place (`partial` is `None`).
   */
  datatype DescDecoding = Malformed(msg: string, partial: Option<Desc>) | NullDesc | Decoded(desc: Desc)

  /**
   What the file-token receiver reports for one Building fragment: whether
   the fragment completed a file, the set of finished paths afterwards, and
   an error if the fragment could not be handled.
   */
  datatype FileResult = FileResult(wroteFile: bool, finishedByPath: set<string>, err: Option<string>)

  /**
   The collaborators' answers for one chunk. Each branch of the handler
   reads at most the fields it calls out for: `planSave` is the error of
   saving the plan state, `decoding` the description decoding, `file` the
   file-token receiver's result.
   */
  datatype StepIO = StepIO(planSave: Option<string>, decoding: DescDecoding, file: FileResult)

  /** A chunk together with what the collaborators answer while it is handled. */
  datatype Delivery = Delivery(chunk: Chunk, io: StepIO)

  /** Why the handler gave up on the session (each reported, then `done` is closed). */
  datatype Failure =
    | Transport(msg: string)
    | MissingProposalId
    | PlanStateSave(msg: string)
    | DescriptionParse(msg: string)
    | FileToken(msg: string)

  /** Go runtime panics the handler can run into. */
  datatype Panic = ClosedTwice | NilDescription

  /**
   The handler's state. `tableLines` is the render cursor: how many lines
   of the in-place file table (rows plus hotkey trailer) are currently on
   screen below the Building header.
   */
  datatype Session = Session(
    proposalId: string,
    rootId: string,
    reply: string,
    replyStarted: bool,
    desc: Option<Desc>,
    streamFinished: bool,
    filesFinished: bool,
    finishedByPath: set<string>,
    tableLines: nat,
    done: bool,
    failure: Option<Failure>,
    panic: Option<Panic>)
  {
    predicate Errored() { failure.Some? }

    predicate Panicked() { panic.Some? }

    /** Completion as the session defines it: the stream and every file are finished. */
    predicate Complete() { streamFinished && filesFinished }
  }

  /** Lines printed under the file rows while files are still being written: a blank line and the hotkeys. */
  const HotkeyTrailerLines: nat := 4

  /** Lines the file table occupies: one row per file, plus the hotkey trailer while files remain. */
  function TableHeight(fileCount: nat, filesFinished: bool): (n: nat)
    ensures n >= fileCount
    ensures n == fileCount <==> filesFinished
  {
    fileCount + if filesFinished then 0 else HotkeyTrailerLines
  }

  /** A fresh session; `rootId` is the one read from the saved plan state (possibly empty). */
  function Initial(rootId: string): (r: Session)
    ensures r.proposalId == "" && r.rootId == rootId && r.reply == ""
    ensures !r.done && !r.Errored() && !r.Panicked() && !r.Complete()
  {
    Session("", rootId, "", false, None, false, false, {}, 0, false, None, None)
  }

  /** Whether a description announces a build: a plan was made and it touches files. */
  predicate PlanHasFiles(d: Desc) {
    d.madePlan && |d.files| > 0
  }

  /** Closing `done`; closing a channel that is already closed panics. */
  function CloseDone(s: Session): (r: Session)
    ensures r.done
    ensures s.done ==> r == s.(panic := Some(ClosedTwice))
    ensures !s.done ==> r == s.(done := true)
  {
    if s.done then s.(panic := Some(ClosedTwice)) else s.(done := true)
  }

  /** Reporting a failure: it is recorded and `done` is closed. */
  function OnError(s: Session, f: Failure): (r: Session)
    ensures r.done && r.failure == Some(f)
    ensures !s.done ==> r == s.(failure := Some(f), done := true)
    ensures s.done ==> r == s.(failure := Some(f), panic := Some(ClosedTwice))
  {
    CloseDone(s.(failure := Some(f)))
  }

  /** The first chunk: its content is the proposal id, which becomes the root id when there is none. */
  function AdoptId(s: Session, content: string, planSave: Option<string>): (r: Session)
    ensures r.reply == s.reply && r.replyStarted == s.replyStarted
    ensures content == "" ==> r.proposalId == s.proposalId && r.failure == Some(MissingProposalId)
    ensures content != "" ==>
      r.proposalId == content && r.rootId == (if s.rootId == "" then content else s.rootId)
    ensures !s.done ==> (r.done <==> content == "" || planSave.Some?)
    ensures !s.done ==> (r.Errored() <==> s.Errored() || content == "" || planSave.Some?)
  {
    if content == "" then OnError(s, MissingProposalId)
    else
      var s1 := s.(proposalId := content,
                   rootId := if s.rootId == "" then content else s.rootId);
      if planSave.Some? then OnError(s1, PlanStateSave(planSave.value)) else s1
  }

  /** A Finished chunk: the stream is over; the session completes if the files already are. */
  function Finish(s: Session): (r: Session)
    ensures r.streamFinished && r.filesFinished == s.filesFinished && r.reply == s.reply
    ensures !s.done ==> (r.done <==> s.filesFinished) && !r.Panicked() == !s.Panicked()
    ensures s.done && s.filesFinished ==> r.panic == Some(ClosedTwice)
  {
    var s1 := s.(streamFinished := true);
    if s1.filesFinished then CloseDone(s1) else s1
  }

  /**
   A Describing payload. The description is stored and saved; a plan with
   files draws the file table, anything else means no file will be built.
   */
  function Describe(s: Session, io: StepIO): (r: Session)
    ensures r.streamFinished == s.streamFinished && r.reply == s.reply
    ensures r.filesFinished <==>
      (s.filesFinished || (io.decoding.Decoded? && io.planSave.None? && !PlanHasFiles(io.decoding.desc)))
    ensures io.decoding.Decoded? ==> r.desc == Some(io.decoding.desc)
    ensures io.decoding.Malformed? ==>
      r.desc == (if io.decoding.partial.Some? then io.decoding.partial else s.desc)
    ensures r.Errored() <==>
      (s.Errored() || io.decoding.Malformed? || (io.decoding.Decoded? && io.planSave.Some?))
    ensures io.decoding.Malformed? ==> r.failure == Some(DescriptionParse(io.decoding.msg)) && r.done
    ensures io.decoding.Decoded? && io.planSave.Some? ==>
      r.failure == Some(PlanStateSave(io.planSave.value)) && r.done && r.desc == Some(io.decoding.desc)
  {
    match io.decoding
    case Malformed(e, partial) =>
      var s1 := if partial.Some? then s.(desc := partial) else s;
      OnError(s1, DescriptionParse(e))
    case NullDesc => s.(desc := None, panic := Some(NilDescription))
    case Decoded(d) =>
      var s1 := s.(desc := Some(d));
      if io.planSave.Some? then OnError(s1, PlanStateSave(io.planSave.value))
      else if PlanHasFiles(d) then s1.(tableLines := TableHeight(|d.files|, false))
      else s1.(filesFinished := true)
  }

  /**
   How many lines a Building update moves up to redraw the file table in
   place, written as the source computes it. It is the height of the table
   as last drawn with the same `filesFinished`: the rows, plus the hotkey
   trailer while files remain.
   */
  function RedrawLines(filesFinished: bool, fileCount: nat): (n: nat)
    ensures n == TableHeight(fileCount, filesFinished)
    ensures filesFinished ==> n == fileCount
  {
    if filesFinished then fileCount else fileCount + 4
  }

  /**
   A Building payload. The fragment goes to the file-token receiver; when it
   completes a file and as many paths are finished as the plan lists, the
   files are finished and the session completes if the stream already is.
   */
  function Build(s: Session, fr: FileResult): (r: Session)
    ensures r.streamFinished == s.streamFinished && r.reply == s.reply
    ensures r.finishedByPath == fr.finishedByPath
    ensures r.filesFinished <==>
      (s.filesFinished || (fr.err.None? && s.desc.Some? && fr.wroteFile
                           && |fr.finishedByPath| == |s.desc.value.files|))
    ensures fr.err.Some? ==>
      r.failure == Some(FileToken(fr.err.value)) && r.done && r.filesFinished == s.filesFinished
    ensures fr.err.Some? && !s.done ==>
      r == s.(finishedByPath := fr.finishedByPath, failure := Some(FileToken(fr.err.value)), done := true)
    ensures fr.err.None? && s.desc.None? ==> r.panic == Some(NilDescription)
    ensures !s.done && !s.Panicked() && fr.err.None? && s.desc.Some? ==>
      !r.Panicked() && (r.done <==> s.streamFinished && fr.wroteFile
                                    && |fr.finishedByPath| == |s.desc.value.files|)
  {
    var s1 := s.(finishedByPath := fr.finishedByPath);
    if fr.err.Some? then OnError(s1, FileToken(fr.err.value))
    else if s1.desc.None? then s1.(panic := Some(NilDescription))
    else
      var files := s1.desc.value.files;
      var completes := fr.wroteFile && |fr.finishedByPath| == |files|;
      var finished := s1.filesFinished || completes;
      var s2 := s1.(filesFinished := finished,
                    tableLines := TableHeight(|files|, finished));
      if completes && s2.streamFinished then CloseDone(s2) else s2
  }

  /**
   Handles one chunk. A panicked session is left as it is; otherwise an
   error fails the session, the first chunk must carry the proposal id,
   and every later chunk marks the reply as started before it is
   dispatched on its stream state.
   */
  function Step(m: Markers, s: Session, d: Delivery): (r: Session)
    ensures s.Panicked() ==> r == s
    ensures s.done ==> r.done
    ensures s.Errored() ==> r.Errored()
    ensures s.proposalId != "" ==> r.proposalId == s.proposalId && r.rootId == s.rootId
    ensures s.reply <= r.reply
    ensures r.streamFinished ==> s.streamFinished || d.chunk.state == Finished
  {
    var c := d.chunk;
    if s.Panicked() then s
    else if c.err.Some? then OnError(s, Transport(c.err.value))
    else if s.proposalId == "" then AdoptId(s, c.content, d.io.planSave)
    else
      var s1 := s.(replyStarted := true);
      match c.state
      case Replying => s1.(reply := s1.reply + c.content)
      case Revising => s1.(reply := s1.reply + c.content)
      case Finished => Finish(s1)
      case Describing => if c.content == m.description then s1 else Describe(s1, d.io)
      case Building => if c.content == m.build then s1 else Build(s1, d.io.file)
  }

  /** Handles a sequence of deliveries strictly in order. */
  function Run(m: Markers, s: Session, t: seq<Delivery>): (r: Session)
    ensures s.done ==> r.done
    ensures s.Errored() ==> r.Errored()
    ensures s.proposalId != "" ==> r.proposalId == s.proposalId && r.rootId == s.rootId
    ensures s.reply <= r.reply
    decreases |t|
  {
    if |t| == 0 then s else Run(m, Step(m, s, t[0]), t[1..])
  }

  /**
   The commands offered once the session loop ends: nothing without a
   description; apply, diffs and preview only when a plan with files was
   made; then tell and next.
   */
  function FinalMenu(desc: Option<Desc>): (r: seq<string>)
    ensures desc.None? <==> r == []
    ensures forall c :: c in ["apply", "diffs", "preview"] ==>
      (c in r <==> desc.Some? && PlanHasFiles(desc.value))
    ensures desc.Some? ==> |r| == if PlanHasFiles(desc.value) then 5 else 2
    ensures desc.Some? && PlanHasFiles(desc.value) ==> r[..3] == ["apply", "diffs", "preview"]
    ensures desc.Some? ==> |r| >= 2 && r[|r| - 2..] == ["tell", "next"]
  {
    match desc
    case None => []
    case Some(d) =>
      (if PlanHasFiles(d) then ["apply", "diffs", "preview"] else []) + ["tell", "next"]
  }
}
