/**
 * Saving one uploaded file (save.rs, `Path` targets): the request handler
 * forwards body frames into a bounded channel while a separate task writes the
 * file. A step is one await of either task; every sequence of steps is a run.
 */
module SavePipeline {
  import opened Wrappers
  import opened Text
  import opened Session

  const UPLOAD_CHANNEL_CAPACITY: nat := 16

  datatype Frame = Data(bytes: Bytes) | Trailers | BodyError

  datatype ForwarderPc =
    | Reading                        // waiting for the next frame
    | Sending(chunk: Bytes)          // waiting for room in the channel
    | Awaiting(streamError: bool)    // channel sender dropped, waiting for the writer
    | Answered(result: SaveResult)   // outcome known, application answered
    | Gone                           // request future dropped

  datatype WriterPc = Opening | Writing | Stopped(ok: bool)

  /** `consumed` is history: the frames already read. `reported` are the progress values sent. */
  datatype Pipe = Pipe(
    size: nat,
    expected: Option<string>,
    consumed: seq<Frame>,
    body: seq<Frame>,
    hashed: Bytes,
    channel: seq<Bytes>,
    forwarder: ForwarderPc,
    writer: WriterPc,
    file: Bytes,
    written: nat,
    reported: seq<nat>,
    answer: Option<bool>)

  /** The environment decides which I/O operations fail; `partial` bytes of a failed write reach the file. */
  datatype PipeStep =
    | ReadFrame
    | Push
    | OpenFile(created: bool)
    | TakeChunk(stored: bool, partial: nat)
    | EndOfStream(flushed: bool)
    | Collect
    | DropRequest

  function NewPipe(size: nat, expected: Option<string>, body: seq<Frame>): Pipe {
    Pipe(size, expected, [], body, [], [], Reading, Opening, [], 0, [], None)
  }

  function DataOf(frame: Frame): Bytes {
    if frame.Data? then frame.bytes else []
  }

  /** The bytes of all data frames, in order. */
  function BodyBytes(frames: seq<Frame>): Bytes {
    if frames == [] then [] else BodyBytes(frames[..|frames| - 1]) + DataOf(frames[|frames| - 1])
  }

  predicate HashMatches(hash: Bytes -> string, expected: Option<string>, content: Bytes) {
    expected.Some? ==> EqIgnoreAsciiCase(hash(content), expected.value)
  }

  function DoReadFrame(p: Pipe): Pipe
    requires p.forwarder.Reading?
  {
    if p.body == [] then p.(forwarder := Awaiting(false))
    else
      var frame := p.body[0];
      var q := p.(consumed := p.consumed + [frame], body := p.body[1..]);
      match frame
      case BodyError => q.(forwarder := Awaiting(true))
      case Trailers => q
      case Data(bytes) =>
        if bytes == [] then q
        else q.(hashed := if p.expected.Some? then p.hashed + bytes else p.hashed, forwarder := Sending(bytes))
  }

  function DoPush(p: Pipe): Pipe
    requires p.forwarder.Sending?
  {
    if p.writer.Stopped? then p.(forwarder := Awaiting(true))
    else if |p.channel| < UPLOAD_CHANNEL_CAPACITY then
      p.(channel := p.channel + [p.forwarder.chunk], forwarder := Reading)
    else p
  }

  function DoTakeChunk(p: Pipe, stored: bool, partial: nat): Pipe
    requires p.writer.Writing? && p.channel != []
  {
    var chunk := p.channel[0];
    var written := p.written + |chunk|;
    var q := p.(channel := p.channel[1..], written := written);
    if written > p.size then q.(writer := Stopped(false))
    else if !stored then
      q.(writer := Stopped(false), file := p.file + chunk[..if partial <= |chunk| then partial else |chunk|])
    else q.(file := p.file + chunk, reported := p.reported + [written])
  }

  function DoCollect(hash: Bytes -> string, p: Pipe): Pipe
    requires p.forwarder.Awaiting? && p.writer.Stopped?
  {
    var result :=
      if p.forwarder.streamError || !p.writer.ok then SaveFailed
      else if HashMatches(hash, p.expected, p.hashed) then Success
      else HashMismatch;
    p.(forwarder := Answered(result), answer := Some(result.Success?))
  }

  predicate SenderOpen(pc: ForwarderPc) {
    pc.Reading? || pc.Sending?
  }

  function ApplyPipe(hash: Bytes -> string, p: Pipe, step: PipeStep): Pipe {
    match step
    case ReadFrame => if p.forwarder.Reading? then DoReadFrame(p) else p
    case Push => if p.forwarder.Sending? then DoPush(p) else p
    case OpenFile(created) => if p.writer.Opening? then p.(writer := if created then Writing else Stopped(false)) else p
    case TakeChunk(stored, partial) =>
      if p.writer.Writing? && p.channel != [] then DoTakeChunk(p, stored, partial) else p
    case EndOfStream(flushed) =>
      if p.writer.Writing? && p.channel == [] && !SenderOpen(p.forwarder)
      then p.(writer := Stopped(flushed && p.written == p.size)) else p
    case Collect => if p.forwarder.Awaiting? && p.writer.Stopped? then DoCollect(hash, p) else p
    case DropRequest =>
      if SenderOpen(p.forwarder) || p.forwarder.Awaiting? then p.(forwarder := Gone, answer := Some(false)) else p
  }

  function RunPipe(hash: Bytes -> string, p: Pipe, run: seq<PipeStep>): Pipe
    decreases |run|
  {
    if run == [] then p else ApplyPipe(hash, RunPipe(hash, p, run[..|run| - 1]), run[|run| - 1])
  }

  // Invariant

  function InHand(pc: ForwarderPc): Bytes {
    if pc.Sending? then pc.chunk else []
  }

  /** Every byte read is in the file, in the channel or in the forwarder's hand, in this order. */
  predicate BytesConserved(p: Pipe) {
    && p.file + Flatten(p.channel) + InHand(p.forwarder) <= BodyBytes(p.consumed)
    && (Faithful(p.forwarder) ==> p.file + Flatten(p.channel) + InHand(p.forwarder) == BodyBytes(p.consumed))
  }

  /** The forwarder has passed on everything it read. */
  predicate Faithful(pc: ForwarderPc) {
    pc.Reading? || pc.Sending? || pc == Awaiting(false) || (pc.Answered? && !pc.result.SaveFailed?)
  }

  /** The forwarder has read the whole body without an error. */
  predicate Exhausted(pc: ForwarderPc) {
    pc == Awaiting(false) || (pc.Answered? && !pc.result.SaveFailed?)
  }

  predicate FileInv(p: Pipe) {
    && |p.file| <= p.size
    && p.file <= BodyBytes(p.consumed)
    && (p.writer.Opening? ==> p.file == [])
    && (!p.writer.Stopped? || p.writer.ok ==> p.written == |p.file| && BytesConserved(p))
    && (p.writer == Stopped(true) ==> p.written == p.size && p.channel == [] && !SenderOpen(p.forwarder))
    && (forall i :: 0 <= i < |p.reported| ==> p.reported[i] <= p.size)
  }

  predicate OutcomeInv(hash: Bytes -> string, p: Pipe) {
    && (p.expected.Some? ==> p.hashed == BodyBytes(p.consumed))
    && (Exhausted(p.forwarder) ==> p.body == [])
    && (Faithful(p.forwarder) ==> BodyError !in p.consumed)
    && (p.answer == Some(true) <==> p.forwarder == Answered(Success))
    && (p.answer.None? <==> SenderOpen(p.forwarder) || p.forwarder.Awaiting?)
    && (p.forwarder.Answered? && !p.forwarder.result.SaveFailed? ==>
          && p.writer == Stopped(true)
          && (p.forwarder.result.Success? <==> HashMatches(hash, p.expected, BodyBytes(p.consumed))))
  }

  lemma {:induction false} ConsumeOne(consumed: seq<Frame>, frame: Frame)
    ensures BodyBytes(consumed + [frame]) == BodyBytes(consumed) + DataOf(frame)
    ensures BodyBytes(consumed) <= BodyBytes(consumed + [frame])
  {
    assert (consumed + [frame])[..|consumed|] == consumed;
  }

  lemma ReadConserves(p: Pipe)
    requires BytesConserved(p) && p.forwarder.Reading?
    ensures BytesConserved(DoReadFrame(p))
  {
    hide BodyBytes;
    if p.body != [] {
      ConsumeOne(p.consumed, p.body[0]);
    }
  }

  lemma ReadKeepsFile(p: Pipe)
    requires FileInv(p) && p.forwarder.Reading?
    ensures FileInv(DoReadFrame(p))
  {
    hide BytesConserved;
    if p.body != [] {
      ConsumeOne(p.consumed, p.body[0]);
    }
    if !p.writer.Stopped? || p.writer.ok {
      ReadConserves(p);
    }
  }

  lemma ReadKeepsOutcome(hash: Bytes -> string, p: Pipe)
    requires OutcomeInv(hash, p) && p.forwarder.Reading?
    ensures OutcomeInv(hash, DoReadFrame(p))
  {
    hide BodyBytes;
    if p.body != [] {
      ConsumeOne(p.consumed, p.body[0]);
    }
  }

  lemma Regroup(a: Bytes, b: Bytes, c: Bytes, d: Bytes)
    ensures a + (b + c) + d == a + b + c + d
    ensures a + b <= a + b + c + d && a + b + c + [] == a + b + c
  {
  }

  lemma PushConserves(p: Pipe)
    requires BytesConserved(p) && p.forwarder.Sending?
    ensures BytesConserved(DoPush(p))
  {
    FlattenAppend(p.channel, p.forwarder.chunk);
    hide Flatten, BodyBytes;
    Regroup(p.file, Flatten(p.channel), p.forwarder.chunk, []);
  }

  lemma PushKeepsFile(p: Pipe)
    requires FileInv(p) && p.forwarder.Sending?
    ensures FileInv(DoPush(p))
  {
    hide BytesConserved;
    if !p.writer.Stopped? || p.writer.ok {
      PushConserves(p);
    }
  }

  lemma TakeConserves(p: Pipe, stored: bool, partial: nat)
    requires BytesConserved(p) && p.writer.Writing? && p.channel != []
    ensures p.file + p.channel[0] <= BodyBytes(p.consumed)
    ensures var q := DoTakeChunk(p, stored, partial);
      q.writer.Writing? ==> BytesConserved(q)
  {
    FlattenHead(p.channel);
    hide Flatten, BodyBytes;
    Regroup(p.file, p.channel[0], Flatten(p.channel[1..]), InHand(p.forwarder));
  }

  lemma TakeKeepsFile(p: Pipe, stored: bool, partial: nat)
    requires FileInv(p) && p.writer.Writing? && p.channel != []
    ensures FileInv(DoTakeChunk(p, stored, partial))
  {
    hide BytesConserved;
    TakeConserves(p, stored, partial);
    var k := if partial <= |p.channel[0]| then partial else |p.channel[0]|;
    assert p.file + p.channel[0][..k] == (p.file + p.channel[0])[..|p.file| + k];
  }

  lemma WriterKeepsFile(p: Pipe, writer: WriterPc)
    requires FileInv(p) && !p.writer.Stopped?
    requires writer.Opening? ==> p.writer.Opening?
    requires writer == Stopped(true) ==> p.written == p.size && p.channel == [] && !SenderOpen(p.forwarder)
    ensures FileInv(p.(writer := writer))
  {
  }

  lemma DropKeepsFile(p: Pipe)
    requires FileInv(p)
    ensures FileInv(p.(forwarder := Gone, answer := Some(false)))
  {
  }

  lemma StepKeepsFile(hash: Bytes -> string, p: Pipe, step: PipeStep)
    requires FileInv(p)
    ensures FileInv(ApplyPipe(hash, p, step))
  {
    match step {
      case ReadFrame => if p.forwarder.Reading? { ReadKeepsFile(p); }
      case Push => if p.forwarder.Sending? { PushKeepsFile(p); }
      case OpenFile(created) =>
        if p.writer.Opening? { WriterKeepsFile(p, if created then Writing else Stopped(false)); }
      case TakeChunk(stored, partial) =>
        if p.writer.Writing? && p.channel != [] { TakeKeepsFile(p, stored, partial); }
      case EndOfStream(flushed) =>
        if p.writer.Writing? && p.channel == [] && !SenderOpen(p.forwarder) {
          WriterKeepsFile(p, Stopped(flushed && p.written == p.size));
        }
      case Collect =>
      case DropRequest => DropKeepsFile(p);
    }
  }

  lemma StepKeepsOutcome(hash: Bytes -> string, p: Pipe, step: PipeStep)
    requires OutcomeInv(hash, p)
    ensures OutcomeInv(hash, ApplyPipe(hash, p, step))
  {
    if step.ReadFrame? && p.forwarder.Reading? {
      ReadKeepsOutcome(hash, p);
    }
  }

  lemma StepKeepsRequest(hash: Bytes -> string, p: Pipe, step: PipeStep)
    ensures var q := ApplyPipe(hash, p, step);
      q.size == p.size && q.expected == p.expected && q.consumed + q.body == p.consumed + p.body
  {
  }

  ghost predicate PipeInv(hash: Bytes -> string, p: Pipe) {
    FileInv(p) && OutcomeInv(hash, p)
  }

  lemma {:induction false} RunKeepsPipe(hash: Bytes -> string, p: Pipe, run: seq<PipeStep>)
    requires PipeInv(hash, p)
    ensures var q := RunPipe(hash, p, run);
      && PipeInv(hash, q)
      && q.size == p.size && q.expected == p.expected
      && q.consumed + q.body == p.consumed + p.body
    decreases |run|
  {
    hide FileInv, OutcomeInv, ApplyPipe;
    if run != [] {
      var before, step := RunPipe(hash, p, run[..|run| - 1]), run[|run| - 1];
      RunKeepsPipe(hash, p, run[..|run| - 1]);
      StepKeepsFile(hash, before, step);
      StepKeepsOutcome(hash, before, step);
      StepKeepsRequest(hash, before, step);
    }
  }

  // Theorems

  /** A checksum is either not given, or of the digest's length and equal to it but for the case of letters. */
  predicate Agrees(digest: string, expected: Option<string>) {
    expected.Some? ==>
      |expected.value| == |digest| && forall i :: 0 <= i < |digest| ==> SameLetter(digest[i], expected.value[i])
  }

  lemma ChecksumMeaning(hash: Bytes -> string, expected: Option<string>, content: Bytes)
    ensures HashMatches(hash, expected, content) <==> Agrees(hash(content), expected)
  {
    forall a, b ensures ToLower(a) == ToLower(b) <==> SameLetter(a, b) {
      FoldedLetters(a, b);
    }
    hide ToLower, SameLetter;
  }

  lemma {:induction false} BodyBytesPrefix(a: seq<Frame>, b: seq<Frame>)
    ensures BodyBytes(a) <= BodyBytes(a + b)
    decreases |b|
  {
    if b == [] {
      assert a + b == a;
    } else {
      BodyBytesPrefix(a, b[..|b| - 1]);
      assert (a + b)[..|a + b| - 1] == a + b[..|b| - 1];
    }
  }

  function Saved(hash: Bytes -> string, size: nat, expected: Option<string>, body: seq<Frame>,
                 run: seq<PipeStep>): Pipe {
    RunPipe(hash, NewPipe(size, expected, body), run)
  }

  lemma ReachablePipe(hash: Bytes -> string, size: nat, expected: Option<string>, body: seq<Frame>, run: seq<PipeStep>)
    ensures var p := Saved(hash, size, expected, body, run);
      && PipeInv(hash, p) && p.size == size && p.expected == expected && p.consumed + p.body == body
  {
    RunKeepsPipe(hash, NewPipe(size, expected, body), run);
    assert [] + body == body;
  }

  /**
   * Whatever the frame split and the interleaving, a successful save left a
   * file equal to the whole body, of the declared size, matching any checksum;
   * a checksum mismatch differs in the last point only.
   */
  lemma {:induction false} OutcomeIsExact(hash: Bytes -> string, size: nat, expected: Option<string>, body: seq<Frame>,
                                          run: seq<PipeStep>)
    ensures var p := Saved(hash, size, expected, body, run);
      p.forwarder.Answered? && !p.forwarder.result.SaveFailed? ==>
        && p.file == BodyBytes(body)
        && |p.file| == size
        && BodyError !in body
        && (p.forwarder.result.Success? <==>
              || expected.None?
              || (&& |hash(p.file)| == |expected.value|
                  && forall i :: 0 <= i < |expected.value| ==> SameLetter(hash(p.file)[i], expected.value[i])))
  {
    ReachablePipe(hash, size, expected, body, run);
    var p := Saved(hash, size, expected, body, run);
    if p.forwarder.Answered? && !p.forwarder.result.SaveFailed? {
      assert p.consumed + [] == p.consumed;
      assert p.file + Flatten([]) + [] == p.file;
      ChecksumMeaning(hash, expected, p.file);
    }
  }

  /** At no moment does the file hold more than the declared size, or anything but a prefix of the body. */
  lemma {:induction false} FileNeverExceedsSize(hash: Bytes -> string, size: nat, expected: Option<string>,
                                                body: seq<Frame>, run: seq<PipeStep>)
    ensures var p := Saved(hash, size, expected, body, run);
      && |p.file| <= size
      && p.file <= BodyBytes(body)
      && (forall i :: 0 <= i < |p.reported| ==> p.reported[i] <= size)
  {
    ReachablePipe(hash, size, expected, body, run);
    var p := Saved(hash, size, expected, body, run);
    BodyBytesPrefix(p.consumed, p.body);
  }

  /** The application is told Ok exactly when the request reports success. */
  lemma AnswerIsOutcome(hash: Bytes -> string, size: nat, expected: Option<string>, body: seq<Frame>,
                        run: seq<PipeStep>)
    ensures var p := Saved(hash, size, expected, body, run);
      p.answer == Some(true) <==> p.forwarder == Answered(Success)
  {
    ReachablePipe(hash, size, expected, body, run);
  }

  // Progress values

  /** Progress never runs backwards or ahead of the file, and the last value is the whole of it. */
  predicate ProgressInv(p: Pipe) {
    && (forall i, j :: 0 <= i < j < |p.reported| ==> p.reported[i] <= p.reported[j])
    && (forall i :: 0 <= i < |p.reported| ==> p.reported[i] <= |p.file|)
    && (!p.writer.Stopped? || p.writer.ok ==>
          |p.file| == if p.reported == [] then 0 else p.reported[|p.reported| - 1])
  }

  lemma StepKeepsProgress(hash: Bytes -> string, p: Pipe, step: PipeStep)
    requires FileInv(p) && ProgressInv(p)
    ensures ProgressInv(ApplyPipe(hash, p, step))
  {
    hide BytesConserved, HashMatches;
  }

  lemma {:induction false} RunKeepsProgress(hash: Bytes -> string, p: Pipe, run: seq<PipeStep>)
    requires PipeInv(hash, p) && ProgressInv(p)
    ensures ProgressInv(RunPipe(hash, p, run))
    decreases |run|
  {
    if run != [] {
      var before := run[..|run| - 1];
      RunKeepsProgress(hash, p, before);
      RunKeepsPipe(hash, p, before);
      hide FileInv, OutcomeInv, ProgressInv, ApplyPipe;
      StepKeepsProgress(hash, RunPipe(hash, p, before), run[|run| - 1]);
    }
  }

  /** Progress is never ahead of the file, and a save that did not fail ends with the size as its last value. */
  lemma {:induction false} ProgressReachesSize(hash: Bytes -> string, size: nat, expected: Option<string>,
                                               body: seq<Frame>, run: seq<PipeStep>)
    ensures var p := Saved(hash, size, expected, body, run);
      && (forall i, j :: 0 <= i < j < |p.reported| ==> p.reported[i] <= p.reported[j])
      && (forall i :: 0 <= i < |p.reported| ==> p.reported[i] <= |p.file|)
      && (p.forwarder.Answered? && !p.forwarder.result.SaveFailed? && size > 0 ==>
            p.reported != [] && p.reported[|p.reported| - 1] == size)
  {
    ReachablePipe(hash, size, expected, body, run);
    RunKeepsProgress(hash, NewPipe(size, expected, body), run);
    OutcomeIsExact(hash, size, expected, body, run);
  }

  // Without I/O faults

  predicate FaultFree(step: PipeStep) {
    match step
    case OpenFile(created) => created
    case TakeChunk(stored, _) => stored
    case EndOfStream(flushed) => flushed
    case DropRequest => false
    case _ => true
  }

  predicate BodyRejected(size: nat, body: seq<Frame>) {
    BodyError in body || |BodyBytes(body)| != size
  }

  /** Without faults only the body itself can make the writer or the forwarder give up. */
  predicate BlameInv(p: Pipe) {
    && (p.writer == Stopped(false) ==>
          || |BodyBytes(p.consumed)| > p.size
          || BodyError in p.consumed
          || (p.body == [] && |BodyBytes(p.consumed)| != p.size))
    && (p.forwarder == Awaiting(true) || p.forwarder == Answered(SaveFailed) ==>
          BodyError in p.consumed || p.writer == Stopped(false))
    && !p.forwarder.Gone?
  }

  lemma ReadKeepsBlame(p: Pipe)
    requires BlameInv(p) && p.forwarder.Reading?
    ensures BlameInv(DoReadFrame(p))
  {
    hide BodyBytes;
    if p.body != [] {
      ConsumeOne(p.consumed, p.body[0]);
    }
  }

  lemma TakeKeepsBlame(p: Pipe)
    requires FileInv(p) && BlameInv(p) && p.writer.Writing? && p.channel != []
    ensures forall partial :: BlameInv(DoTakeChunk(p, true, partial))
  {
    hide BytesConserved;
    TakeConserves(p, true, 0);
  }

  lemma EndKeepsBlame(hash: Bytes -> string, p: Pipe)
    requires PipeInv(hash, p) && BlameInv(p) && p.writer.Writing? && p.channel == [] && !SenderOpen(p.forwarder)
    ensures BlameInv(p.(writer := Stopped(p.written == p.size)))
  {
    if p.forwarder == Awaiting(false) {
      assert p.file + Flatten([]) + [] == p.file;
    }
  }

  lemma StepKeepsBlame(hash: Bytes -> string, p: Pipe, step: PipeStep)
    requires PipeInv(hash, p) && BlameInv(p) && FaultFree(step)
    ensures BlameInv(ApplyPipe(hash, p, step))
  {
    hide BytesConserved, OutcomeInv, BodyBytes;
    match step {
      case ReadFrame => if p.forwarder.Reading? { ReadKeepsBlame(p); }
      case TakeChunk(_, _) => if p.writer.Writing? && p.channel != [] { TakeKeepsBlame(p); }
      case EndOfStream(_) =>
        if p.writer.Writing? && p.channel == [] && !SenderOpen(p.forwarder) { EndKeepsBlame(hash, p); }
      case _ =>
    }
  }

  lemma {:induction false} RunKeepsBlame(hash: Bytes -> string, p: Pipe, run: seq<PipeStep>)
    requires PipeInv(hash, p) && BlameInv(p)
    requires forall i :: 0 <= i < |run| ==> FaultFree(run[i])
    ensures BlameInv(RunPipe(hash, p, run))
    decreases |run|
  {
    hide BlameInv, PipeInv, FaultFree, ApplyPipe;
    if run != [] {
      RunKeepsBlame(hash, p, run[..|run| - 1]);
      RunKeepsPipe(hash, p, run[..|run| - 1]);
      StepKeepsBlame(hash, RunPipe(hash, p, run[..|run| - 1]), run[|run| - 1]);
    }
  }

  /** Without I/O faults the outcome depends on the body alone, not on timing. */
  lemma {:induction false} FaultFreeOutcome(hash: Bytes -> string, size: nat, expected: Option<string>,
                                            body: seq<Frame>, run: seq<PipeStep>)
    requires forall i :: 0 <= i < |run| ==> FaultFree(run[i])
    requires Saved(hash, size, expected, body, run).forwarder.Answered?
    ensures Saved(hash, size, expected, body, run).forwarder.result ==
      if BodyRejected(size, body) then SaveFailed
      else if Agrees(hash(BodyBytes(body)), expected) then Success
      else HashMismatch
  {
    var p := Saved(hash, size, expected, body, run);
    ReachablePipe(hash, size, expected, body, run);
    RunKeepsBlame(hash, NewPipe(size, expected, body), run);
    OutcomeIsExact(hash, size, expected, body, run);
    BodyBytesPrefix(p.consumed, p.body);
    if p.forwarder.result.SaveFailed? && p.body == [] {
      assert p.consumed + [] == p.consumed;
    }
  }

  /** One frame, one chunk, no fault. */
  const ONE_FRAME: seq<PipeStep> := [
    OpenFile(true), ReadFrame, Push, ReadFrame, TakeChunk(true, 0), EndOfStream(true), Collect]

  /** Where the pipeline stands after `n` steps of it. */
  function Stage(content: Bytes, expected: Option<string>, n: nat): Pipe {
    var start := NewPipe(|content|, expected, [Data(content)]);
    var read := start.(writer := Writing, consumed := [Data(content)], body := [],
                       hashed := if expected.Some? then content else []);
    var written := read.(forwarder := Awaiting(false), written := |content|, file := content,
                         reported := [|content|]);
    match n
    case 0 => start
    case 1 => start.(writer := Writing)
    case 2 => read.(forwarder := Sending(content))
    case 3 => read.(channel := [content])
    case 4 => read.(channel := [content], forwarder := Awaiting(false))
    case 5 => written
    case _ => written.(writer := Stopped(true))
  }

  lemma {:induction false} FirstStages(hash: Bytes -> string, content: Bytes, expected: Option<string>, n: nat)
    requires content != [] && n < 3
    ensures ApplyPipe(hash, Stage(content, expected, n), ONE_FRAME[n]) == Stage(content, expected, n + 1)
  {
    hide HashMatches, DoTakeChunk, DoCollect;
    assert [Data(content)][1..] == [] && [] + [Data(content)] == [Data(content)];
    assert [] + content == content && [] + [content] == [content];
  }

  lemma {:induction false} LastStages(hash: Bytes -> string, content: Bytes, expected: Option<string>, n: nat)
    requires content != [] && 3 <= n < 6
    ensures ApplyPipe(hash, Stage(content, expected, n), ONE_FRAME[n]) == Stage(content, expected, n + 1)
  {
    hide HashMatches, DoPush, DoCollect;
    assert [content][1..] == [] && [] + content == content;
  }

  lemma {:induction false} ReachesStage(hash: Bytes -> string, content: Bytes, expected: Option<string>, n: nat)
    requires content != [] && n <= 6
    ensures RunPipe(hash, Stage(content, expected, 0), ONE_FRAME[..n]) == Stage(content, expected, n)
    decreases n
  {
    hide Stage, ApplyPipe;
    if n > 0 {
      ReachesStage(hash, content, expected, n - 1);
      assert ONE_FRAME[..n][..n - 1] == ONE_FRAME[..n - 1];
      if n <= 3 {
        FirstStages(hash, content, expected, n - 1);
      } else {
        LastStages(hash, content, expected, n - 1);
      }
    }
  }

  lemma {:induction false} OneFrameAnswers(hash: Bytes -> string, content: Bytes, expected: Option<string>)
    requires content != []
    ensures Saved(hash, |content|, expected, [Data(content)], ONE_FRAME).forwarder.Answered?
  {
    ReachesStage(hash, content, expected, 6);
    assert ONE_FRAME[..|ONE_FRAME|] == ONE_FRAME && ONE_FRAME[..|ONE_FRAME| - 1] == ONE_FRAME[..6];
  }

  /** A checksum of the digest's length that differs from it in one position is a mismatch, in a concrete run. */
  lemma {:induction false} DifferingDigestMismatches(hash: Bytes -> string, content: Bytes, expected: string, i: nat)
    requires content != [] && |expected| == |hash(content)| && i < |expected|
    requires !SameLetter(hash(content)[i], expected[i])
    ensures Saved(hash, |content|, Some(expected), [Data(content)], ONE_FRAME).forwarder == Answered(HashMismatch)
  {
    var body := [Data(content)];
    OneFrameAnswers(hash, content, Some(expected));
    assert forall k :: 0 <= k < |ONE_FRAME| ==> FaultFree(ONE_FRAME[k]);
    assert body[..0] == [];
    assert BodyBytes(body) == content;
    FaultFreeOutcome(hash, |content|, Some(expected), body, ONE_FRAME);
  }

  // Progress

  function ForwarderWork(pc: ForwarderPc): nat {
    match pc
    case Reading => 2
    case Sending(_) => 5
    case Awaiting(_) => 1
    case _ => 0
  }

  function PipeWork(p: Pipe): nat {
    4 * |p.body| + ForwarderWork(p.forwarder) + 2 * |p.channel|
    + match p.writer case Opening => 2 case Writing => 1 case Stopped(_) => 0
  }

  /** Every step that changes anything uses up work, so no run goes on forever. */
  lemma StepsUseUpWork(hash: Bytes -> string, p: Pipe, step: PipeStep)
    ensures ApplyPipe(hash, p, step) == p || PipeWork(ApplyPipe(hash, p, step)) < PipeWork(p)
  {
  }

  /** A step that is possible without an I/O fault. */
  function NextStep(p: Pipe): PipeStep {
    match p.forwarder
    case Reading => ReadFrame
    case Sending(_) => if p.writer.Stopped? || |p.channel| < UPLOAD_CHANNEL_CAPACITY then Push else WriterStep(p)
    case _ => if p.writer.Stopped? then Collect else WriterStep(p)
  }

  function WriterStep(p: Pipe): PipeStep {
    if p.writer.Opening? then OpenFile(true)
    else if p.channel != [] then TakeChunk(true, 0)
    else EndOfStream(true)
  }

  /** The two tasks never wait for each other: an unanswered upload always has a step to take. */
  lemma NoDeadlock(hash: Bytes -> string, p: Pipe)
    requires SenderOpen(p.forwarder) || p.forwarder.Awaiting?
    ensures FaultFree(NextStep(p)) && PipeWork(ApplyPipe(hash, p, NextStep(p))) < PipeWork(p)
  {
  }

  lemma {:induction false} RunFirst(hash: Bytes -> string, p: Pipe, step: PipeStep, rest: seq<PipeStep>)
    ensures RunPipe(hash, p, [step] + rest) == RunPipe(hash, ApplyPipe(hash, p, step), rest)
    decreases |rest|
  {
    hide ApplyPipe;
    var run := [step] + rest;
    if rest == [] {
      assert run[..0] == [] && RunPipe(hash, p, run[..0]) == p;
    } else {
      RunFirst(hash, p, step, rest[..|rest| - 1]);
      assert run[..|run| - 1] == [step] + rest[..|rest| - 1];
    }
  }

  /** From every state an unanswered upload can be answered without a fault, within as many steps as work is left. */
  lemma {:induction false} CanBeAnswered(hash: Bytes -> string, p: Pipe) returns (run: seq<PipeStep>)
    requires SenderOpen(p.forwarder) || p.forwarder.Awaiting?
    ensures RunPipe(hash, p, run).forwarder.Answered?
    ensures |run| <= PipeWork(p) && forall i :: 0 <= i < |run| ==> FaultFree(run[i])
    decreases PipeWork(p)
  {
    var step := NextStep(p);
    var q := ApplyPipe(hash, p, step);
    NoDeadlock(hash, p);
    var rest: seq<PipeStep> := [];
    if !q.forwarder.Answered? {
      NextStepKeepsRequest(hash, p);
      rest := CanBeAnswered(hash, q);
    }
    RunFirst(hash, p, step, rest);
    run := [step] + rest;
  }

  lemma NextStepKeepsRequest(hash: Bytes -> string, p: Pipe)
    requires SenderOpen(p.forwarder) || p.forwarder.Awaiting?
    ensures !ApplyPipe(hash, p, NextStep(p)).forwarder.Gone?
  {
  }

  // The two loops on their own

  /** Which I/O operations of the writer succeed, and how much of a failed write reaches the file. */
  datatype Disk = Disk(opens: bool, stores: nat -> bool, partial: nat -> nat, flushes: bool)

  /** write_file_from_receiver on a channel that delivers `chunks` and then closes. */
  method WriteFileFromReceiver(expectedSize: nat, disk: Disk, chunks: seq<Bytes>) returns (ok: bool, file: Bytes)
    ensures ok <==>
      && disk.opens && disk.flushes
      && (forall i :: 0 <= i < |chunks| ==> disk.stores(i))
      && |Flatten(chunks)| == expectedSize
    ensures ok ==> file == Flatten(chunks)
    ensures |file| <= expectedSize && file <= Flatten(chunks)
  {
    file := [];
    if !disk.opens {
      return false, file;
    }
    var written := 0;
    var i := 0;
    while i < |chunks|
      invariant 0 <= i <= |chunks|
      invariant file == Flatten(chunks[..i]) && written == |file| <= expectedSize
      invariant forall k :: 0 <= k < i ==> disk.stores(k)
    {
      var chunk := chunks[i];
      assert chunks[..i + 1] == chunks[..i] + [chunk];
      FlattenAppend(chunks[..i], chunk);
      FlattenConcat(chunks[..i + 1], chunks[i + 1..]);
      assert chunks == chunks[..i + 1] + chunks[i + 1..];
      written := written + |chunk|;
      if written > expectedSize {
        return false, file;
      }
      if !disk.stores(i) {
        var part := chunk[..if disk.partial(i) <= |chunk| then disk.partial(i) else |chunk|];
        assert file + part <= file + chunk;
        return false, file + part;
      }
      file := file + chunk;
      i := i + 1;
    }
    assert chunks[..i] == chunks;
    if !disk.flushes {
      return false, file;
    }
    return written == expectedSize, file;
  }

  /** The chunks of the body: the non-empty data frames. */
  function ChunksOf(frames: seq<Frame>): seq<Bytes> {
    if frames == [] then []
    else
      var before, last := ChunksOf(frames[..|frames| - 1]), frames[|frames| - 1];
      if DataOf(last) == [] then before else before + [DataOf(last)]
  }

  lemma {:induction false} ChunksGrow(frames: seq<Frame>, n: nat)
    requires n <= |frames|
    ensures ChunksOf(frames[..n]) <= ChunksOf(frames)
    decreases |frames|
  {
    if n == |frames| {
      assert frames[..n] == frames;
    } else {
      var before := frames[..|frames| - 1];
      assert before[..n] == frames[..n];
      ChunksGrow(before, n);
    }
  }

  /**
   * The frame loop of save_req_to_target on a channel whose receiver takes
   * `room` chunks before it is gone, or all of them.
   */
  method ForwardBody(frames: seq<Frame>, hashing: bool, room: Option<nat>)
    returns (chunks: seq<Bytes>, hashed: Bytes, streamError: bool)
    ensures streamError <==> BodyError in frames || (room.Some? && room.value < |ChunksOf(frames)|)
    ensures chunks <= ChunksOf(frames)
    ensures !streamError ==> chunks == ChunksOf(frames) && Flatten(chunks) == BodyBytes(frames)
    ensures hashing && !streamError ==> hashed == BodyBytes(frames)
  {
    chunks, hashed := [], [];
    var i := 0;
    while i < |frames|
      invariant 0 <= i <= |frames|
      invariant BodyError !in frames[..i]
      invariant chunks == ChunksOf(frames[..i]) && (room.Some? ==> |chunks| <= room.value)
      invariant Flatten(chunks) == BodyBytes(frames[..i])
      invariant hashing ==> hashed == Flatten(chunks)
    {
      assert frames[..i + 1] == frames[..i] + [frames[i]];
      assert frames[..i + 1][..i] == frames[..i];
      ConsumeOne(frames[..i], frames[i]);
      ChunksGrow(frames, i);
      ChunksGrow(frames, i + 1);
      match frames[i] {
        case BodyError => return chunks, hashed, true;
        case Trailers =>
        case Data(bytes) =>
          if bytes != [] {
            if hashing {
              hashed := hashed + bytes;
            }
            if room.Some? && |chunks| == room.value {
              return chunks, hashed, true;
            }
            FlattenAppend(chunks, bytes);
            chunks := chunks + [bytes];
          }
      }
      i := i + 1;
    }
    assert frames[..i] == frames;
    streamError := false;
  }
}
