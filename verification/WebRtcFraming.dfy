/**
 * Sending files over a WebRTC data channel (webrtc.rs): a text header per
 * file, its bytes in chunks as binary messages, and a delimiter at the end.
 * Messages are structured; their JSON text is not modelled.
 */
module WebRtcFraming {
  import opened Wrappers
  import opened Text

  const CHUNK_SIZE: nat := 16 * 1024

  datatype Message = Header(id: string, token: string) | Delimiter | Binary(data: Bytes)

  // Chunking

  /** `bytes` cut into full chunks, with a shorter one at the end if needed. */
  function Rechunk(bytes: Bytes): seq<Bytes> {
    if bytes == [] then []
    else if |bytes| < CHUNK_SIZE then [bytes]
    else [bytes[..CHUNK_SIZE]] + Rechunk(bytes[CHUNK_SIZE..])
  }

  /** Every chunk is full except possibly the last one, which is not empty. */
  predicate WellChunked(chunks: seq<Bytes>) {
    && (forall i :: 0 <= i < |chunks| ==> 0 < |chunks[i]| <= CHUNK_SIZE)
    && (forall i :: 0 <= i < |chunks| - 1 ==> |chunks[i]| == CHUNK_SIZE)
  }

  lemma {:induction false} RechunkKeepsBytes(bytes: Bytes)
    ensures Flatten(Rechunk(bytes)) == bytes && WellChunked(Rechunk(bytes))
    decreases |bytes|
  {
    hide Flatten;
    if bytes == [] {
      FlattenNone();
    } else if |bytes| < CHUNK_SIZE {
      FlattenOne(bytes);
    } else {
      RechunkKeepsBytes(bytes[CHUNK_SIZE..]);
      FlattenHead(Rechunk(bytes));
      assert Rechunk(bytes)[1..] == Rechunk(bytes[CHUNK_SIZE..]);
      assert bytes == bytes[..CHUNK_SIZE] + bytes[CHUNK_SIZE..];
    }
  }

  lemma {:induction false} ChunkCount(bytes: Bytes)
    ensures |Rechunk(bytes)| == (|bytes| + CHUNK_SIZE - 1) / CHUNK_SIZE
    decreases |bytes|
  {
    if |bytes| >= CHUNK_SIZE {
      ChunkCount(bytes[CHUNK_SIZE..]);
    }
  }

  /** There is only one way to chunk a byte string. */
  lemma {:induction false} ChunkingIsUnique(chunks: seq<Bytes>)
    requires WellChunked(chunks)
    ensures Rechunk(Flatten(chunks)) == chunks
    decreases |chunks|
  {
    if chunks != [] {
      FlattenHead(chunks);
      ChunkingIsUnique(chunks[1..]);
      var rest := Flatten(chunks[1..]);
      if |chunks| == 1 {
        assert chunks[1..] == [] && chunks == [chunks[0]];
        assert chunks[0] + rest == chunks[0];
        assert Rechunk([]) == [];
      } else {
        assert (chunks[0] + rest)[..CHUNK_SIZE] == chunks[0];
        assert (chunks[0] + rest)[CHUNK_SIZE..] == rest;
      }
    }
  }

  /** Cutting at a chunk border cuts the list of chunks. */
  lemma {:induction false} RechunkSplits(bytes: Bytes, n: nat)
    requires n * CHUNK_SIZE <= |bytes|
    ensures Rechunk(bytes) == Rechunk(bytes[..n * CHUNK_SIZE]) + Rechunk(bytes[n * CHUNK_SIZE..])
    decreases n
  {
    var cut := n * CHUNK_SIZE;
    if n == 0 {
      assert bytes[cut..] == bytes;
    } else {
      RechunkSplits(bytes[CHUNK_SIZE..], n - 1);
      assert (n - 1) * CHUNK_SIZE == cut - CHUNK_SIZE;
      assert bytes[..cut][..CHUNK_SIZE] == bytes[..CHUNK_SIZE];
      assert bytes[..cut][CHUNK_SIZE..] == bytes[CHUNK_SIZE..][..cut - CHUNK_SIZE];
      assert bytes[cut..] == bytes[CHUNK_SIZE..][cut - CHUNK_SIZE..];
    }
  }

  predicate AllFull(chunks: seq<Bytes>) {
    forall k :: 0 <= k < |chunks| ==> |chunks[k]| == CHUNK_SIZE
  }

  /** A buffer of full chunks and a rest is chunked by draining it. */
  lemma {:induction false} RechunkExtends(chunks: seq<Bytes>, rest: Bytes)
    requires AllFull(chunks)
    ensures Rechunk(Flatten(chunks) + rest) == chunks + Rechunk(rest)
    decreases |chunks|
  {
    if chunks == [] {
      assert Flatten(chunks) + rest == rest;
    } else {
      RechunkExtends(chunks[1..], rest);
      FlattenHead(chunks);
      var all := Flatten(chunks) + rest;
      assert all[..CHUNK_SIZE] == chunks[0];
      assert all[CHUNK_SIZE..] == Flatten(chunks[1..]) + rest;
    }
  }

  /** The full chunks sent so far and the buffer make up `bytes`. */
  predicate Buffered(chunks: seq<Bytes>, buffer: Bytes, bytes: Bytes) {
    AllFull(chunks) && Flatten(chunks) + buffer == bytes
  }

  lemma {:induction false} FillBuffer(parts: seq<Bytes>, i: nat, chunks: seq<Bytes>, buffer: Bytes)
    requires i < |parts| && Buffered(chunks, buffer, Flatten(parts[..i]))
    ensures Buffered(chunks, buffer + parts[i], Flatten(parts[..i + 1]))
  {
    hide Flatten;
    assert parts[..i + 1] == parts[..i] + [parts[i]];
    FlattenAppend(parts[..i], parts[i]);
    assert Flatten(chunks) + (buffer + parts[i]) == Flatten(chunks) + buffer + parts[i];
  }

  lemma {:induction false} DrainBuffer(chunks: seq<Bytes>, buffer: Bytes, bytes: Bytes)
    requires Buffered(chunks, buffer, bytes) && |buffer| >= CHUNK_SIZE
    ensures Buffered(chunks + [buffer[..CHUNK_SIZE]], buffer[CHUNK_SIZE..], bytes)
  {
    hide Flatten;
    var chunk, rest := buffer[..CHUNK_SIZE], buffer[CHUNK_SIZE..];
    FlattenAppend(chunks, chunk);
    assert buffer == chunk + rest;
    assert Flatten(chunks) + chunk + rest == Flatten(chunks) + (chunk + rest);
  }

  lemma {:induction false} NothingBuffered()
    ensures Buffered([], [], Flatten([]))
  {
  }

  /** Flushing the rest of the buffer completes the chunking. */
  lemma {:induction false} FlushBuffer(chunks: seq<Bytes>, buffer: Bytes, bytes: Bytes)
    requires Buffered(chunks, buffer, bytes) && |buffer| < CHUNK_SIZE
    ensures var all := if buffer == [] then chunks else chunks + [buffer];
      all == Rechunk(bytes) && Flatten(all) == bytes && WellChunked(all)
  {
    hide Flatten, WellChunked;
    RechunkExtends(chunks, buffer);
    RechunkKeepsBytes(bytes);
    assert Rechunk(buffer) == if buffer == [] then [] else [buffer];
    assert chunks + [] == chunks;
  }

  /** process_in_chunks: collects incoming parts in a buffer and drains full chunks from it. */
  method ProcessInChunks(parts: seq<Bytes>) returns (chunks: seq<Bytes>)
    ensures chunks == Rechunk(Flatten(parts))
    ensures Flatten(chunks) == Flatten(parts) && WellChunked(chunks)
  {
    hide Buffered, Flatten, Rechunk, WellChunked;
    chunks := [];
    var buffer: Bytes := [];
    NothingBuffered();
    assert parts[..0] == [];
    for i := 0 to |parts|
      invariant |buffer| < CHUNK_SIZE
      invariant Buffered(chunks, buffer, Flatten(parts[..i]))
    {
      FillBuffer(parts, i, chunks, buffer);
      buffer := buffer + parts[i];
      while |buffer| >= CHUNK_SIZE
        invariant Buffered(chunks, buffer, Flatten(parts[..i + 1]))
      {
        DrainBuffer(chunks, buffer, Flatten(parts[..i + 1]));
        chunks := chunks + [buffer[..CHUNK_SIZE]];
        buffer := buffer[CHUNK_SIZE..];
      }
    }
    assert parts[..|parts|] == parts;
    FlushBuffer(chunks, buffer, Flatten(parts));
    if buffer != [] {
      chunks := chunks + [buffer];
    }
  }

  // Strings

  function Binaries(chunks: seq<Bytes>): seq<Message> {
    seq(|chunks|, i requires 0 <= i < |chunks| => Binary(chunks[i]))
  }

  /** A string sent in chunks, up to the delimiter its callers send. */
  function StringMessages(text: Bytes): seq<Message> {
    Binaries(Rechunk(text)) + [Delimiter]
  }

  /** receive_string_from_chunks: reads up to the first text, or to the end of the channel. */
  method ReceiveStringFromChunks(messages: seq<Message>) returns (text: Bytes, rest: seq<Message>)
    ensures forall chunks, end: Message, tail :: messages == Binaries(chunks) + [end] + tail && !end.Binary? ==>
      text == Flatten(chunks) && rest == tail
    ensures forall chunks :: messages == Binaries(chunks) ==> text == Flatten(chunks) && rest == []
  {
    text := [];
    var i := 0;
    while i < |messages| && messages[i].Binary?
      invariant 0 <= i <= |messages|
      invariant forall k :: 0 <= k < i ==> messages[k].Binary?
      invariant text == Flatten(DataOf(messages[..i]))
    {
      DataAppend(messages[..i], messages[i]);
      assert messages[..i + 1] == messages[..i] + [messages[i]];
      FlattenAppend(DataOf(messages[..i]), messages[i].data);
      text := text + messages[i].data;
      i := i + 1;
    }
    rest := if i < |messages| then messages[i + 1..] else [];
    forall chunks, end: Message, tail | messages == Binaries(chunks) + [end] + tail && !end.Binary?
      ensures text == Flatten(chunks) && rest == tail
    {
      assert messages[|chunks|] == end;
      assert forall k :: 0 <= k < |chunks| ==> messages[k] == Binary(chunks[k]);
      assert i == |chunks|;
      assert DataOf(messages[..i]) == chunks;
    }
    forall chunks | messages == Binaries(chunks) ensures text == Flatten(chunks) && rest == [] {
      assert forall k :: 0 <= k < |chunks| ==> messages[k] == Binary(chunks[k]);
      assert DataOf(messages[..i]) == chunks;
    }
  }

  function DataOf(messages: seq<Message>): seq<Bytes>
    requires forall k :: 0 <= k < |messages| ==> messages[k].Binary?
  {
    seq(|messages|, k requires 0 <= k < |messages| => messages[k].data)
  }

  lemma DataAppend(messages: seq<Message>, last: Message)
    requires last.Binary? && forall k :: 0 <= k < |messages| ==> messages[k].Binary?
    ensures DataOf(messages + [last]) == DataOf(messages) + [last.data]
  {
  }

  /** Every string, of any length, survives the trip; what follows it stays unread. */
  method StringRoundTrip(text: Bytes, tail: seq<Message>) returns (received: Bytes, rest: seq<Message>)
    ensures received == text && rest == tail
  {
    RechunkKeepsBytes(text);
    received, rest := ReceiveStringFromChunks(StringMessages(text) + tail);
  }

  // Sender

  /** A file handed to the sender: its bytes arrive in parts of any size. */
  datatype Outgoing = Outgoing(id: string, parts: seq<Bytes>) {
    function Content(): Bytes { Flatten(parts) }
  }

  function FileMessages(token: string, file: Outgoing): seq<Message> {
    [Header(file.id, token)] + Binaries(Rechunk(file.Content()))
  }

  /** The files the receiver issued a token for. */
  function Selected(tokens: map<string, string>, queue: seq<Outgoing>): seq<Outgoing> {
    if queue == [] then []
    else
      var before, file := Selected(tokens, queue[..|queue| - 1]), queue[|queue| - 1];
      if file.id in tokens then before + [file] else before
  }

  predicate AllSelected(tokens: map<string, string>, sent: seq<Outgoing>) {
    forall i :: 0 <= i < |sent| ==> sent[i].id in tokens
  }

  lemma {:induction false} SelectedHaveTokens(tokens: map<string, string>, queue: seq<Outgoing>)
    ensures AllSelected(tokens, Selected(tokens, queue))
    decreases |queue|
  {
    if queue != [] {
      SelectedHaveTokens(tokens, queue[..|queue| - 1]);
    }
  }

  function Messages(tokens: map<string, string>, sent: seq<Outgoing>): seq<Message>
    requires AllSelected(tokens, sent)
  {
    if sent == [] then []
    else
      var file := sent[|sent| - 1];
      Messages(tokens, sent[..|sent| - 1]) + FileMessages(tokens[file.id], file)
  }

  /** The ids of the files without a token, in order. */
  function Skipped(tokens: map<string, string>, queue: seq<Outgoing>): seq<string> {
    if queue == [] then []
    else
      var before, file := Skipped(tokens, queue[..|queue| - 1]), queue[|queue| - 1];
      if file.id in tokens then before else before + [file.id]
  }

  lemma {:induction false} QueueNext(tokens: map<string, string>, queue: seq<Outgoing>, i: nat)
    requires i < |queue|
    ensures var file := queue[i];
      if file.id in tokens
      then
        && Selected(tokens, queue[..i + 1]) == Selected(tokens, queue[..i]) + [file]
        && Skipped(tokens, queue[..i + 1]) == Skipped(tokens, queue[..i])
      else
        && Selected(tokens, queue[..i + 1]) == Selected(tokens, queue[..i])
        && Skipped(tokens, queue[..i + 1]) == Skipped(tokens, queue[..i]) + [file.id]
  {
    assert queue[..i + 1][..i] == queue[..i];
  }

  lemma {:induction false} MessagesNext(tokens: map<string, string>, sent: seq<Outgoing>, file: Outgoing)
    requires AllSelected(tokens, sent) && file.id in tokens
    ensures AllSelected(tokens, sent + [file])
    ensures Messages(tokens, sent + [file])
         == Messages(tokens, sent) + [Header(file.id, tokens[file.id])] + Binaries(Rechunk(Flatten(file.parts)))
  {
    hide Flatten, Rechunk, Binaries;
    assert (sent + [file])[..|sent|] == sent;
    var header, binaries := [Header(file.id, tokens[file.id])], Binaries(Rechunk(Flatten(file.parts)));
    assert Messages(tokens, sent) + (header + binaries) == Messages(tokens, sent) + header + binaries;
  }

  predicate Increasing(positions: seq<nat>) {
    forall i, j :: 0 <= i < j < |positions| ==> positions[i] < positions[j]
  }

  /** `positions` are, in order, those of the files that have a token, or those that have none. */
  predicate Picks(tokens: map<string, string>, queue: seq<Outgoing>, positions: seq<nat>, selected: bool) {
    && Increasing(positions)
    && (forall k :: 0 <= k < |positions| ==> positions[k] < |queue|)
    && (forall i :: 0 <= i < |queue| ==> (i in positions <==> (queue[i].id in tokens <==> selected)))
  }

  lemma {:induction false} PicksNext(tokens: map<string, string>, queue: seq<Outgoing>, positions: seq<nat>,
                                     selected: bool)
    requires queue != [] && Picks(tokens, queue[..|queue| - 1], positions, selected)
    ensures var n := |queue| - 1;
      Picks(tokens, queue, if queue[n].id in tokens <==> selected then positions + [n] else positions, selected)
  {
    var n := |queue| - 1;
    assert forall i :: 0 <= i < n ==> queue[..n][i] == queue[i];
    assert n !in positions;
  }

  predicate FilesAt(queue: seq<Outgoing>, positions: seq<nat>, files: seq<Outgoing>) {
    && |files| == |positions|
    && forall k :: 0 <= k < |positions| ==> positions[k] < |queue| && files[k] == queue[positions[k]]
  }

  lemma FilesAtNext(queue: seq<Outgoing>, positions: seq<nat>, files: seq<Outgoing>)
    requires queue != [] && FilesAt(queue[..|queue| - 1], positions, files)
    ensures FilesAt(queue, positions, files)
    ensures FilesAt(queue, positions + [|queue| - 1], files + [queue[|queue| - 1]])
  {
  }

  /** The sender sends the files with a token, in the order of the queue. */
  lemma {:induction false} SentInOrder(tokens: map<string, string>, queue: seq<Outgoing>) returns (positions: seq<nat>)
    ensures Picks(tokens, queue, positions, true) && FilesAt(queue, positions, Selected(tokens, queue))
    decreases |queue|
  {
    if queue == [] {
      positions := [];
    } else {
      var n := |queue| - 1;
      positions := SentInOrder(tokens, queue[..n]);
      hide Picks, FilesAt;
      PicksNext(tokens, queue, positions, true);
      FilesAtNext(queue, positions, Selected(tokens, queue[..n]));
      positions := if queue[n].id in tokens then positions + [n] else positions;
    }
  }

  predicate IdsAt(queue: seq<Outgoing>, positions: seq<nat>, ids: seq<string>) {
    && |ids| == |positions|
    && forall k :: 0 <= k < |positions| ==> positions[k] < |queue| && ids[k] == queue[positions[k]].id
  }

  lemma IdsAtNext(queue: seq<Outgoing>, positions: seq<nat>, ids: seq<string>)
    requires queue != [] && IdsAt(queue[..|queue| - 1], positions, ids)
    ensures IdsAt(queue, positions, ids)
    ensures IdsAt(queue, positions + [|queue| - 1], ids + [queue[|queue| - 1].id])
  {
  }

  /** It reports the ids of the others, in the same order. */
  lemma {:induction false} SkippedInOrder(tokens: map<string, string>, queue: seq<Outgoing>)
    returns (positions: seq<nat>)
    ensures Picks(tokens, queue, positions, false) && IdsAt(queue, positions, Skipped(tokens, queue))
    decreases |queue|
  {
    if queue == [] {
      positions := [];
    } else {
      var n := |queue| - 1;
      positions := SkippedInOrder(tokens, queue[..n]);
      hide Picks, IdsAt;
      PicksNext(tokens, queue, positions, false);
      IdsAtNext(queue, positions, Skipped(tokens, queue[..n]));
      positions := if queue[n].id in tokens then positions else positions + [n];
    }
  }

  lemma {:induction false} NothingQueued(tokens: map<string, string>)
    ensures AllSelected(tokens, []) && Selected(tokens, []) == [] && Skipped(tokens, []) == []
    ensures Messages(tokens, []) == []
  {
  }

  /** The sender loop: files without a token are reported and skipped. */
  method SendFiles(tokens: map<string, string>, queue: seq<Outgoing>)
    returns (messages: seq<Message>, refused: seq<string>)
    ensures AllSelected(tokens, Selected(tokens, queue))
    ensures messages == Messages(tokens, Selected(tokens, queue)) + [Delimiter]
    ensures refused == Skipped(tokens, queue)
  {
    hide Selected, Skipped, Messages, AllSelected, Rechunk, Flatten, Binaries;
    messages, refused := [], [];
    NothingQueued(tokens);
    assert queue[..0] == [];
    for i := 0 to |queue|
      invariant AllSelected(tokens, Selected(tokens, queue[..i]))
      invariant messages == Messages(tokens, Selected(tokens, queue[..i]))
      invariant refused == Skipped(tokens, queue[..i])
    {
      var file := queue[i];
      QueueNext(tokens, queue, i);
      if file.id !in tokens {
        refused := refused + [file.id];
        continue;
      }
      MessagesNext(tokens, Selected(tokens, queue[..i]), file);
      messages := messages + [Header(file.id, tokens[file.id])];
      var chunks := ProcessInChunks(file.parts);
      messages := messages + Binaries(chunks);
    }
    assert queue[..|queue|] == queue;
    messages := messages + [Delimiter];
  }

  // Receiver

  datatype Offer = Offer(id: string, size: nat)

  /** `received` counts every byte that arrived, `content` is what the application got. */
  datatype OpenFile = OpenFile(id: string, size: nat, received: nat, content: Bytes)

  /** A file the application was given; `cut` if it was closed for being too long. */
  datatype ReceivedFile = ReceivedFile(id: string, content: Bytes, cut: bool)

  /**
   * The application reports one result per file it was given, in order. An
   * acknowledgement names a file and sends back the next result, whichever
   * file that is for: `file` and `result` are the two positions.
   */
  datatype Acknowledgement = Acknowledgement(id: string, file: nat, result: nat)

  datatype FileError =
    | InvalidToken(id: string)
    | FileNotFound(id: string)
    | SizeUnavailable(id: string)
    | TooManyBytes(id: string)
    | NoHeader

  /** The loop ends at the delimiter, or fails on a text that is no header. */
  datatype Ending = Stopped | ParseError

  datatype Receiver = Receiver(
    current: Option<OpenFile>,
    closed: seq<ReceivedFile>,
    acknowledged: seq<Acknowledgement>,
    errors: seq<FileError>,
    ended: Option<Ending>)

  const IDLE: Receiver := Receiver(None, [], [], [], None)

  /** The files the application was given, with the bytes it got of each. */
  function Delivered(r: Receiver): seq<ReceivedFile> {
    if r.current.None? then r.closed else Closed(r, false)
  }

  /** The files given once the current one is closed. */
  function Closed(r: Receiver, cut: bool): seq<ReceivedFile>
    requires r.current.Some?
  {
    r.closed + [ReceivedFile(r.current.value.id, r.current.value.content, cut)]
  }

  function NextAcknowledgement(r: Receiver): Acknowledgement
    requires r.current.Some?
  {
    Acknowledgement(r.current.value.id, |r.closed|, |r.acknowledged|)
  }

  /** The size of the first offered file with this id. */
  function Declared(offers: seq<Offer>, id: string): Option<nat> {
    if offers == [] then None
    else if offers[0].id == id then Some(offers[0].size)
    else Declared(offers[1..], id)
  }

  function CloseCurrent(r: Receiver): Receiver {
    if r.current.None? then r
    else r.(current := None, closed := Closed(r, false), acknowledged := r.acknowledged + [NextAcknowledgement(r)])
  }

  function OnHeader(tokens: map<string, string>, offers: seq<Offer>, r: Receiver, id: string, token: string): Receiver {
    if id !in tokens then r.(errors := r.errors + [FileNotFound(id)])
    else if tokens[id] != token then r.(errors := r.errors + [InvalidToken(id)])
    else
      match Declared(offers, id)
      case None => r.(errors := r.errors + [SizeUnavailable(id)])
      case Some(size) => r.(current := Some(OpenFile(id, size, 0, [])))
  }

  function OnBinary(r: Receiver, data: Bytes): Receiver {
    match r.current
    case None => r.(errors := r.errors + [NoHeader])
    case Some(file) =>
      var received := file.received + |data|;
      if received > file.size then
        r.(current := None, closed := Closed(r, true), errors := r.errors + [TooManyBytes(file.id)])
      else r.(current := Some(file.(received := received, content := file.content + data)))
  }

  function OnMessage(tokens: map<string, string>, offers: seq<Offer>, r: Receiver, message: Message): Receiver {
    if r.ended.Some? then r
    else
      match message
      case Binary(data) => OnBinary(r, data)
      case Header(id, token) => OnHeader(tokens, offers, CloseCurrent(r), id, token)
      case Delimiter =>
        // Without an open file the delimiter is taken for a header.
        CloseCurrent(r).(ended := Some(if r.current.Some? then Stopped else ParseError))
  }

  function Receive(tokens: map<string, string>, offers: seq<Offer>, r: Receiver, messages: seq<Message>): Receiver
    decreases |messages|
  {
    if messages == [] then r
    else OnMessage(tokens, offers, Receive(tokens, offers, r, messages[..|messages| - 1]), messages[|messages| - 1])
  }

  lemma {:induction false} ReceiveConcat(tokens: map<string, string>, offers: seq<Offer>, r: Receiver,
                                         a: seq<Message>, b: seq<Message>)
    ensures Receive(tokens, offers, r, a + b) == Receive(tokens, offers, Receive(tokens, offers, r, a), b)
    decreases |b|
  {
    if b == [] {
      assert a + b == a;
    } else {
      ReceiveConcat(tokens, offers, r, a, b[..|b| - 1]);
      assert (a + b)[..|a + b| - 1] == a + b[..|b| - 1];
    }
  }

  lemma {:induction false} ReceiveNext(tokens: map<string, string>, offers: seq<Offer>, r: Receiver,
                                       messages: seq<Message>, next: Message)
    ensures Receive(tokens, offers, r, messages + [next])
         == OnMessage(tokens, offers, Receive(tokens, offers, r, messages), next)
  {
    assert (messages + [next])[..|messages|] == messages;
  }

  /** The receive loop, with the fields of the source as local variables. */
  method ReceiveFiles(tokens: map<string, string>, offers: seq<Offer>, messages: seq<Message>) returns (r: Receiver)
    ensures r == Receive(tokens, offers, IDLE, messages)
  {
    var current: Option<OpenFile> := None;
    var closed: seq<ReceivedFile>, acknowledged: seq<Acknowledgement>, errors: seq<FileError> := [], [], [];
    for i := 0 to |messages|
      invariant Receive(tokens, offers, IDLE, messages[..i]) == Receiver(current, closed, acknowledged, errors, None)
    {
      assert messages[..i + 1] == messages[..i] + [messages[i]];
      ReceiveNext(tokens, offers, IDLE, messages[..i], messages[i]);
      if messages[i].Binary? {
        if current.None? {
          errors := errors + [NoHeader];
          continue;
        }
        var file := current.value;
        file := file.(received := file.received + |messages[i].data|);
        if file.received > file.size {
          errors := errors + [TooManyBytes(file.id)];
          closed := closed + [ReceivedFile(file.id, file.content, true)];
          current := None;
          continue;
        }
        current := Some(file.(content := file.content + messages[i].data));
      } else {
        var last := current;
        current := None;
        if last.Some? {
          acknowledged := acknowledged + [Acknowledgement(last.value.id, |closed|, |acknowledged|)];
          closed := closed + [ReceivedFile(last.value.id, last.value.content, false)];
        }
        if messages[i].Delimiter? {
          EndedIgnoresRest(tokens, offers, messages, i + 1);
          return Receiver(None, closed, acknowledged, errors, Some(if last.Some? then Stopped else ParseError));
        }
        var id := messages[i].id;
        if id !in tokens {
          errors := errors + [FileNotFound(id)];
          continue;
        }
        if tokens[id] != messages[i].token {
          errors := errors + [InvalidToken(id)];
          continue;
        }
        var size := Declared(offers, id);
        if size.None? {
          errors := errors + [SizeUnavailable(id)];
          continue;
        }
        current := Some(OpenFile(id, size.value, 0, []));
      }
    }
    assert messages[..|messages|] == messages;
    return Receiver(current, closed, acknowledged, errors, None);
  }

  lemma {:induction false} EndedIgnoresRest(tokens: map<string, string>, offers: seq<Offer>, messages: seq<Message>,
                                            n: nat)
    requires n <= |messages| && Receive(tokens, offers, IDLE, messages[..n]).ended.Some?
    ensures Receive(tokens, offers, IDLE, messages) == Receive(tokens, offers, IDLE, messages[..n])
    decreases |messages|
  {
    if n == |messages| {
      assert messages[..n] == messages;
    } else {
      var before := messages[..|messages| - 1];
      assert before[..n] == messages[..n];
      EndedIgnoresRest(tokens, offers, before, n);
    }
  }

  // Round trip

  predicate Fits(offers: seq<Offer>, file: Outgoing) {
    var size := Declared(offers, file.id);
    size.Some? && |file.Content()| <= size.value
  }

  /** What the application gets of a file: everything, or the full chunks below its declared size. */
  function Kept(size: nat, content: Bytes): Bytes {
    if |content| <= size then content else content[..size / CHUNK_SIZE * CHUNK_SIZE]
  }

  function ExpectedFiles(offers: seq<Offer>, sent: seq<Outgoing>): seq<ReceivedFile> {
    if sent == [] then []
    else
      var before, file := ExpectedFiles(offers, sent[..|sent| - 1]), sent[|sent| - 1];
      match Declared(offers, file.id)
      case None => before
      case Some(size) => before + [ReceivedFile(file.id, Kept(size, file.Content()), |file.Content()| > size)]
  }

  function ExpectedAcknowledgements(offers: seq<Offer>, sent: seq<Outgoing>): seq<Acknowledgement> {
    if sent == [] then []
    else
      var before, file := ExpectedAcknowledgements(offers, sent[..|sent| - 1]), sent[|sent| - 1];
      var given := |ExpectedFiles(offers, sent[..|sent| - 1])|;
      if Fits(offers, file) then before + [Acknowledgement(file.id, given, |before|)] else before
  }

  predicate AllFit(offers: seq<Offer>, sent: seq<Outgoing>) {
    forall i :: 0 <= i < |sent| ==> Fits(offers, sent[i])
  }

  predicate LastFits(offers: seq<Offer>, sent: seq<Outgoing>) {
    sent != [] && Fits(offers, sent[|sent| - 1])
  }

  lemma BinariesConcat(a: seq<Bytes>, b: seq<Bytes>)
    ensures Binaries(a + b) == Binaries(a) + Binaries(b)
  {
  }

  lemma {:induction false} FittingChunks(tokens: map<string, string>, offers: seq<Offer>, r: Receiver,
                                         chunks: seq<Bytes>)
    requires r.ended.None? && r.current.Some?
    requires r.current.value.received + |Flatten(chunks)| <= r.current.value.size
    ensures var file := r.current.value;
      Receive(tokens, offers, r, Binaries(chunks)) ==
      r.(current := Some(file.(received := file.received + |Flatten(chunks)|,
                               content := file.content + Flatten(chunks))))
    decreases |chunks|
  {
    if chunks == [] {
      var file := r.current.value;
      assert file.content + Flatten(chunks) == file.content;
    } else {
      var before, last := chunks[..|chunks| - 1], chunks[|chunks| - 1];
      assert chunks == before + [last];
      FlattenAppend(before, last);
      FittingChunks(tokens, offers, r, before);
      BinariesConcat(before, [last]);
      assert Binaries(chunks) == Binaries(before) + [Binary(last)];
      ReceiveNext(tokens, offers, r, Binaries(before), Binary(last));
      var content := r.current.value.content;
      assert content + Flatten(before) + last == content + Flatten(chunks);
    }
  }

  /** Binary messages without an open file are only reported. */
  lemma {:induction false} OrphanChunks(tokens: map<string, string>, offers: seq<Offer>, r: Receiver,
                                        chunks: seq<Bytes>)
    requires r.ended.None? && r.current.None?
    ensures var after := Receive(tokens, offers, r, Binaries(chunks));
      after == r.(errors := after.errors) && |after.errors| == |r.errors| + |chunks|
    decreases |chunks|
  {
    if chunks != [] {
      var before, last := chunks[..|chunks| - 1], chunks[|chunks| - 1];
      assert chunks == before + [last];
      OrphanChunks(tokens, offers, r, before);
      BinariesConcat(before, [last]);
      assert Binaries(chunks) == Binaries(before) + [Binary(last)];
      ReceiveNext(tokens, offers, r, Binaries(before), Binary(last));
    }
  }

  /** The first chunk that does not fit closes the file; the rest of its chunks is only reported. */
  lemma {:induction false} OverflowingChunk(tokens: map<string, string>, offers: seq<Offer>, r: Receiver,
                         fitting: seq<Bytes>, chunk: Bytes, rest: seq<Bytes>)
    requires r.ended.None? && r.current.Some?
    requires r.current.value.received + |Flatten(fitting)| <= r.current.value.size
    requires r.current.value.received + |Flatten(fitting)| + |chunk| > r.current.value.size
    ensures var after := Receive(tokens, offers, r, Binaries(fitting + [chunk] + rest));
      var file := r.current.value;
      && after == r.(current := None, errors := after.errors,
                     closed := r.closed + [ReceivedFile(file.id, file.content + Flatten(fitting), true)])
      && |after.errors| > |r.errors|
  {
    hide Flatten, Receive, Binaries;
    FittingChunks(tokens, offers, r, fitting);
    var filled := Receive(tokens, offers, r, Binaries(fitting));
    ReceiveNext(tokens, offers, r, Binaries(fitting), Binary(chunk));
    var dropped := OnMessage(tokens, offers, filled, Binary(chunk));
    OrphanChunks(tokens, offers, dropped, rest);
    BinariesConcat(fitting, [chunk]);
    BinariesConcat(fitting + [chunk], rest);
    SingleBinary(chunk);
    ReceiveConcat(tokens, offers, r, Binaries(fitting) + [Binary(chunk)], Binaries(rest));
  }

  lemma SingleBinary(chunk: Bytes)
    ensures Binaries([chunk]) == [Binary(chunk)]
  {
  }

  /** Where the chunks of an oversize file stop fitting. */
  lemma OversizeSplit(content: Bytes, size: nat) returns (fitting: seq<Bytes>, chunk: Bytes, rest: seq<Bytes>)
    requires |content| > size
    ensures Rechunk(content) == fitting + [chunk] + rest
    ensures Flatten(fitting) == Kept(size, content) && |Flatten(fitting)| <= size < |Flatten(fitting)| + |chunk|
  {
    var n := size / CHUNK_SIZE;
    var remaining := content[n * CHUNK_SIZE..];
    RechunkSplits(content, n);
    RechunkKeepsBytes(content[..n * CHUNK_SIZE]);
    fitting := Rechunk(content[..n * CHUNK_SIZE]);
    chunk := if |remaining| < CHUNK_SIZE then remaining else remaining[..CHUNK_SIZE];
    rest := Rechunk(remaining)[1..];
    assert Rechunk(remaining) == [chunk] + rest;
  }

  /** Receiving the messages of one file, whatever was open before. */
  lemma {:induction false} OneFile(tokens: map<string, string>, offers: seq<Offer>, r: Receiver, file: Outgoing)
    requires r.ended.None? && file.id in tokens
    ensures var after := Receive(tokens, offers, r, FileMessages(tokens[file.id], file));
      var closed := CloseCurrent(r);
      var content := file.Content();
      match Declared(offers, file.id)
      case None => after == closed.(errors := after.errors) && |after.errors| > |r.errors|
      case Some(size) =>
        if |content| <= size then after == closed.(current := Some(OpenFile(file.id, size, |content|, content)))
        else
          && after == closed.(errors := after.errors,
                              closed := closed.closed + [ReceivedFile(file.id, Kept(size, content), true)])
          && |after.errors| > |r.errors|
  {
    var header, chunks := Header(file.id, tokens[file.id]), Rechunk(file.Content());
    RechunkKeepsBytes(file.Content());
    ReceiveNext(tokens, offers, r, [], header);
    assert [] + [header] == [header];
    ReceiveConcat(tokens, offers, r, [header], Binaries(chunks));
    hide Receive, Flatten, Rechunk, Binaries, Kept;
    var begun := OnMessage(tokens, offers, r, header);
    if begun.current.None? {
      OrphanChunks(tokens, offers, begun, chunks);
    } else if |file.Content()| <= begun.current.value.size {
      FittingChunks(tokens, offers, begun, chunks);
      assert [] + file.Content() == file.Content();
    } else {
      var fitting, chunk, rest := OversizeSplit(file.Content(), begun.current.value.size);
      OverflowingChunk(tokens, offers, begun, fitting, chunk, rest);
      assert [] + Flatten(fitting) == Flatten(fitting);
    }
  }

  /** What is known after the messages of `sent`, before the delimiter. */
  predicate Tracks(offers: seq<Offer>, sent: seq<Outgoing>, r: Receiver) {
    && r.ended.None?
    && Delivered(r) == ExpectedFiles(offers, sent)
    && (r.errors == [] <==> AllFit(offers, sent))
    && (r.current.Some? <==> LastFits(offers, sent))
    && CloseCurrent(r).acknowledged == ExpectedAcknowledgements(offers, sent)
  }

  lemma AllFitAppend(offers: seq<Offer>, sent: seq<Outgoing>)
    requires sent != []
    ensures AllFit(offers, sent) <==> AllFit(offers, sent[..|sent| - 1]) && Fits(offers, sent[|sent| - 1])
  {
    var n := |sent| - 1;
    assert forall i :: 0 <= i < n ==> sent[..n][i] == sent[i];
  }

  lemma NextFile(tokens: map<string, string>, offers: seq<Offer>, r: Receiver, sent: seq<Outgoing>)
    requires sent != [] && Tracks(offers, sent[..|sent| - 1], r)
    requires sent[|sent| - 1].id in tokens
    ensures var file := sent[|sent| - 1];
      Tracks(offers, sent, Receive(tokens, offers, r, FileMessages(tokens[file.id], file)))
  {
    hide Receive, AllFit, FileMessages;
    AllFitAppend(offers, sent);
    OneFile(tokens, offers, r, sent[|sent| - 1]);
    var file := sent[|sent| - 1];
    var after := Receive(tokens, offers, r, FileMessages(tokens[file.id], file));
    assert Delivered(after) == ExpectedFiles(offers, sent);
  }

  lemma {:induction false} TracksSent(tokens: map<string, string>, offers: seq<Offer>, sent: seq<Outgoing>)
    requires AllSelected(tokens, sent)
    ensures Tracks(offers, sent, Receive(tokens, offers, IDLE, Messages(tokens, sent)))
    decreases |sent|
  {
    if sent != [] {
      var before, file := sent[..|sent| - 1], sent[|sent| - 1];
      TracksSent(tokens, offers, before);
      var r := Receive(tokens, offers, IDLE, Messages(tokens, before));
      NextFile(tokens, offers, r, sent);
      ReceiveConcat(tokens, offers, IDLE, Messages(tokens, before), FileMessages(tokens[file.id], file));
    }
  }

  /**
   * The receiver loop on the sender's messages, for every list of files: the
   * application gets the files in order, errors arise exactly if a file does
   * not fit, and the loop stops cleanly exactly if the last file sent fits. In
   * particular an empty list makes it fail.
   */
  lemma {:induction false} FramingRoundTrip(tokens: map<string, string>, offers: seq<Offer>, queue: seq<Outgoing>)
    ensures var sent := Selected(tokens, queue);
      && AllSelected(tokens, sent)
      && var r := Receive(tokens, offers, IDLE, Messages(tokens, sent) + [Delimiter]);
      && r.current.None?
      && r.closed == ExpectedFiles(offers, sent)
      && r.acknowledged == ExpectedAcknowledgements(offers, sent)
      && (r.errors == [] <==> AllFit(offers, sent))
      && r.ended == Some(if LastFits(offers, sent) then Stopped else ParseError)
  {
    var sent := Selected(tokens, queue);
    SelectedHaveTokens(tokens, queue);
    TracksSent(tokens, offers, sent);
    ReceiveNext(tokens, offers, IDLE, Messages(tokens, sent), Delimiter);
  }

  lemma {:induction false} FittingFilesUnchanged(offers: seq<Offer>, sent: seq<Outgoing>)
    requires AllFit(offers, sent)
    ensures |ExpectedFiles(offers, sent)| == |ExpectedAcknowledgements(offers, sent)| == |sent|
    ensures forall i :: 0 <= i < |sent| ==>
      && ExpectedFiles(offers, sent)[i] == ReceivedFile(sent[i].id, sent[i].Content(), false)
      && ExpectedAcknowledgements(offers, sent)[i] == Acknowledgement(sent[i].id, i, i)
    decreases |sent|
  {
    hide Flatten;
    if sent != [] {
      var before, file := sent[..|sent| - 1], sent[|sent| - 1];
      AllFitAppend(offers, sent);
      FittingFilesUnchanged(offers, before);
      assert ExpectedFiles(offers, sent)
          == ExpectedFiles(offers, before) + [ReceivedFile(file.id, file.Content(), false)];
      assert ExpectedAcknowledgements(offers, sent)
          == ExpectedAcknowledgements(offers, before) + [Acknowledgement(file.id, |before|, |before|)];
      assert forall i :: 0 <= i < |before| ==> before[i] == sent[i];
    }
  }

  /** Files that fit arrive byte for byte, are all acknowledged with their own result, and the receiver stops. */
  lemma {:induction false} FittingFilesArrive(tokens: map<string, string>, offers: seq<Offer>, queue: seq<Outgoing>)
    requires Selected(tokens, queue) != [] && AllFit(offers, Selected(tokens, queue))
    ensures var sent := Selected(tokens, queue);
      && AllSelected(tokens, sent)
      && var r := Receive(tokens, offers, IDLE, Messages(tokens, sent) + [Delimiter]);
      && r.ended == Some(Stopped) && r.errors == []
      && |r.closed| == |r.acknowledged| == |sent|
      && forall i :: 0 <= i < |sent| ==>
           && r.closed[i] == ReceivedFile(sent[i].id, sent[i].Content(), false)
           && r.acknowledged[i] == Acknowledgement(sent[i].id, i, i)
  {
    FramingRoundTrip(tokens, offers, queue);
    FittingFilesUnchanged(offers, Selected(tokens, queue));
  }

  /** A cut file differs from the sent one exactly if it was too long. */
  lemma KeptIffFits(size: nat, content: Bytes)
    ensures Kept(size, content) == content <==> |content| <= size
    ensures |Kept(size, content)| <= size && Kept(size, content) <= content
  {
  }

  // Any sender

  predicate HasToken(tokens: map<string, string>, offers: seq<Offer>, file: ReceivedFile) {
    && file.id in tokens
    && Declared(offers, file.id).Some?
    && |file.content| <= Declared(offers, file.id).value
  }

  predicate Guarded(tokens: map<string, string>, offers: seq<Offer>, r: Receiver) {
    && (forall i :: 0 <= i < |r.closed| ==> HasToken(tokens, offers, r.closed[i]))
    && (r.current.Some? ==>
          && r.current.value.received == |r.current.value.content| <= r.current.value.size
          && r.current.value.id in tokens
          && Declared(offers, r.current.value.id) == Some(r.current.value.size))
  }

  /** Whatever a peer sends, no file exceeds its declared size and none arrives unasked. */
  lemma {:induction false} NothingUnasked(tokens: map<string, string>, offers: seq<Offer>, messages: seq<Message>)
    ensures Guarded(tokens, offers, Receive(tokens, offers, IDLE, messages))
    ensures var files := Delivered(Receive(tokens, offers, IDLE, messages));
      forall i :: 0 <= i < |files| ==> HasToken(tokens, offers, files[i])
    decreases |messages|
  {
    if messages != [] {
      NothingUnasked(tokens, offers, messages[..|messages| - 1]);
    }
  }

  // Where files come from

  /** The bytes of the binary messages, in order. */
  function Payload(messages: seq<Message>): Bytes {
    if messages == [] then []
    else
      var last := messages[|messages| - 1];
      Payload(messages[..|messages| - 1]) + if last.Binary? then last.data else []
  }

  /** The header at `h` names a file that was offered, with the token issued for it, before the delimiter. */
  predicate Admits(tokens: map<string, string>, offers: seq<Offer>, messages: seq<Message>, h: nat) {
    && h < |messages| && messages[h].Header? && Delimiter !in messages[..h]
    && messages[h].id in tokens && messages[h].token == tokens[messages[h].id]
    && Declared(offers, messages[h].id).Some?
  }

  /**
   * The file of the header at `h` holds the bytes of the binaries that follow
   * it up to `e`: all of them, or those before the one that was too much.
   */
  predicate Carries(offers: seq<Offer>, messages: seq<Message>, h: nat, e: nat, file: ReceivedFile) {
    && h < e <= |messages| && messages[h].Header? && messages[h].id == file.id
    && (forall k :: h < k < e ==> messages[k].Binary?)
    && file.content == Payload(messages[h + 1..e])
    && Declared(offers, file.id).Some? && |file.content| <= Declared(offers, file.id).value
    && if file.cut then
         e < |messages| && messages[e].Binary?
         && |file.content| + |messages[e].data| > Declared(offers, file.id).value
       else e == |messages| || !messages[e].Binary?
  }

  /** Every file given to the application has a header and an end of its own, and no admitted header is left out. */
  ghost predicate Traced(tokens: map<string, string>, offers: seq<Offer>, messages: seq<Message>,
                         files: seq<ReceivedFile>, heads: seq<nat>, ends: seq<nat>) {
    && |heads| == |ends| == |files|
    && (forall i, j :: 0 <= i < j < |heads| ==> heads[i] < heads[j])
    && (forall i :: 0 <= i < |heads| ==>
          Admits(tokens, offers, messages, heads[i]) && Carries(offers, messages, heads[i], ends[i], files[i]))
    && (forall h :: Admits(tokens, offers, messages, h) ==> h in heads)
  }

  /** Only the current file still grows. */
  predicate Grows(messages: seq<Message>, r: Receiver, ends: seq<nat>)
    requires |ends| == |Delivered(r)|
  {
    && (forall i :: 0 <= i < |r.closed| ==> ends[i] < |messages|)
    && (r.current.Some? ==> ends[|r.closed|] == |messages|)
    && (r.ended.Some? <==> Delimiter in messages)
    && (r.ended.Some? ==> r.current.None?)
  }

  /** Both together. */
  ghost predicate Trace(tokens: map<string, string>, offers: seq<Offer>, messages: seq<Message>, r: Receiver,
                        heads: seq<nat>, ends: seq<nat>) {
    Traced(tokens, offers, messages, Delivered(r), heads, ends) && Grows(messages, r, ends)
  }

  lemma PayloadNext(messages: seq<Message>, h: nat, next: Message)
    requires h < |messages|
    ensures Payload((messages + [next])[h + 1..])
         == Payload(messages[h + 1..]) + if next.Binary? then next.data else []
  {
    var rest := (messages + [next])[h + 1..];
    assert rest == messages[h + 1..] + [next];
    assert rest[..|rest| - 1] == messages[h + 1..];
  }

  lemma CarriesLonger(offers: seq<Offer>, messages: seq<Message>, next: Message, h: nat, e: nat, file: ReceivedFile)
    requires Carries(offers, messages, h, e, file)
    requires e < |messages| || !next.Binary?
    ensures Carries(offers, messages + [next], h, e, file)
  {
    assert (messages + [next])[h + 1..e] == messages[h + 1..e];
    assert forall k :: 0 <= k < |messages| ==> (messages + [next])[k] == messages[k];
  }

  lemma AdmitsLonger(tokens: map<string, string>, offers: seq<Offer>, messages: seq<Message>, next: Message, h: nat)
    ensures Admits(tokens, offers, messages + [next], h) <==>
      || Admits(tokens, offers, messages, h)
      || (h == |messages| && Admits(tokens, offers, messages + [next], h))
  {
    if h < |messages| {
      assert (messages + [next])[..h] == messages[..h];
    }
  }

  lemma {:induction false} AdmitsNext(tokens: map<string, string>, offers: seq<Offer>, messages: seq<Message>,
                                      next: Message)
    ensures Admits(tokens, offers, messages + [next], |messages|) <==>
      && next.Header? && Delimiter !in messages
      && next.id in tokens && next.token == tokens[next.id] && Declared(offers, next.id).Some?
  {
    assert (messages + [next])[..|messages|] == messages;
  }

  /** A message that opens no file leaves the files as they are, except for the current one. */
  lemma {:induction false} TracedLonger(tokens: map<string, string>, offers: seq<Offer>, messages: seq<Message>,
                                        next: Message, files: seq<ReceivedFile>, heads: seq<nat>, ends: seq<nat>)
    requires Traced(tokens, offers, messages, files, heads, ends)
    requires !Admits(tokens, offers, messages + [next], |messages|)
    requires forall i :: 0 <= i < |ends| ==> ends[i] < |messages| || !next.Binary?
    ensures Traced(tokens, offers, messages + [next], files, heads, ends)
  {
    hide Admits, Carries;
    forall h: nat ensures Admits(tokens, offers, messages + [next], h) <==>
      || Admits(tokens, offers, messages, h)
      || (h == |messages| && Admits(tokens, offers, messages + [next], h))
    {
      AdmitsLonger(tokens, offers, messages, next, h);
    }
    forall i | 0 <= i < |heads| ensures Carries(offers, messages + [next], heads[i], ends[i], files[i]) {
      CarriesLonger(offers, messages, next, heads[i], ends[i], files[i]);
    }
  }

  /** The last file takes one more binary, or is cut before it. */
  lemma {:induction false} TracedBinary(tokens: map<string, string>, offers: seq<Offer>, messages: seq<Message>,
                                        data: Bytes, files: seq<ReceivedFile>, last: ReceivedFile, grown: ReceivedFile,
                                        heads: seq<nat>, ends: seq<nat>)
    requires Traced(tokens, offers, messages, files + [last], heads, ends)
    requires forall i :: 0 <= i < |files| ==> ends[i] < |messages|
    requires ends[|files|] == |messages| && !last.cut && grown.id == last.id
    requires Declared(offers, last.id).Some?
    requires if |last.content| + |data| > Declared(offers, last.id).value
      then grown.content == last.content && grown.cut
      else grown.content == last.content + data && !grown.cut
    ensures var n := |messages|;
      Traced(tokens, offers, messages + [Binary(data)], files + [grown], heads,
             ends[|files| := if grown.cut then n else n + 1])
  {
    var n, next := |messages|, messages + [Binary(data)];
    var h := heads[|files|];
    var after := ends[|files| := if grown.cut then n else n + 1];
    assert Carries(offers, messages, h, n, last);
    PayloadNext(messages, h, Binary(data));
    assert messages[h + 1..n] == messages[h + 1..] && next[h + 1..n + 1] == next[h + 1..];
    assert next[h + 1..n] == messages[h + 1..n];
    assert forall k :: 0 <= k < n ==> next[k] == messages[k];
    assert Carries(offers, next, h, after[|files|], grown);
    hide Admits, Carries, Payload;
    forall k: nat ensures Admits(tokens, offers, next, k) <==> Admits(tokens, offers, messages, k) {
      AdmitsLonger(tokens, offers, messages, Binary(data), k);
      AdmitsNext(tokens, offers, messages, Binary(data));
    }
    forall i | 0 <= i < |files| ensures Carries(offers, next, heads[i], ends[i], files[i]) {
      assert (files + [last])[i] == files[i];
      CarriesLonger(offers, messages, Binary(data), heads[i], ends[i], files[i]);
    }
  }

  /** An admitted header opens an empty file. */
  lemma {:induction false} TracedHeader(tokens: map<string, string>, offers: seq<Offer>, messages: seq<Message>,
                                        next: Message, files: seq<ReceivedFile>, heads: seq<nat>, ends: seq<nat>)
    requires Traced(tokens, offers, messages, files, heads, ends)
    requires Admits(tokens, offers, messages + [next], |messages|)
    ensures var n := |messages|;
      Traced(tokens, offers, messages + [next], files + [ReceivedFile(next.id, [], false)], heads + [n], ends + [n + 1])
  {
    var n := |messages|;
    var file := ReceivedFile(next.id, [], false);
    AdmitsNext(tokens, offers, messages, next);
    assert (messages + [next])[n] == next && (messages + [next])[n + 1..n + 1] == [];
    assert Carries(offers, messages + [next], n, n + 1, file);
    forall i | 0 <= i < |heads| ensures heads[i] < n {
      assert Admits(tokens, offers, messages, heads[i]);
    }
    hide Admits, Carries;
    forall h: nat ensures Admits(tokens, offers, messages + [next], h) ==> h in heads || h == n {
      AdmitsLonger(tokens, offers, messages, next, h);
    }
    forall i | 0 <= i < |heads|
      ensures Admits(tokens, offers, messages + [next], heads[i])
      ensures Carries(offers, messages + [next], heads[i], ends[i], files[i])
    {
      AdmitsLonger(tokens, offers, messages, next, heads[i]);
      CarriesLonger(offers, messages, next, heads[i], ends[i], files[i]);
    }
  }

  /** The open file as the application has it. */
  function Current(r: Receiver): ReceivedFile
    requires r.current.Some?
  {
    ReceivedFile(r.current.value.id, r.current.value.content, false)
  }

  /** The open file after one more binary. */
  function Grown(r: Receiver, data: Bytes): ReceivedFile
    requires r.current.Some?
  {
    if |r.current.value.content| + |data| <= r.current.value.size
    then Current(r).(content := r.current.value.content + data) else Current(r).(cut := true)
  }

  lemma BinaryDelivers(tokens: map<string, string>, offers: seq<Offer>, r: Receiver, data: Bytes)
    requires Guarded(tokens, offers, r) && r.ended.None? && r.current.Some?
    ensures var t := OnMessage(tokens, offers, r, Binary(data));
      && Delivered(t) == r.closed + [Grown(r, data)] && t.ended.None?
      && (t.current.Some? <==> !Grown(r, data).cut)
      && t.closed == (if Grown(r, data).cut then r.closed + [Grown(r, data)] else r.closed)
  {
  }

  /** What any other message does to the files. */
  lemma {:induction false} OtherDelivers(tokens: map<string, string>, offers: seq<Offer>, r: Receiver, next: Message,
                                         admitted: bool)
    requires !next.Binary? || r.current.None?
    requires r.ended.Some? ==> r.current.None?
    requires admitted <==>
      && next.Header? && r.ended.None?
      && next.id in tokens && next.token == tokens[next.id] && Declared(offers, next.id).Some?
    ensures var t := OnMessage(tokens, offers, r, next);
      && Delivered(t) == Delivered(r) + (if admitted then [ReceivedFile(next.id, [], false)] else [])
      && t.closed == Delivered(r) && (t.current.Some? <==> admitted)
      && (t.ended.Some? <==> r.ended.Some? || next.Delimiter?)
  {
  }

  lemma {:induction false} TraceBinary(tokens: map<string, string>, offers: seq<Offer>, messages: seq<Message>,
                                       data: Bytes, r: Receiver, heads: seq<nat>, ends: seq<nat>)
    requires Trace(tokens, offers, messages, r, heads, ends)
    requires Guarded(tokens, offers, r) && r.current.Some? && |r.closed| < |ends|
    ensures var n, t := |messages|, OnMessage(tokens, offers, r, Binary(data));
      var stops := ends[|r.closed| := if Grown(r, data).cut then n else n + 1];
      Trace(tokens, offers, messages + [Binary(data)], t, heads, stops)
  {
    BinaryDelivers(tokens, offers, r, data);
    CurrentIsDeclared(tokens, offers, r);
    EndsBounded(tokens, offers, messages, Delivered(r), heads, ends);
    GrowsBinary(messages, data, r, OnMessage(tokens, offers, r, Binary(data)), ends);
    assert Delivered(r) == r.closed + [Current(r)];
    hide OnMessage, Guarded, Grows, Traced, Delivered;
    TracedBinary(tokens, offers, messages, data, r.closed, Current(r), Grown(r, data), heads, ends);
  }

  lemma CurrentIsDeclared(tokens: map<string, string>, offers: seq<Offer>, r: Receiver)
    requires Guarded(tokens, offers, r) && r.current.Some?
    ensures Declared(offers, r.current.value.id) == Some(r.current.value.size)
  {
    hide HasToken;
  }

  lemma GrowsBinary(messages: seq<Message>, data: Bytes, r: Receiver, t: Receiver, ends: seq<nat>)
    requires |ends| == |Delivered(r)| && Grows(messages, r, ends) && r.current.Some? && |r.closed| < |ends|
    requires Delivered(t) == r.closed + [Grown(r, data)] && t.ended.None?
    requires t.current.Some? <==> !Grown(r, data).cut
    requires t.closed == (if Grown(r, data).cut then r.closed + [Grown(r, data)] else r.closed)
    ensures var n := |messages|;
      var stops := ends[|r.closed| := if Grown(r, data).cut then n else n + 1];
      && |stops| == |Delivered(t)| && Grows(messages + [Binary(data)], t, stops)
      && ends[|r.closed|] == n && forall i :: 0 <= i < |r.closed| ==> ends[i] < n
  {
  }

  lemma TraceSizes(tokens: map<string, string>, offers: seq<Offer>, messages: seq<Message>, r: Receiver,
                   heads: seq<nat>, ends: seq<nat>)
    requires Trace(tokens, offers, messages, r, heads, ends)
    ensures |ends| == |Delivered(r)| && (r.current.Some? ==> |r.closed| < |ends|)
  {
    hide Admits, Carries, Grows;
  }

  lemma {:induction false} TraceOther(tokens: map<string, string>, offers: seq<Offer>, messages: seq<Message>,
                                      next: Message, r: Receiver, heads: seq<nat>, ends: seq<nat>, admitted: bool)
    requires Trace(tokens, offers, messages, r, heads, ends)
    requires !next.Binary? || r.current.None?
    requires admitted <==> Admits(tokens, offers, messages + [next], |messages|)
    ensures var n, t := |messages|, OnMessage(tokens, offers, r, next);
      var stops := if admitted then ends + [n + 1] else ends;
      Trace(tokens, offers, messages + [next], t, if admitted then heads + [n] else heads, stops)
  {
    AdmitsNext(tokens, offers, messages, next);
    OtherDelivers(tokens, offers, r, next, admitted);
    EndsBounded(tokens, offers, messages, Delivered(r), heads, ends);
    GrowsOther(messages, next, r, OnMessage(tokens, offers, r, next), ends, admitted);
    hide OnMessage, Admits, Grows, Traced;
    assert Delivered(r) + [] == Delivered(r);
    hide Delivered;
    if admitted {
      TracedHeader(tokens, offers, messages, next, Delivered(r), heads, ends);
    } else {
      TracedLonger(tokens, offers, messages, next, Delivered(r), heads, ends);
    }
  }

  lemma GrowsOther(messages: seq<Message>, next: Message, r: Receiver, t: Receiver, ends: seq<nat>, admitted: bool)
    requires admitted ==> next.Header? && r.ended.None?
    requires |ends| == |Delivered(r)| && Grows(messages, r, ends) && (!next.Binary? || r.current.None?)
    requires forall i :: 0 <= i < |ends| ==> ends[i] <= |messages|
    requires Delivered(t) == Delivered(r) + (if admitted then [ReceivedFile(next.id, [], false)] else [])
    requires t.closed == Delivered(r) && (t.current.Some? <==> admitted)
    requires t.ended.Some? <==> r.ended.Some? || next.Delimiter?
    ensures var stops := if admitted then ends + [|messages| + 1] else ends;
      |stops| == |Delivered(t)| && Grows(messages + [next], t, stops)
    ensures !admitted ==> forall i :: 0 <= i < |ends| ==> ends[i] < |messages| || !next.Binary?
  {
  }

  lemma EndsBounded(tokens: map<string, string>, offers: seq<Offer>, messages: seq<Message>, files: seq<ReceivedFile>,
                    heads: seq<nat>, ends: seq<nat>)
    requires Traced(tokens, offers, messages, files, heads, ends)
    ensures forall i :: 0 <= i < |ends| ==> ends[i] <= |messages|
  {
  }

  /** The files after one more message, with their headers and ends. */
  lemma {:induction false} TraceNext(tokens: map<string, string>, offers: seq<Offer>, messages: seq<Message>,
                                     next: Message, r: Receiver, heads: seq<nat>, ends: seq<nat>)
    returns (starts: seq<nat>, stops: seq<nat>)
    requires Trace(tokens, offers, messages, r, heads, ends) && Guarded(tokens, offers, r)
    ensures Trace(tokens, offers, messages + [next], OnMessage(tokens, offers, r, next), starts, stops)
  {
    TraceSizes(tokens, offers, messages, r, heads, ends);
    hide *;
    var n := |messages|;
    if next.Binary? && r.current.Some? {
      TraceBinary(tokens, offers, messages, next.data, r, heads, ends);
      starts, stops := heads, ends[|r.closed| := if Grown(r, next.data).cut then n else n + 1];
    } else {
      var admitted := Admits(tokens, offers, messages + [next], n);
      TraceOther(tokens, offers, messages, next, r, heads, ends, admitted);
      starts, stops := if admitted then heads + [n] else heads, if admitted then ends + [n + 1] else ends;
    }
  }

  /**
   * Whatever the peer sends: the files given to the application are, in order,
   * those of the headers that name an offered file with the token issued for
   * it, each with the bytes of the binaries that follow its own header.
   */
  lemma {:induction false} FilesComeFromHeaders(tokens: map<string, string>, offers: seq<Offer>,
                                                messages: seq<Message>)
    returns (heads: seq<nat>, ends: seq<nat>)
    ensures var r := Receive(tokens, offers, IDLE, messages);
      Traced(tokens, offers, messages, Delivered(r), heads, ends) && Grows(messages, r, ends)
    decreases |messages|
  {
    if messages == [] {
      heads, ends := [], [];
    } else {
      var before, next := messages[..|messages| - 1], messages[|messages| - 1];
      heads, ends := FilesComeFromHeaders(tokens, offers, before);
      assert messages == before + [next];
      NothingUnasked(tokens, offers, before);
      hide Traced, Grows, Guarded, OnMessage, Delivered;
      heads, ends := TraceNext(tokens, offers, before, next, Receive(tokens, offers, IDLE, before), heads, ends);
    }
  }

  /** What a header does before the delimiter: it closes the current file, and opens its own or is reported. */
  lemma {:induction false} HeaderOutcome(tokens: map<string, string>, offers: seq<Offer>, messages: seq<Message>,
                                         id: string, token: string)
    requires Delimiter !in messages
    ensures var r, t := Receive(tokens, offers, IDLE, messages),
                        Receive(tokens, offers, IDLE, messages + [Header(id, token)]);
      var admitted := id in tokens && tokens[id] == token && Declared(offers, id).Some?;
      && t.closed == Delivered(r) && t.ended.None?
      && (t.current.Some? <==> admitted)
      && (admitted ==> t.current.value == OpenFile(id, Declared(offers, id).value, 0, []) && t.errors == r.errors)
      && (id !in tokens ==> t.errors == r.errors + [FileNotFound(id)])
      && (id in tokens && tokens[id] != token ==> t.errors == r.errors + [InvalidToken(id)])
      && (id in tokens && tokens[id] == token && !admitted ==> t.errors == r.errors + [SizeUnavailable(id)])
      && |t.acknowledged| == |r.acknowledged| + (if r.current.Some? then 1 else 0)
  {
    ReceiveNext(tokens, offers, IDLE, messages, Header(id, token));
    var heads, ends := FilesComeFromHeaders(tokens, offers, messages);
    hide Receive, Traced;
  }

  /** A binary before the delimiter that has no file, or is too much for it, is reported once. */
  lemma {:induction false} BinaryOutcome(tokens: map<string, string>, offers: seq<Offer>, messages: seq<Message>,
                                         data: Bytes)
    requires Delimiter !in messages
    ensures var r, t := Receive(tokens, offers, IDLE, messages),
                        Receive(tokens, offers, IDLE, messages + [Binary(data)]);
      && t.acknowledged == r.acknowledged && t.ended.None?
      && (r.current.None? ==> Delivered(t) == Delivered(r) && t.errors == r.errors + [NoHeader])
      && (r.current.Some? ==>
            var file := r.current.value;
            if |file.content| + |data| > file.size
            then t.closed == r.closed + [ReceivedFile(file.id, file.content, true)]
                 && t.current.None? && t.errors == r.errors + [TooManyBytes(file.id)]
            else t.closed == r.closed && t.current.Some? && t.errors == r.errors)
  {
    ReceiveNext(tokens, offers, IDLE, messages, Binary(data));
    NothingUnasked(tokens, offers, messages);
    var heads, ends := FilesComeFromHeaders(tokens, offers, messages);
    hide Receive, Traced;
  }

  /** The size of an offer is that of the first one with its id. */
  lemma {:induction false} DeclaredIsFirst(offers: seq<Offer>, id: string)
    ensures match Declared(offers, id)
      case None => forall i :: 0 <= i < |offers| ==> offers[i].id != id
      case Some(size) =>
        exists i :: 0 <= i < |offers| && offers[i] == Offer(id, size) && forall j :: 0 <= j < i ==> offers[j].id != id
    decreases |offers|
  {
    if offers != [] && offers[0].id != id {
      var rest := offers[1..];
      DeclaredIsFirst(rest, id);
      match Declared(rest, id) {
        case None =>
          forall i | 0 <= i < |offers| ensures offers[i].id != id {
            assert i > 0 ==> offers[i] == rest[i - 1];
          }
        case Some(size) =>
          var i :| 0 <= i < |rest| && rest[i] == Offer(id, size) && forall j :: 0 <= j < i ==> rest[j].id != id;
          assert offers[i + 1] == Offer(id, size);
          forall j | 0 <= j < i + 1 ensures offers[j].id != id {
            assert j > 0 ==> offers[j] == rest[j - 1];
          }
      }
    } else if offers != [] {
      assert offers[0] == Offer(id, offers[0].size);
    }
  }

  // Acknowledgements

  function Cuts(files: seq<ReceivedFile>): nat {
    if files == [] then 0 else Cuts(files[..|files| - 1]) + if files[|files| - 1].cut then 1 else 0
  }

  lemma {:induction false} CutsNext(files: seq<ReceivedFile>, file: ReceivedFile)
    ensures Cuts(files + [file]) == Cuts(files) + if file.cut then 1 else 0
  {
    assert (files + [file])[..|files|] == files;
  }

  lemma {:induction false} NoCuts(files: seq<ReceivedFile>)
    ensures Cuts(files) == 0 <==> forall i :: 0 <= i < |files| ==> !files[i].cut
    decreases |files|
  {
    if files != [] {
      NoCuts(files[..|files| - 1]);
    }
  }

  /** The `k`-th acknowledgement skips as many files as were cut before its own. */
  predicate SkipsCuts(closed: seq<ReceivedFile>, acknowledged: seq<Acknowledgement>, k: nat)
    requires k < |acknowledged|
  {
    var ack := acknowledged[k];
    && ack.result == k
    && ack.file < |closed|
    && !closed[ack.file].cut && closed[ack.file].id == ack.id
    && ack.file == k + Cuts(closed[..ack.file])
  }

  predicate AcknowledgedSound(closed: seq<ReceivedFile>, acknowledged: seq<Acknowledgement>) {
    && |closed| == |acknowledged| + Cuts(closed)
    && forall k :: 0 <= k < |acknowledged| ==> SkipsCuts(closed, acknowledged, k)
  }

  lemma {:induction false} CloseKeepsSkips(closed: seq<ReceivedFile>, acknowledged: seq<Acknowledgement>,
                                           file: ReceivedFile,
                                           more: seq<Acknowledgement>, k: nat)
    requires k < |acknowledged| && SkipsCuts(closed, acknowledged, k)
    ensures SkipsCuts(closed + [file], acknowledged + more, k)
  {
    assert (closed + [file])[..acknowledged[k].file] == closed[..acknowledged[k].file];
  }

  lemma {:induction false} CloseKeepsSound(closed: seq<ReceivedFile>, acknowledged: seq<Acknowledgement>, id: string,
                                           content: Bytes)
    requires AcknowledgedSound(closed, acknowledged)
    ensures AcknowledgedSound(closed + [ReceivedFile(id, content, true)], acknowledged)
    ensures AcknowledgedSound(closed + [ReceivedFile(id, content, false)],
                              acknowledged + [Acknowledgement(id, |closed|, |acknowledged|)])
  {
    hide Cuts, SkipsCuts;
    var ack := Acknowledgement(id, |closed|, |acknowledged|);
    CutsNext(closed, ReceivedFile(id, content, true));
    CutsNext(closed, ReceivedFile(id, content, false));
    assert acknowledged + [] == acknowledged;
    forall k | 0 <= k < |acknowledged|
      ensures SkipsCuts(closed + [ReceivedFile(id, content, true)], acknowledged, k)
      ensures SkipsCuts(closed + [ReceivedFile(id, content, false)], acknowledged + [ack], k)
    {
      CloseKeepsSkips(closed, acknowledged, ReceivedFile(id, content, true), [], k);
      CloseKeepsSkips(closed, acknowledged, ReceivedFile(id, content, false), [ack], k);
    }
    LastSkips(closed, acknowledged, id, content);
  }

  lemma {:induction false} LastSkips(closed: seq<ReceivedFile>, acknowledged: seq<Acknowledgement>, id: string,
                                     content: Bytes)
    requires |closed| == |acknowledged| + Cuts(closed)
    ensures SkipsCuts(closed + [ReceivedFile(id, content, false)],
                      acknowledged + [Acknowledgement(id, |closed|, |acknowledged|)], |acknowledged|)
  {
    assert (closed + [ReceivedFile(id, content, false)])[..|closed|] == closed;
  }

  lemma {:induction false} AcknowledgedStep(tokens: map<string, string>, offers: seq<Offer>, r: Receiver,
                                            message: Message)
    requires AcknowledgedSound(r.closed, r.acknowledged)
    ensures var after := OnMessage(tokens, offers, r, message); AcknowledgedSound(after.closed, after.acknowledged)
  {
    hide AcknowledgedSound;
    if r.current.Some? {
      CloseKeepsSound(r.closed, r.acknowledged, r.current.value.id, r.current.value.content);
    }
  }

  lemma {:induction false} AcknowledgedRun(tokens: map<string, string>, offers: seq<Offer>, messages: seq<Message>)
    ensures var r := Receive(tokens, offers, IDLE, messages); AcknowledgedSound(r.closed, r.acknowledged)
    decreases |messages|
  {
    if messages != [] {
      AcknowledgedRun(tokens, offers, messages[..|messages| - 1]);
      hide AcknowledgedSound, OnMessage;
      var r := Receive(tokens, offers, IDLE, messages[..|messages| - 1]);
      AcknowledgedStep(tokens, offers, r, messages[|messages| - 1]);
    }
  }

  /**
   * Whatever was sent, an acknowledgement is for an uncut file of its id, and
   * it carries the result of that file exactly if no earlier file was cut.
   */
  lemma {:induction false} OwnResultIff(tokens: map<string, string>, offers: seq<Offer>, messages: seq<Message>, k: nat)
    requires k < |Receive(tokens, offers, IDLE, messages).acknowledged|
    ensures var r := Receive(tokens, offers, IDLE, messages);
      var ack := r.acknowledged[k];
      && ack.result <= ack.file < |r.closed| && r.closed[ack.file].id == ack.id && !r.closed[ack.file].cut
      && (ack.result == ack.file <==> forall i :: 0 <= i < ack.file ==> !r.closed[i].cut)
  {
    AcknowledgedRun(tokens, offers, messages);
    hide Receive, Cuts;
    var r := Receive(tokens, offers, IDLE, messages);
    assert SkipsCuts(r.closed, r.acknowledged, k);
    NoCuts(r.closed[..r.acknowledged[k].file]);
  }

  /** The success of the `k`-th file when the application reports `outcomes` and then closes its channel. */
  predicate SuccessOf(outcomes: seq<bool>, k: nat) {
    k < |outcomes| && outcomes[k]
  }

  /**
   * An acknowledgement tells the truth about its file, whatever the application
   * reports, exactly if no earlier file was cut.
   */
  lemma {:induction false} TruthfulIff(tokens: map<string, string>, offers: seq<Offer>, messages: seq<Message>, k: nat)
    requires k < |Receive(tokens, offers, IDLE, messages).acknowledged|
    ensures var r := Receive(tokens, offers, IDLE, messages);
      var ack := r.acknowledged[k];
      && ack.file < |r.closed|
      && ((forall outcomes :: SuccessOf(outcomes, ack.result) == SuccessOf(outcomes, ack.file)) <==>
            forall i :: 0 <= i < ack.file ==> !r.closed[i].cut)
  {
    OwnResultIff(tokens, offers, messages, k);
    hide Receive;
    var ack := Receive(tokens, offers, IDLE, messages).acknowledged[k];
    if ack.result != ack.file {
      var outcomes := seq(ack.result + 1, i => i == ack.result);
      assert SuccessOf(outcomes, ack.result) && !SuccessOf(outcomes, ack.file);
    }
  }

  /** After a file that is too long, the next one is acknowledged with the result of the file before it. */
  lemma {:induction false} CutFileShiftsResults(tokens: map<string, string>, offers: seq<Offer>, a: Outgoing,
                                                b: Outgoing)
    requires a.id in tokens && b.id in tokens
    requires Declared(offers, a.id).Some? && !Fits(offers, a) && Fits(offers, b)
    ensures AllSelected(tokens, [a, b])
    ensures Receive(tokens, offers, IDLE, Messages(tokens, [a, b]) + [Delimiter]).acknowledged
         == [Acknowledgement(b.id, 1, 0)]
  {
    hide Receive, Messages, Flatten;
    assert [a, b][..1] == [a] && [a][..0] == [];
    assert Selected(tokens, [a]) == [a] && Selected(tokens, [a, b]) == [a, b];
    FramingRoundTrip(tokens, offers, [a, b]);
    assert ExpectedAcknowledgements(offers, [a]) == [] && |ExpectedFiles(offers, [a])| == 1;
  }
}
