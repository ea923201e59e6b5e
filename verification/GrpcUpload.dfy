/**
 Uploads over gRPC (gcs/upload.py): the message loops of WriteObject and BidiWriteObject, with
 offset trimming and injected failures.
 */
module GrpcUpload {

  import opened Bytes
  import opened Checksums
  import opened RetryTests
  import opened Wrappers

  const INSERT := "storage.objects.insert"

  datatype Data = Checksummed(content: Bytes, crc: Option<bv32>) | NoData | Unsupported

  datatype Message = Message(writeOffset: int, data: Data, finishWrite: bool, stateLookup: bool, hasChecksums: bool)

  datatype Error = Invalid | ChecksumMismatch | OutOfRange | InjectedFault(code: nat)

  /** What the messages act on; `queue` holds the upload instructions of the test in progress. */
  datatype State = State(media: Bytes, complete: bool, queue: seq<Instruction>)

  /** A stream's progress; it stops at the first error, or when a bidirectional stream finishes. */
  datatype Progress = Progress(state: State, error: Option<Error>, checksums: bool, stopped: bool)

  /** One stream against the upload; `testing` says that it carries the id of the test. */
  datatype Stream = Stream(bidi: bool, testing: bool, messages: seq<Message>)

  // ---- One data message ----

  /** The offset at which a queued `return-X-after-YK` would strike, if it is next. */
  function ArmedFault(state: State, testing: bool): Option<nat> {
    if testing && state.queue != [] && state.queue[0].ReturnAfterBytes? && state.queue[0].code != 0
    then Some(state.queue[0].kibibytes * 1024)
    else None
  }

  /** The bytes of a message that are not persisted yet. */
  function Unsaved(media: Bytes, offset: int, content: Bytes): Bytes {
    if offset < |media| then Slice(content, |media| - offset, |content|) else content
  }

  function Strikes(state: State, testing: bool, unsaved: Bytes): bool {
    var fault := ArmedFault(state, testing);
    fault.Some? && |state.media| < fault.value <= |state.media| + |unsaved|
  }

  function Persist(state: State, testing: bool, offset: int, content: Bytes): (State, Option<Error>) {
    var unsaved := Unsaved(state.media, offset, content);
    if offset > |state.media| then (state, Some(OutOfRange))
    else if Strikes(state, testing, unsaved) then
      var kept := Slice(unsaved, 0, ArmedFault(state, testing).value - |state.media|);
      (state.(media := state.media + kept, queue := state.queue[1..]), Some(InjectedFault(state.queue[0].code)))
    else
      (state.(media := state.media + unsaved), None)
  }

  // ---- Streams ----

  function Fail(p: Progress, error: Error): Progress {
    p.(error := Some(error), stopped := true)
  }

  function DataStep(p: Progress, testing: bool, m: Message): Progress
    requires m.data.Checksummed?
  {
    if m.data.crc.Some? && m.data.crc.value != Crc32c(m.data.content, 0) then Fail(p, ChecksumMismatch)
    else
      var (state, error) := Persist(p.state, testing, m.writeOffset, m.data.content);
      if error.Some? then Fail(p.(state := state), error.value) else p.(state := state)
  }

  /** Object checksums may come with the first or the last message, once. */
  function ChecksumStep(p: Progress, first: bool, m: Message): Progress {
    if !m.hasChecksums then p
    else if (!first && !m.finishWrite) || p.checksums then Fail(p, Invalid)
    else p.(checksums := true)
  }

  function Finish(p: Progress, m: Message): Progress {
    if !p.stopped && m.finishWrite then p.(state := p.state.(complete := true)) else p
  }

  /** One pass of the WriteObject loop. */
  function WriteStep(p: Progress, testing: bool, first: bool, m: Message): Progress {
    var q := ChecksumStep(p, first, m);
    if q.stopped then q
    else match m.data
      case Checksummed(_, _) => Finish(DataStep(q, testing, m), m)
      case NoData => if m.finishWrite then Finish(q, m) else Fail(q, Invalid)
      case Unsupported => Fail(q, Invalid)
  }

  /** One pass of the BidiWriteObject loop: finishing ends it. */
  function BidiStep(p: Progress, testing: bool, first: bool, m: Message): Progress {
    var q := ChecksumStep(p, first, m);
    if q.stopped then q
    else
      var r := match m.data
        case Checksummed(_, _) => DataStep(q, testing, m)
        case NoData => q
        case Unsupported => Fail(q, Invalid);
      if r.stopped then r
      else if m.finishWrite then Finish(r, m).(stopped := true)
      else r
  }

  /** A completed upload takes no more messages: WriteObject refuses, BidiWriteObject answers and ends. */
  function Open(state: State, bidi: bool): Progress {
    Progress(state, if state.complete && !bidi then Some(Invalid) else None, false, state.complete)
  }

  function Next(p: Progress, bidi: bool, testing: bool, first: bool, m: Message): Progress {
    if p.stopped then p
    else if bidi then BidiStep(p, testing, first, m)
    else WriteStep(p, testing, first, m)
  }

  function Run(state: State, bidi: bool, testing: bool, messages: seq<Message>): Progress {
    if messages == [] then Open(state, bidi)
    else
      var n := |messages| - 1;
      Next(Run(state, bidi, testing, messages[..n]), bidi, testing, n == 0, messages[n])
  }

  /** Any number of streams, one after the other. */
  function RunAll(state: State, streams: seq<Stream>): State {
    if streams == [] then state
    else
      var s := streams[|streams| - 1];
      Run(RunAll(state, streams[..|streams| - 1]), s.bidi, s.testing, s.messages).state
  }

  // ---- The loops themselves ----

  class Upload {
    var media: Bytes
    var complete: bool

    constructor ()
      ensures media == [] && !complete
    {
      media := [];
      complete := false;
    }

    function Abs(retry: RetryTest): State
      reads this, retry
    {
      State(media, complete, retry.Queue(INSERT))
    }

    /** Trim what is persisted, check the offset, apply a fault that is due, append. */
    method Receive(retry: RetryTest, testing: bool, offset: int, data: Bytes) returns (error: Option<Error>)
      requires retry.Valid()
      modifies this, retry
      ensures retry.Valid()
      ensures (Abs(retry), error) == old(Persist(Abs(retry), testing && retry.transport == "GRPC", offset, data))
    {
      hide Divided, AllEmpty;
      var content := data;
      if offset < |media| {
        content := Slice(content, |media| - offset, |content|);
      }
      if offset > |media| {
        return Some(OutOfRange);
      }
      if testing {
        var armed := retry.HasInstructions(INSERT, "GRPC");
        if armed {
          var next := retry.PeekNextInstruction(INSERT);
          if next.value.ReturnAfterBytes? && next.value.code != 0 {
            var afterBytes := next.value.kibibytes * 1024;
            if afterBytes > |media| && afterBytes <= |media| + |content| {
              media := media + Slice(content, 0, afterBytes - |media|);
              var _ := retry.DequeueNextInstruction(INSERT);
              return Some(InjectedFault(next.value.code));
            }
          }
        }
      }
      media := media + content;
      return None;
    }

    /** One pass of the WriteObject loop. */
    method WriteMessage(retry: RetryTest, testing: bool, first: bool, m: Message, checksums: bool)
      returns (error: Option<Error>, seen: bool)
      requires retry.Valid()
      modifies this, retry
      ensures retry.Valid()
      ensures Progress(Abs(retry), error, seen, error.Some?) ==
              old(WriteStep(Progress(Abs(retry), None, checksums, false), testing && retry.transport == "GRPC", first, m))
    {
      seen := checksums;
      if m.hasChecksums {
        if (!first && !m.finishWrite) || seen {
          return Some(Invalid), seen;
        }
        seen := true;
      }
      match m.data {
        case Checksummed(content, crc) =>
          if crc.Some? && crc.value != Crc32c(content, 0) {
            return Some(ChecksumMismatch), seen;
          }
          error := Receive(retry, testing, m.writeOffset, content);
          if error.Some? {
            return;
          }
        case NoData =>
          if !m.finishWrite {
            return Some(Invalid), seen;
          }
        case Unsupported =>
          return Some(Invalid), seen;
      }
      if m.finishWrite {
        complete := true;
      }
      error := None;
    }

    method WriteObject(messages: seq<Message>, retry: RetryTest, testing: bool) returns (error: Option<Error>)
      requires retry.Valid()
      modifies this, retry
      ensures retry.Valid()
      ensures var p := old(Run(Abs(retry), false, testing && retry.transport == "GRPC", messages));
              Abs(retry) == p.state && error == p.error
    {
      error := if complete then Some(Invalid) else None;
      ghost var injecting := testing && retry.transport == "GRPC";
      var checksums, i := false, 0;
      while i < |messages| && error.None?
        invariant 0 <= i <= |messages|
        invariant retry.Valid()
        invariant old(Run(Abs(retry), false, injecting, messages[..i])) ==
                  Progress(Abs(retry), error, checksums, error.Some?)
      {
        assert messages[..i + 1][..i] == messages[..i];
        error, checksums := WriteMessage(retry, testing, i == 0, messages[i], checksums);
        i := i + 1;
      }
      assert messages[..|messages|] == messages;
      if error.Some? {
        StoppedStream(old(Abs(retry)), false, injecting, messages, i);
      }
    }

    /** One pass of the BidiWriteObject loop; `stop` ends it. */
    method BidiMessage(retry: RetryTest, testing: bool, first: bool, m: Message, checksums: bool)
      returns (error: Option<Error>, seen: bool, stop: bool)
      requires retry.Valid()
      modifies this, retry
      ensures retry.Valid()
      ensures Progress(Abs(retry), error, seen, stop) ==
              old(BidiStep(Progress(Abs(retry), None, checksums, false), testing && retry.transport == "GRPC", first, m))
    {
      seen, stop := checksums, true;
      if m.hasChecksums {
        if (!first && !m.finishWrite) || seen {
          return Some(Invalid), seen, stop;
        }
        seen := true;
      }
      if m.data.Checksummed? {
        if m.data.crc.Some? && m.data.crc.value != Crc32c(m.data.content, 0) {
          return Some(ChecksumMismatch), seen, stop;
        }
        error := Receive(retry, testing, m.writeOffset, m.data.content);
        if error.Some? {
          return;
        }
      } else if !m.data.NoData? {
        return Some(Invalid), seen, stop;
      }
      error := None;
      if m.finishWrite {
        complete := true;
      } else {
        stop := false;
      }
    }

    /**
     The sizes reported along the way are those persisted after the messages that ask for them, and after
     the first one of an appendable upload; they only grow.
     */
    method BidiWriteObject(messages: seq<Message>, retry: RetryTest, testing: bool, appendable: bool)
      returns (error: Option<Error>, persistedSizes: seq<nat>)
      requires retry.Valid()
      modifies this, retry
      ensures retry.Valid()
      ensures var p := old(Run(Abs(retry), true, testing && retry.transport == "GRPC", messages));
              Abs(retry) == p.state && error == p.error
      ensures persistedSizes == old(Sizes(Abs(retry), testing && retry.transport == "GRPC", appendable, messages))
      ensures forall j, k :: 0 <= j < k < |persistedSizes| ==> persistedSizes[j] <= persistedSizes[k]
      ensures forall k :: 0 <= k < |persistedSizes| ==> |old(media)| <= persistedSizes[k] <= |media|
    {
      hide Divided, AllEmpty, BidiStep, Persist;
      error, persistedSizes := None, [];
      ghost var injecting := testing && retry.transport == "GRPC";
      var checksums, i, stop := false, 0, complete;
      while i < |messages| && !stop
        invariant 0 <= i <= |messages|
        invariant retry.Valid()
        invariant old(Run(Abs(retry), true, injecting, messages[..i])) ==
                  Progress(Abs(retry), error, checksums, stop)
        invariant error.Some? ==> stop
        invariant persistedSizes == old(Sizes(Abs(retry), injecting, appendable, messages[..i]))
        invariant |old(media)| <= |media|
        invariant forall j, k :: 0 <= j < k < |persistedSizes| ==> persistedSizes[j] <= persistedSizes[k]
        invariant forall k :: 0 <= k < |persistedSizes| ==> |old(media)| <= persistedSizes[k] <= |media|
      {
        assert messages[..i + 1][..i] == messages[..i];
        BidiStepGrows(Progress(Abs(retry), None, checksums, false), injecting, i == 0, messages[i]);
        error, checksums, stop := BidiMessage(retry, testing, i == 0, messages[i], checksums);
        if !stop && (messages[i].stateLookup || (appendable && persistedSizes == [])) {
          persistedSizes := persistedSizes + [|media|];
        }
        i := i + 1;
      }
      assert messages[..|messages|] == messages;
      if stop {
        StoppedStream(old(Abs(retry)), true, injecting, messages, i);
        NothingReported(old(Abs(retry)), injecting, appendable, messages, i);
      }
    }
  }

  /** The persisted sizes a bidirectional stream reports. */
  function Sizes(state: State, testing: bool, appendable: bool, messages: seq<Message>): seq<nat> {
    if messages == [] then []
    else
      var n := |messages| - 1;
      var sizes, p := Sizes(state, testing, appendable, messages[..n]), Run(state, true, testing, messages);
      if !p.stopped && (messages[n].stateLookup || (appendable && sizes == [])) then sizes + [|p.state.media|] else sizes
  }

  /** A stream that has stopped reports no more sizes. */
  lemma {:induction false} NothingReported(state: State, testing: bool, appendable: bool, messages: seq<Message>, n: nat)
    requires n <= |messages| && Run(state, true, testing, messages[..n]).stopped
    ensures Sizes(state, testing, appendable, messages) == Sizes(state, testing, appendable, messages[..n])
  {
    hide Run;
    if n < |messages| {
      var init := messages[..|messages| - 1];
      assert init[..n] == messages[..n];
      NothingReported(state, testing, appendable, init, n);
      StoppedStream(state, true, testing, messages, n);
    } else {
      assert messages[..n] == messages;
    }
  }

  lemma BidiStepGrows(p: Progress, testing: bool, first: bool, m: Message)
    ensures p.state.media <= BidiStep(p, testing, first, m).state.media
    ensures BidiStep(p.(error := None), testing, first, m).error.Some? ==> BidiStep(p.(error := None), testing, first, m).stopped
  {
  }

  /** Nothing happens after a stream has stopped. */
  lemma {:induction false} StoppedStream(state: State, bidi: bool, testing: bool, messages: seq<Message>, n: nat)
    requires n <= |messages| && Run(state, bidi, testing, messages[..n]).stopped
    ensures Run(state, bidi, testing, messages) == Run(state, bidi, testing, messages[..n])
  {
    if n < |messages| {
      var init := messages[..|messages| - 1];
      assert init[..n] == messages[..n];
      StoppedStream(state, bidi, testing, init, n);
    } else {
      assert messages[..n] == messages;
    }
  }

  // ---- Prefix safety ----

  /** The message carries the client object's bytes at its offset. */
  predicate Honest(m: Message, client: Bytes) {
    m.data.Checksummed? ==>
      && 0 <= m.writeOffset <= m.writeOffset + |m.data.content| <= |client|
      && m.data.content == client[m.writeOffset..m.writeOffset + |m.data.content|]
  }

  predicate AllHonest(messages: seq<Message>, client: Bytes) {
    forall k :: 0 <= k < |messages| ==> Honest(messages[k], client)
  }

  /** Where a message ends in the object. */
  function EndOffset(m: Message): int {
    if m.data.Checksummed? then m.writeOffset + |m.data.content| else 0
  }

  /** How far a sequence of messages reaches, whatever the overlaps. */
  function Reach(persisted: nat, messages: seq<Message>): nat {
    if messages == [] then persisted
    else Max(Reach(persisted, messages[..|messages| - 1]), EndOffset(messages[|messages| - 1]))
  }

  /** The head of the queue is a fault that strikes after `bytes`. */
  predicate FaultAt(queue: seq<Instruction>, bytes: nat) {
    queue != [] && queue[0].ReturnAfterBytes? && queue[0].code != 0 && queue[0].kibibytes * 1024 == bytes
  }

  /** One honest message extends the persisted prefix to its end, to the fault, or not at all. */
  lemma PersistHonest(state: State, testing: bool, offset: int, content: Bytes, client: Bytes)
    requires state.media <= client
    requires 0 <= offset <= offset + |content| <= |client| && content == client[offset..offset + |content|]
    ensures var (after, error) := Persist(state, testing, offset, content);
            var end := Max(|state.media|, offset + |content|);
            && state.media <= after.media <= client
            && after.complete == state.complete
            && (error == Some(OutOfRange) <==> offset > |state.media|)
            && match error
               case None =>
                 && |after.media| == end && after.queue == state.queue
                 && (ArmedFault(state, testing).Some? ==> !(|state.media| < ArmedFault(state, testing).value <= end))
               case Some(OutOfRange) => after == state
               case Some(InjectedFault(_)) =>
                 && testing && FaultAt(state.queue, |after.media|) && after.queue == state.queue[1..]
                 && |state.media| < |after.media| <= end
               case Some(_) => false
  {
    hide Unsaved;
    if offset <= |state.media| {
      SavedIsPrefix(state.media, offset, content, client);
      var saved := state.media + Unsaved(state.media, offset, content);
      if Strikes(state, testing, Unsaved(state.media, offset, content)) {
        var kept := ArmedFault(state, testing).value - |state.media|;
        assert state.media + Unsaved(state.media, offset, content)[..kept] == saved[..|state.media| + kept];
      }
    }
  }

  /** The bytes a message adds are those up to its end. */
  lemma SavedIsPrefix(media: Bytes, offset: int, content: Bytes, client: Bytes)
    requires media <= client && offset <= |media|
    requires 0 <= offset <= offset + |content| <= |client| && content == client[offset..offset + |content|]
    ensures media + Unsaved(media, offset, content) == client[..Max(|media|, offset + |content|)]
  {
    assert media == client[..|media|];
    if offset + |content| <= |media| {
      assert Unsaved(media, offset, content) == [];
    } else {
      assert Unsaved(media, offset, content) == client[|media|..offset + |content|];
    }
  }

  /** What one pass does to the bytes and the queue: nothing, or what `Persist` does. */
  lemma NextEffect(p: Progress, bidi: bool, testing: bool, first: bool, m: Message) returns (persisted: bool)
    requires !p.stopped && p.error.None?
    ensures persisted ==> m.data.Checksummed?
    ensures var q := Next(p, bidi, testing, first, m);
            && (q.error.Some? ==> q.stopped)
            && (!q.stopped ==> (persisted <==> m.data.Checksummed?))
            && if persisted then
                 var (state, error) := Persist(p.state, testing, m.writeOffset, m.data.content);
                 q.state.media == state.media && q.state.queue == state.queue && q.error == error
               else
                 && q.state.media == p.state.media && q.state.queue == p.state.queue
                 && (q.error.Some? ==> q.error.value in {Invalid, ChecksumMismatch})
  {
    persisted := m.data.Checksummed? && !ChecksumStep(p, first, m).stopped
                 && (m.data.crc.Some? ==> m.data.crc.value == Crc32c(m.data.content, 0));
  }

  /**
   The persisted bytes are a prefix of the client's object and have not shrunk. An instruction is
   taken only with an injected failure: the first of the queue, and then exactly the bytes it
   names are persisted.
   */
  ghost predicate Safe(state: State, testing: bool, reach: nat, client: Bytes, p: Progress) {
    && state.media <= p.state.media <= client
    && (p.error.Some? ==> p.stopped)
    && if p.error.Some? && p.error.value.InjectedFault?
       then testing && FaultAt(state.queue, |p.state.media|) && p.state.queue == state.queue[1..]
            && |state.media| < |p.state.media| <= reach
       else p.state.queue == state.queue
  }

  lemma NextSafe(state: State, bidi: bool, testing: bool, first: bool, m: Message, client: Bytes, p: Progress, q: Progress)
    requires state.media <= p.state.media <= client && p.state.queue == state.queue
    requires !p.stopped && p.error.None? && Honest(m, client) && q == Next(p, bidi, testing, first, m)
    ensures Safe(state, testing, Max(|p.state.media|, EndOffset(m)), client, q)
  {
    var persisted := NextEffect(p, bidi, testing, first, m);
    if persisted {
      PersistHonest(p.state, testing, m.writeOffset, m.data.content, client);
    }
  }

  /** Every stream of honest messages is safe, whatever stops it. */
  lemma {:induction false} StreamSafe(state: State, bidi: bool, testing: bool, messages: seq<Message>, client: Bytes)
    requires state.media <= client && AllHonest(messages, client)
    ensures Safe(state, testing, Reach(|state.media|, messages), client, Run(state, bidi, testing, messages))
  {
    if messages != [] {
      var n := |messages| - 1;
      StreamSafe(state, bidi, testing, messages[..n], client);
      var p := Run(state, bidi, testing, messages[..n]);
      if !p.stopped {
        ReachKnown(state, bidi, testing, messages[..n], client);
        NextSafe(state, bidi, testing, n == 0, messages[n], client, p, Run(state, bidi, testing, messages));
      }
    }
  }

  /** While a stream runs, exactly the bytes it has reached are persisted, and no fault was in reach. */
  lemma {:induction false} ReachKnown(state: State, bidi: bool, testing: bool, messages: seq<Message>, client: Bytes)
    requires state.media <= client && AllHonest(messages, client)
    requires !Run(state, bidi, testing, messages).stopped
    ensures |state.media| <= Reach(|state.media|, messages) <= |client|
    ensures var p := Run(state, bidi, testing, messages);
            && p.state.media == client[..Reach(|state.media|, messages)] && p.state.queue == state.queue
            && p.error.None?
            && (testing ==> forall bytes: nat :: FaultAt(state.queue, bytes) ==>
                  !(|state.media| < bytes <= Reach(|state.media|, messages)))
  {
    hide BidiStep, WriteStep, Persist;
    if messages == [] {
      assert state.media == client[..|state.media|];
    } else {
      var n := |messages| - 1;
      ReachKnown(state, bidi, testing, messages[..n], client);
      var p, m := Run(state, bidi, testing, messages[..n]), messages[n];
      var persisted := NextEffect(p, bidi, testing, n == 0, m);
      if persisted {
        PersistHonest(p.state, testing, m.writeOffset, m.data.content, client);
      }
    }
  }

  /**
   A stream that stops without an error has come to its finishing message, the `n`-th: the upload is
   complete, and everything the messages up to that one reach is persisted.
   */
  lemma {:induction false} FinishedStream(state: State, bidi: bool, testing: bool, messages: seq<Message>, client: Bytes)
    returns (n: nat)
    requires !state.complete && state.media <= client && AllHonest(messages, client)
    requires Run(state, bidi, testing, messages).stopped && Run(state, bidi, testing, messages).error.None?
    ensures 0 < n <= |messages| && messages[n - 1].finishWrite
    ensures Reach(|state.media|, messages[..n]) <= |client|
    ensures var p := Run(state, bidi, testing, messages);
            && p.state.complete && p.state.media == client[..Reach(|state.media|, messages[..n])] && p.state.queue == state.queue
  {
    hide BidiStep, WriteStep, Persist, Honest, Reach, FaultAt;
    assert messages != [];
    var last := |messages| - 1;
    var p := Run(state, bidi, testing, messages[..last]);
    if p.stopped {
      n := FinishedStream(state, bidi, testing, messages[..last], client);
      assert messages[..last][..n] == messages[..n];
    } else {
      n := |messages|;
      assert messages[..n] == messages;
      ReachKnown(state, bidi, testing, messages[..last], client);
      FinishedMessage(p, bidi, testing, last == 0, messages[last]);
      LastPersisted(p.state, testing, messages[last], client);
      ReachMore(|state.media|, messages);
    }
  }

  lemma ReachMore(persisted: nat, messages: seq<Message>)
    requires messages != []
    ensures Reach(persisted, messages) == Max(Reach(persisted, messages[..|messages| - 1]), EndOffset(messages[|messages| - 1]))
  {
  }

  /** An honest message whose data was taken reaches its end. */
  lemma LastPersisted(state: State, testing: bool, m: Message, client: Bytes)
    requires state.media <= client && Honest(m, client)
    requires m.data.Checksummed? ==> Persist(state, testing, m.writeOffset, m.data.content).1.None?
    ensures var end := Max(|state.media|, EndOffset(m));
            && end <= |client|
            && if m.data.Checksummed? then
                 var after := Persist(state, testing, m.writeOffset, m.data.content).0;
                 after.media == client[..end] && after.queue == state.queue
               else state.media == client[..end]
  {
    if m.data.Checksummed? {
      PersistHonest(state, testing, m.writeOffset, m.data.content, client);
    }
  }

  /** A message that stops the stream without an error: it finishes the upload, and its data is persisted. */
  lemma FinishedMessage(p: Progress, bidi: bool, testing: bool, first: bool, m: Message)
    requires !p.stopped && p.error.None?
    requires Next(p, bidi, testing, first, m).stopped && Next(p, bidi, testing, first, m).error.None?
    ensures m.finishWrite && Next(p, bidi, testing, first, m).state.complete
    ensures var q := Next(p, bidi, testing, first, m).state;
            if m.data.Checksummed? then
              var (state, error) := Persist(p.state, testing, m.writeOffset, m.data.content);
              error.None? && q.media == state.media && q.queue == state.queue
            else q.media == p.state.media && q.queue == p.state.queue
  {
  }

  /**
   Any number of streams: the upload always holds a prefix of the client's object, it only grows,
   and instructions are taken from the front of the queue, at most one per stream.
   */
  lemma {:induction false} UploadsKeepPrefix(state: State, streams: seq<Stream>, client: Bytes) returns (taken: nat)
    requires state.media <= client
    requires forall k :: 0 <= k < |streams| ==> AllHonest(streams[k].messages, client)
    ensures state.media <= RunAll(state, streams).media <= client
    ensures taken <= |streams| && taken <= |state.queue| && RunAll(state, streams).queue == state.queue[taken..]
  {
    taken := 0;
    if streams != [] {
      var n := |streams| - 1;
      taken := UploadsKeepPrefix(state, streams[..n], client);
      var before := RunAll(state, streams[..n]);
      StreamSafe(before, streams[n].bidi, streams[n].testing, streams[n].messages, client);
      var p := Run(before, streams[n].bidi, streams[n].testing, streams[n].messages);
      if p.error.Some? && p.error.value.InjectedFault? {
        taken := taken + 1;
      }
    }
  }

  // ---- Streams that are open together ----

  /** One stream's own progress on an upload that others may write too. */
  datatype Line = Line(bidi: bool, testing: bool, started: bool, checksums: bool, error: Option<Error>, stopped: bool)

  datatype Shared = Shared(state: State, lines: seq<Line>)

  /** A stream is opened, or sends its next message. */
  datatype Turn = Opened(bidi: bool, testing: bool) | Sent(line: nat, message: Message)

  function Take(s: Shared, turn: Turn): Shared {
    match turn
    case Opened(bidi, testing) =>
      var p := Open(s.state, bidi);
      s.(lines := s.lines + [Line(bidi, testing, false, false, p.error, p.stopped)])
    case Sent(k, m) =>
      if k >= |s.lines| || s.lines[k].stopped then s
      else
        var line := s.lines[k];
        var p := Next(Progress(s.state, None, line.checksums, false), line.bidi, line.testing, !line.started, m);
        Shared(p.state, s.lines[k := line.(started := true, checksums := p.checksums, error := p.error, stopped := p.stopped)])
  }

  function TakeAll(s: Shared, turns: seq<Turn>): Shared {
    if turns == [] then s else Take(TakeAll(s, turns[..|turns| - 1]), turns[|turns| - 1])
  }

  predicate HonestTurn(turn: Turn, client: Bytes) {
    turn.Sent? ==> Honest(turn.message, client)
  }

  predicate Failed(line: Line) {
    line.error.Some? && line.error.value.InjectedFault?
  }

  /** How many streams an injected fault has stopped. */
  function Failures(lines: seq<Line>): (n: nat)
    ensures n <= |lines|
  {
    if lines == [] then 0
    else Failures(lines[..|lines| - 1]) + if Failed(lines[|lines| - 1]) then 1 else 0
  }

  lemma FailuresSnoc(lines: seq<Line>, line: Line)
    ensures Failures(lines + [line]) == Failures(lines) + if Failed(line) then 1 else 0
  {
    assert (lines + [line])[..|lines|] == lines;
  }

  lemma {:induction false} FailuresUpdate(lines: seq<Line>, k: nat, line: Line)
    requires k < |lines| && !Failed(lines[k])
    ensures Failures(lines[k := line]) == Failures(lines) + if Failed(line) then 1 else 0
  {
    var n := |lines| - 1;
    if k == n {
      assert lines[k := line][..n] == lines[..n];
    } else {
      FailuresUpdate(lines[..n], k, line);
      assert lines[k := line][..n] == lines[..n][k := line];
    }
  }

  /** One turn: the prefix grows, and at most one instruction is taken, by a stream that stops. */
  lemma TurnSafe(s: Shared, turn: Turn, client: Bytes)
    requires s.state.media <= client && HonestTurn(turn, client)
    requires forall k :: 0 <= k < |s.lines| && Failed(s.lines[k]) ==> s.lines[k].stopped
    ensures var after := Take(s, turn);
            && s.state.media <= after.state.media <= client
            && (forall k :: 0 <= k < |after.lines| && Failed(after.lines[k]) ==> after.lines[k].stopped)
            && Failures(s.lines) <= Failures(after.lines)
            && Failures(after.lines) - Failures(s.lines) <= |s.state.queue|
            && after.state.queue == s.state.queue[Failures(after.lines) - Failures(s.lines)..]
  {
    hide Next, Honest, Reach, FaultAt;
    var after := Take(s, turn);
    match turn
    case Opened(bidi, testing) =>
      FailuresSnoc(s.lines, after.lines[|s.lines|]);
    case Sent(k, m) =>
      if k < |s.lines| && !s.lines[k].stopped {
        var line := s.lines[k];
        var p := Progress(s.state, None, line.checksums, false);
        NextSafe(s.state, line.bidi, line.testing, !line.started, m, client, p, Next(p, line.bidi, line.testing, !line.started, m));
        FailuresUpdate(s.lines, k, after.lines[k]);
        FaultTakesHead(s.state, line.testing, Max(|s.state.media|, EndOffset(m)), client,
                       Next(p, line.bidi, line.testing, !line.started, m));
      }
  }

  lemma FaultTakesHead(state: State, testing: bool, reach: nat, client: Bytes, p: Progress)
    requires Safe(state, testing, reach, client, p)
    ensures p.error.Some? && p.error.value.InjectedFault? ==> state.queue != [] && p.state.queue == state.queue[1..]
  {
  }

  /**
   Any number of streams at once, their messages in any order: the upload always holds a prefix of the
   client's object, it only grows, and instructions are taken from the front of the queue, one for each
   stream that an injected fault has stopped.
   */
  lemma {:induction false} InterleavedKeepPrefix(state: State, turns: seq<Turn>, client: Bytes)
    requires state.media <= client
    requires forall k :: 0 <= k < |turns| ==> HonestTurn(turns[k], client)
    ensures var after := TakeAll(Shared(state, []), turns);
            && state.media <= after.state.media <= client
            && (forall k :: 0 <= k < |after.lines| && Failed(after.lines[k]) ==> after.lines[k].stopped)
            && Failures(after.lines) <= |state.queue| && after.state.queue == state.queue[Failures(after.lines)..]
  {
    hide Take;
    if turns != [] {
      var init := turns[..|turns| - 1];
      InterleavedKeepPrefix(state, init, client);
      TurnSafe(TakeAll(Shared(state, []), init), turns[|turns| - 1], client);
    }
  }

  /** What is already persisted appends nothing and takes no instruction, whichever stream sends it. */
  lemma TurnAgain(s: Shared, turn: Turn)
    requires turn.Sent? && EndOffset(turn.message) <= |s.state.media|
    ensures Take(s, turn).state.media == s.state.media && Take(s, turn).state.queue == s.state.queue
  {
    var Sent(k, m) := turn;
    if k < |s.lines| && !s.lines[k].stopped {
      var line := s.lines[k];
      var persisted := NextEffect(Progress(s.state, None, line.checksums, false), line.bidi, line.testing, !line.started, m);
      if persisted {
        PersistedAgain(s.state, line.testing, m.writeOffset, m.data.content);
      }
    }
  }

  /** The turns of a stream that has the upload to itself. */
  function Alone(line: nat, bidi: bool, testing: bool, messages: seq<Message>): (turns: seq<Turn>)
    ensures |turns| == |messages| + 1
  {
    if messages == [] then [Opened(bidi, testing)]
    else Alone(line, bidi, testing, messages[..|messages| - 1]) + [Sent(line, messages[|messages| - 1])]
  }

  /** They are what the message loop does. */
  lemma {:induction false} AloneIsRun(s: Shared, bidi: bool, testing: bool, messages: seq<Message>)
    ensures var after, p := TakeAll(s, Alone(|s.lines|, bidi, testing, messages)), Run(s.state, bidi, testing, messages);
            && after.state == p.state && |after.lines| == |s.lines| + 1
            && after.lines[|s.lines|].bidi == bidi && after.lines[|s.lines|].testing == testing
            && (messages != [] && !p.stopped ==> after.lines[|s.lines|].started)
            && (messages == [] ==> !after.lines[|s.lines|].started)
            && after.lines[|s.lines|].error == p.error && after.lines[|s.lines|].stopped == p.stopped
            && (!p.stopped ==> after.lines[|s.lines|].checksums == p.checksums && p.error.None?)
  {
    hide BidiStep, WriteStep;
    var turns := Alone(|s.lines|, bidi, testing, messages);
    if messages == [] {
      assert turns[..0] == [];
      assert TakeAll(s, turns[..0]) == s;
    } else {
      var init := messages[..|messages| - 1];
      AloneIsRun(s, bidi, testing, init);
      assert turns[..|turns| - 1] == Alone(|s.lines|, bidi, testing, init);
      ErrorStops(Run(s.state, bidi, testing, init), bidi, testing, init == [], messages[|messages| - 1]);
    }
  }

  lemma ErrorStops(p: Progress, bidi: bool, testing: bool, first: bool, m: Message)
    requires p.error.Some? ==> p.stopped
    ensures Next(p, bidi, testing, first, m).error.Some? ==> Next(p, bidi, testing, first, m).stopped
  {
  }

  /** Sending again what is already persisted appends nothing and takes no instruction. */
  lemma {:induction false} ReplayAppendsNothing(state: State, bidi: bool, testing: bool, messages: seq<Message>)
    requires forall k :: 0 <= k < |messages| ==> EndOffset(messages[k]) <= |state.media|
    ensures var p := Run(state, bidi, testing, messages);
            && p.state.media == state.media && p.state.queue == state.queue
            && (p.error.Some? ==> p.stopped)
            && p.error != Some(OutOfRange) && (p.error.Some? ==> !p.error.value.InjectedFault?)
  {
    if messages != [] {
      var n := |messages| - 1;
      ReplayAppendsNothing(state, bidi, testing, messages[..n]);
      var p, m := Run(state, bidi, testing, messages[..n]), messages[n];
      if !p.stopped {
        var persisted := NextEffect(p, bidi, testing, n == 0, m);
        if persisted {
          PersistedAgain(p.state, testing, m.writeOffset, m.data.content);
        }
      }
    }
  }

  lemma PersistedAgain(state: State, testing: bool, offset: int, content: Bytes)
    requires offset + |content| <= |state.media|
    ensures Persist(state, testing, offset, content) == (state, None)
  {
    assert Unsaved(state.media, offset, content) == [];
    assert state.media + [] == state.media;
  }
}
