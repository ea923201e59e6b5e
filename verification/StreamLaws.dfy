/** Which messages a gRPC stream accepts, when it completes the upload, and what it answers: said from the messages. */
module StreamLaws {

  import opened Bytes
  import opened Checksums
  import opened GrpcUpload
  import opened RetryTests
  import opened Wrappers

  // ---- What can be wrong with a message, after those before it ----

  predicate AnyChecksums(messages: seq<Message>) {
    exists k :: 0 <= k < |messages| && messages[k].hasChecksums
  }

  predicate AnyFinish(messages: seq<Message>) {
    exists k :: 0 <= k < |messages| && messages[k].finishWrite
  }

  /** Checksums of the object in the middle of the stream, or a second time. */
  predicate Misplaced(before: seq<Message>, m: Message) {
    m.hasChecksums && ((before != [] && !m.finishWrite) || AnyChecksums(before))
  }

  /** Data of another kind, or none in a WriteObject message that does not finish. */
  predicate Meaningless(bidi: bool, m: Message) {
    m.data.Unsupported? || (m.data.NoData? && !bidi && !m.finishWrite)
  }

  /** The checksum sent with the data is not that of the data. */
  predicate Mismatched(m: Message) {
    m.data.Checksummed? && m.data.crc.Some? && m.data.crc.value != Crc32c(m.data.content, 0)
  }

  predicate Gapped(persisted: nat, m: Message) {
    m.data.Checksummed? && m.writeOffset > persisted
  }

  /** The message would carry the media over the fault that is next. */
  ghost predicate Struck(queue: seq<Instruction>, testing: bool, persisted: nat, m: Message) {
    testing && m.data.Checksummed? && exists bytes: nat :: FaultAt(queue, bytes) && persisted < bytes <= m.writeOffset + |m.data.content|
  }

  /** The error a message is refused with, if it is. */
  ghost function Refusal(s: State, bidi: bool, testing: bool, before: seq<Message>, m: Message): Option<Error> {
    var persisted := Reach(|s.media|, before);
    if Misplaced(before, m) || Meaningless(bidi, m) then Some(Invalid)
    else if Mismatched(m) then Some(ChecksumMismatch)
    else if Gapped(persisted, m) then Some(OutOfRange)
    else if Struck(s.queue, testing, persisted, m) then Some(InjectedFault(s.queue[0].code))
    else None
  }

  /** Every message is accepted after those before it. */
  ghost predicate AllAccepted(s: State, bidi: bool, testing: bool, messages: seq<Message>) {
    forall k :: 0 <= k < |messages| ==> Refusal(s, bidi, testing, messages[..k], messages[k]).None?
  }

  lemma AcceptedSnoc(s: State, bidi: bool, testing: bool, messages: seq<Message>)
    requires messages != []
    ensures var n := |messages| - 1;
            AllAccepted(s, bidi, testing, messages) <==>
            AllAccepted(s, bidi, testing, messages[..n]) && Refusal(s, bidi, testing, messages[..n], messages[n]).None?
  {
    hide Refusal;
    var n := |messages| - 1;
    forall k | 0 <= k < n
      ensures messages[..n][..k] == messages[..k]
    {
    }
  }

  lemma AnySnoc(messages: seq<Message>)
    requires messages != []
    ensures var n := |messages| - 1;
            && (AnyFinish(messages) <==> AnyFinish(messages[..n]) || messages[n].finishWrite)
            && (AnyChecksums(messages) <==> AnyChecksums(messages[..n]) || messages[n].hasChecksums)
  {
    var n := |messages| - 1;
    forall k | 0 <= k < n
      ensures messages[..n][k] == messages[k]
    {
    }
  }

  // ---- One pass ----

  /** The stream has accepted these messages, and goes on. */
  ghost predicate Running(s: State, messages: seq<Message>, p: Progress) {
    && !p.stopped && p.error.None? && |p.state.media| == Reach(|s.media|, messages) && p.state.queue == s.queue
    && (p.checksums <==> AnyChecksums(messages)) && (p.state.complete <==> AnyFinish(messages))
  }

  lemma PersistDecided(s: State, testing: bool, m: Message)
    requires m.data.Checksummed?
    ensures var (after, error) := Persist(s, testing, m.writeOffset, m.data.content);
            && after.complete == s.complete
            && if Gapped(|s.media|, m) then after == s && error == Some(OutOfRange)
               else if Struck(s.queue, testing, |s.media|, m) then error == Some(InjectedFault(s.queue[0].code))
               else error.None? && |after.media| == Max(|s.media|, EndOffset(m)) && after.queue == s.queue
  {
    var unsaved := Unsaved(s.media, m.writeOffset, m.data.content);
    if !Gapped(|s.media|, m) {
      assert |s.media| + |unsaved| == Max(|s.media|, EndOffset(m));
      if Strikes(s, testing, unsaved) {
        assert FaultAt(s.queue, ArmedFault(s, testing).value);
      }
    }
  }

  lemma ChecksumsDecided(before: seq<Message>, m: Message, p: Progress)
    requires p.checksums <==> AnyChecksums(before)
    ensures ChecksumStep(p, before == [], m) ==
            if Misplaced(before, m) then Fail(p, Invalid) else p.(checksums := p.checksums || m.hasChecksums)
  {
    hide AnyChecksums;
  }

  lemma DataDecided(p: Progress, testing: bool, m: Message)
    requires m.data.Checksummed? && !p.stopped && p.error.None?
    ensures var q := DataStep(p, testing, m);
            if Mismatched(m) then q == Fail(p, ChecksumMismatch)
            else if Gapped(|p.state.media|, m) then q == Fail(p, OutOfRange)
            else if Struck(p.state.queue, testing, |p.state.media|, m) then
              q == Fail(p.(state := q.state), InjectedFault(p.state.queue[0].code)) && q.state.complete == p.state.complete
            else q == p.(state := q.state) && |q.state.media| == Max(|p.state.media|, EndOffset(m))
                 && q.state.queue == p.state.queue && q.state.complete == p.state.complete
  {
    hide Persist, Struck, Crc32c;
    PersistDecided(p.state, testing, m);
  }

  lemma NoDataNoFault(queue: seq<Instruction>, testing: bool, persisted: nat, m: Message)
    ensures !m.data.Checksummed? ==> !Mismatched(m) && !Struck(queue, testing, persisted, m)
  {
  }

  /** The pass itself, from where the stream stands. */
  lemma PassDecided(p: Progress, bidi: bool, testing: bool, before: seq<Message>, m: Message)
    requires !p.stopped && p.error.None? && (p.checksums <==> AnyChecksums(before))
    ensures var q := Next(p, bidi, testing, before == [], m);
            if Misplaced(before, m) || Meaningless(bidi, m) then q.error == Some(Invalid) && q.stopped && q.state == p.state
            else if m.data.Checksummed? && Mismatched(m) then q.error == Some(ChecksumMismatch) && q.stopped && q.state == p.state
            else
              var r := if m.data.Checksummed? then DataStep(p.(checksums := p.checksums || m.hasChecksums), testing, m)
                       else p.(checksums := p.checksums || m.hasChecksums);
              if r.stopped then q == r
              else q == r.(state := r.state.(complete := r.state.complete || m.finishWrite), stopped := bidi && m.finishWrite)
  {
    hide Persist, AnyChecksums, Misplaced, Crc32c;
    ChecksumsDecided(before, m, p);
  }

  lemma RunningMore(s: State, before: seq<Message>, m: Message, p: Progress, q: Progress)
    requires Running(s, before, p) && !q.stopped && q.error.None? && q.state.queue == p.state.queue
    requires |q.state.media| == Max(|p.state.media|, EndOffset(m))
    requires q.checksums == (p.checksums || m.hasChecksums) && q.state.complete == (p.state.complete || m.finishWrite)
    ensures Running(s, before + [m], q)
  {
    hide AnyChecksums, AnyFinish;
    var more := before + [m];
    assert more[..|before|] == before;
    AnySnoc(more);
  }

  /** One message decides by itself: it is refused with its error, or taken whole. */
  lemma NextDecided(s: State, bidi: bool, testing: bool, before: seq<Message>, m: Message, p: Progress)
    requires Running(s, before, p)
    ensures var q, refusal := Next(p, bidi, testing, before == [], m), Refusal(s, bidi, testing, before, m);
            && q.error == refusal
            && if refusal.Some? then q.stopped && q.state.complete == p.state.complete
               else Running(s, before + [m], q.(stopped := false)) && (q.stopped <==> bidi && m.finishWrite)
  {
    hide Next, DataStep, AnyChecksums, AnyFinish, Struck, Mismatched, Misplaced, Reach;
    var q := Next(p, bidi, testing, before == [], m);
    PassDecided(p, bidi, testing, before, m);
    NoDataNoFault(s.queue, testing, Reach(|s.media|, before), m);
    if m.data.Checksummed? {
      DataDecided(p.(checksums := p.checksums || m.hasChecksums), testing, m);
    }
    if Refusal(s, bidi, testing, before, m).None? {
      RunningMore(s, before, m, p, q.(stopped := false));
    }
  }

  lemma NothingYet(s: State, bidi: bool, testing: bool)
    requires !s.complete
    ensures !Run(s, bidi, testing, []).stopped && Running(s, [], Run(s, bidi, testing, [])) && AllAccepted(s, bidi, testing, []) && !AnyFinish([])
  {
  }

  lemma RunStep(s: State, bidi: bool, testing: bool, messages: seq<Message>)
    requires messages != []
    ensures var n := |messages| - 1;
            Run(s, bidi, testing, messages) == Next(Run(s, bidi, testing, messages[..n]), bidi, testing, messages[..n] == [], messages[n])
  {
    hide Next;
    var n := |messages| - 1;
    assert n == 0 <==> messages[..n] == [];
  }

  /** A stream goes on exactly while every message is accepted, and none has finished a bidirectional one. */
  lemma {:induction false} RunsOn(s: State, bidi: bool, testing: bool, messages: seq<Message>)
    requires !s.complete
    ensures !Run(s, bidi, testing, messages).stopped <==>
            AllAccepted(s, bidi, testing, messages) && !(bidi && AnyFinish(messages))
    ensures var p := Run(s, bidi, testing, messages); !p.stopped ==> Running(s, messages, p)
  {
    hide Next, Run, Running, AllAccepted, AnyFinish, Refusal;
    if messages == [] {
      NothingYet(s, bidi, testing);
    } else {
      var n := |messages| - 1;
      var p := Run(s, bidi, testing, messages[..n]);
      RunsOn(s, bidi, testing, messages[..n]);
      AcceptedSnoc(s, bidi, testing, messages);
      AnySnoc(messages);
      RunStep(s, bidi, testing, messages);
      if !p.stopped {
        NextDecided(s, bidi, testing, messages[..n], messages[n], p);
        assert messages[..n] + [messages[n]] == messages;
      } else {
        StoppedStream(s, bidi, testing, messages, n);
      }
    }
  }

  // ---- Whole streams ----

  /** The message that ends the stream: all before it are accepted and go on, it is refused or finishes. */
  ghost predicate EndsAt(s: State, bidi: bool, testing: bool, messages: seq<Message>, k: nat) {
    && k < |messages| && AllAccepted(s, bidi, testing, messages[..k]) && !(bidi && AnyFinish(messages[..k]))
    && (Refusal(s, bidi, testing, messages[..k], messages[k]).Some? || (bidi && messages[k].finishWrite))
  }

  /** If it is not over, some message ended it. */
  lemma {:induction false} SomeEnd(s: State, bidi: bool, testing: bool, messages: seq<Message>) returns (k: nat)
    requires !s.complete && Run(s, bidi, testing, messages).stopped
    ensures EndsAt(s, bidi, testing, messages, k)
  {
    hide Next, Run, AllAccepted, AnyFinish, Refusal, Running;
    RunsOn(s, bidi, testing, messages);
    if messages == [] {
      NothingYet(s, bidi, testing);
    }
    var n := |messages| - 1;
    var init := messages[..n];
    RunsOn(s, bidi, testing, init);
    if Run(s, bidi, testing, init).stopped {
      k := SomeEnd(s, bidi, testing, init);
      assert init[..k] == messages[..k];
    } else {
      k := n;
      AcceptedSnoc(s, bidi, testing, messages);
      AnySnoc(messages);
    }
  }

  /** How it ends: with the error of that message, or complete. */
  lemma EndIs(s: State, bidi: bool, testing: bool, messages: seq<Message>, k: nat)
    requires !s.complete && EndsAt(s, bidi, testing, messages, k)
    ensures var p, refusal := Run(s, bidi, testing, messages), Refusal(s, bidi, testing, messages[..k], messages[k]);
            && p.stopped && p.error == refusal
            && (p.state.complete <==> AnyFinish(messages[..k]) || (refusal.None? && messages[k].finishWrite))
  {
    hide AllAccepted, AnyFinish, Refusal, Next, Run;
    RunsOn(s, bidi, testing, messages[..k]);
    NextDecided(s, bidi, testing, messages[..k], messages[k], Run(s, bidi, testing, messages[..k]));
    assert messages[..k] + [messages[k]] == messages[..k + 1];
    AnySnoc(messages[..k + 1]);
    RunStep(s, bidi, testing, messages[..k + 1]);
    assert messages[..k + 1][..k] == messages[..k];
    StoppedStream(s, bidi, testing, messages, k + 1);
  }

  /** An accepted message with `finishWrite`, after accepted messages. */
  ghost predicate Finishes(s: State, bidi: bool, testing: bool, messages: seq<Message>, k: nat) {
    k < |messages| && messages[k].finishWrite && AllAccepted(s, bidi, testing, messages[..k + 1])
  }

  lemma AcceptedPrefix(s: State, bidi: bool, testing: bool, messages: seq<Message>, j: nat, k: nat)
    requires j <= k <= |messages| && AllAccepted(s, bidi, testing, messages[..k])
    ensures AllAccepted(s, bidi, testing, messages[..j])
  {
    hide Refusal;
    forall i | 0 <= i < j
      ensures messages[..j][..i] == messages[..k][..i] && messages[..j][i] == messages[..k][i]
    {
    }
  }

  lemma AnyIn(messages: seq<Message>, k: nat)
    requires k <= |messages|
    ensures AnyFinish(messages[..k]) <==> exists j :: 0 <= j < k && messages[j].finishWrite
  {
    if j :| 0 <= j < k && messages[j].finishWrite {
      assert messages[..k][j].finishWrite;
    }
  }

  /**
   A stream from an upload that is not complete, of either kind, whatever its messages carry. It ends
   without an error exactly when every message it comes to is accepted; it comes to all of them, but a
   bidirectional stream to none after the first that finishes. Otherwise the error is that of the first
   message that is refused. The upload is complete exactly when some message finishes it.
   */
  lemma StreamDecided(s: State, bidi: bool, testing: bool, messages: seq<Message>)
    requires !s.complete
    ensures var p := Run(s, bidi, testing, messages);
            && (p.state.complete <==> exists k: nat :: Finishes(s, bidi, testing, messages, k))
            && (p.error.None? <==> AllAccepted(s, bidi, testing, messages) ||
                                   (bidi && exists k: nat :: Finishes(s, bidi, testing, messages, k)))
            && forall k: nat :: EndsAt(s, bidi, testing, messages, k) ==> p.error == Refusal(s, bidi, testing, messages[..k], messages[k])
  {
    hide AllAccepted, AnyFinish, Refusal, Next, Running, Run;
    var p := Run(s, bidi, testing, messages);
    RunsOn(s, bidi, testing, messages);
    forall k: nat | EndsAt(s, bidi, testing, messages, k)
      ensures p.error == Refusal(s, bidi, testing, messages[..k], messages[k])
    {
      EndIs(s, bidi, testing, messages, k);
    }
    assert messages[..|messages|] == messages;
    if p.stopped {
      var k := SomeEnd(s, bidi, testing, messages);
      StoppedDecided(s, bidi, testing, messages, k);
    } else {
      AnyIn(messages, |messages|);
      RunningIs(s, messages, p);
      forall j | 0 <= j < |messages| && messages[j].finishWrite
        ensures Finishes(s, bidi, testing, messages, j)
      {
        AcceptedPrefix(s, bidi, testing, messages, j + 1, |messages|);
      }
    }
  }

  lemma RunningIs(s: State, messages: seq<Message>, p: Progress)
    requires Running(s, messages, p)
    ensures p.error.None? && (p.state.complete <==> AnyFinish(messages))
  {
  }

  lemma StoppedDecided(s: State, bidi: bool, testing: bool, messages: seq<Message>, k: nat)
    requires !s.complete && EndsAt(s, bidi, testing, messages, k)
    ensures var p := Run(s, bidi, testing, messages);
            && (p.state.complete <==> exists j: nat :: Finishes(s, bidi, testing, messages, j))
            && (p.error.None? <==> AllAccepted(s, bidi, testing, messages) ||
                                   (bidi && exists j: nat :: Finishes(s, bidi, testing, messages, j)))
  {
    hide AllAccepted, AnyFinish, Refusal, Next, Run;
    var refusal := Refusal(s, bidi, testing, messages[..k], messages[k]);
    EndIs(s, bidi, testing, messages, k);
    AnyIn(messages, k);
    AcceptedSnoc(s, bidi, testing, messages[..k + 1]);
    assert messages[..k + 1][..k] == messages[..k];
    forall j | 0 <= j < k && messages[j].finishWrite
      ensures Finishes(s, bidi, testing, messages, j)
    {
      AcceptedPrefix(s, bidi, testing, messages, j + 1, k);
    }
    forall j: nat | Finishes(s, bidi, testing, messages, j) && refusal.Some?
      ensures j < k
    {
      if j >= k {
        AcceptedPrefix(s, bidi, testing, messages, k + 1, j + 1);
      }
    }
    if refusal.Some? && AllAccepted(s, bidi, testing, messages) {
      assert messages[..|messages|] == messages;
      AcceptedPrefix(s, bidi, testing, messages, k + 1, |messages|);
    }
    if refusal.None? {
      assert Finishes(s, bidi, testing, messages, k);
    }
  }

  /** A stream to an upload that is complete changes nothing; WriteObject refuses it, BidiWriteObject just ends. */
  lemma {:induction false} CompleteStays(s: State, bidi: bool, testing: bool, messages: seq<Message>)
    requires s.complete
    ensures var p := Run(s, bidi, testing, messages);
            p.stopped && p.state == s && p.error == if bidi then None else Some(Invalid)
  {
    if messages != [] {
      CompleteStays(s, bidi, testing, messages[..|messages| - 1]);
    }
  }

  // ---- What a bidirectional stream answers ----

  /** The message is accepted, as are those before it; none of them finishes; it asks, or is the first to an appendable upload. */
  ghost predicate Answered(s: State, testing: bool, appendable: bool, messages: seq<Message>, k: nat) {
    && k < |messages| && AllAccepted(s, true, testing, messages[..k + 1]) && !AnyFinish(messages[..k + 1])
    && (messages[k].stateLookup || (appendable && k == 0))
  }

  /** Message by message: one that asks is answered, with the size its data reaches, and no other is. */
  lemma SizesDecided(s: State, testing: bool, appendable: bool, messages: seq<Message>)
    requires !s.complete && messages != []
    ensures Sizes(s, testing, appendable, []) == []
    ensures var n := |messages| - 1;
            var sizes := Sizes(s, testing, appendable, messages[..n]);
            Sizes(s, testing, appendable, messages) ==
            if Answered(s, testing, appendable, messages, n) then sizes + [Reach(|s.media|, messages)] else sizes
  {
    hide AllAccepted, AnyFinish, Reach, Run, AnyChecksums;
    var n := |messages| - 1;
    RunsOn(s, true, testing, messages);
    assert messages[..n + 1] == messages;
    if appendable && n > 0 && !Run(s, true, testing, messages).stopped {
      AcceptedPrefix(s, true, testing, messages, 1, |messages|);
      FirstAnswered(s, testing, messages, n);
    }
  }

  /** An appendable stream that goes on has answered its first message. */
  lemma {:induction false} FirstAnswered(s: State, testing: bool, messages: seq<Message>, n: nat)
    requires !s.complete && 0 < n <= |messages| && !Run(s, true, testing, messages).stopped
    ensures Sizes(s, testing, true, messages[..n]) != []
  {
    hide Run, Reach;
    if n == 1 {
      RunningBefore(s, testing, messages, 1);
      assert messages[..1][..0] == [];
      assert Sizes(s, testing, true, []) == [];
    } else {
      FirstAnswered(s, testing, messages, n - 1);
      assert messages[..n][..n - 1] == messages[..n - 1];
    }
  }

  lemma RunningBefore(s: State, testing: bool, messages: seq<Message>, n: nat)
    requires n <= |messages| && !Run(s, true, testing, messages).stopped
    ensures !Run(s, true, testing, messages[..n]).stopped
  {
    hide Run;
    if Run(s, true, testing, messages[..n]).stopped {
      StoppedStream(s, true, testing, messages, n);
    }
  }
}
