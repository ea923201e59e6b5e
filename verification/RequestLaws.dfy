/** What each request of a resumable upload is answered with, and which one completes it: said from the request. */
module RequestLaws {

  import opened Bytes
  import opened RestUpload
  import opened RetryTests
  import opened Wrappers

  // ---- The headers ----

  /** The length of the upload: as declared when it was started, or that of a chunk of unknown end. */
  function KnownLength(declared: nat, r: Request): nat
    requires r.range.Chunk?
  {
    if declared != 0 then declared else if r.range.last == None then |r.data| else 0
  }

  /** The total a chunk names, or else the length that is known. */
  function NamedTotal(declared: nat, r: Request): nat
    requires r.range.Chunk?
  {
    match r.range.total
    case Some(total) => total
    case None => KnownLength(declared, r)
  }

  /** The error a request is refused with before anything is done. */
  function Refusal(declared: nat, r: Request): Option<Response> {
    if r.contentLength.Some? && r.contentLength.value != |r.data| then Some(BadRequest)
    else if r.range.Malformed? then Some(ServerError)
    else if r.range.Chunk? && KnownLength(declared, r) != 0 && KnownLength(declared, r) != NamedTotal(declared, r)
    then Some(LengthMismatch)
    else None
  }

  /** Where the request would fail, if it does: a header asks for it, or the test that is in progress. */
  function FaultPoint(queue: seq<Instruction>, r: Request): Option<(nat, nat)> {
    if r.return503After256K then Some((503, 256 * 1024))
    else if !r.testing || queue == [] then None
    else match queue[0]
      case ReturnAfterBytes(code, kibibytes) => if code == 0 then None else Some((code, 1024 * kibibytes))
      case _ => None
  }

  /** The fault lies within what would be persisted. */
  predicate Struck(s: State, r: Request)
    requires r.range.Chunk?
  {
    var point := FaultPoint(s.queue, r);
    point.Some? && point.value.1 <= Max(|s.media|, r.range.first + |r.data|)
  }

  /** The request after which the whole object is there, as far as the client has said. */
  predicate Completes(s: State, declared: nat, r: Request) {
    && Refusal(declared, r).None?
    && match r.range
       case NoHeader => true
       case Malformed => false
       case Status(total) => total == Some(|s.media|)
       case Chunk(first, _, _) => !Struck(s, r) && NamedTotal(declared, r) == Max(|s.media|, first + |r.data|)
  }

  /** The test's instruction is one that fails requests. */
  predicate FromTest(queue: seq<Instruction>, r: Request) {
    r.testing && queue != [] && queue[0].ReturnAfterBytes? && queue[0].code != 0
  }

  // ---- One request ----

  lemma SameFault(s: State, r: Request)
    ensures var fault, point := FaultInForce(s.queue, r), FaultPoint(s.queue, r);
            && (fault.Some? <==> point.Some?)
            && (fault.Some? ==> fault.value.code == point.value.0 && fault.value.afterBytes == point.value.1
                                && (fault.value.queued <==> FromTest(s.queue, r)))
  {
  }

  /** A fair chunk that is not refused: it fails at the fault, or is persisted to its end, and completes at the total. */
  lemma ChunkDecided(s: State, declared: nat, r: Request, client: Bytes)
    requires s.media <= client && !s.complete && r.range.Chunk? && Fair(s, declared, r, client) && Refusal(declared, r).None?
    ensures var (after, response) := Step(s, declared, r);
            var end := Max(|s.media|, r.range.first + |r.data|);
            if Struck(s, r) then
              var (code, bytes) := FaultPoint(s.queue, r).value;
              && response == InjectedFault(code) && !after.complete && bytes <= |client|
              && after.media == client[..Max(|s.media|, bytes)]
              && after.queue == if FromTest(s.queue, r) then s.queue[1..] else s.queue
            else
              && after.media == client[..end] && after.queue == s.queue
              && (after.complete <==> Completes(s, declared, r))
              && response == if after.complete then Inserted else ResumeIncomplete
  {
    hide Step, InPlace;
    SameFault(s, r);
    ChunkIsExact(s, declared, r, client);
  }

  /**
   One fair request, of any kind: what it is answered with and what it leaves. A refused one, a status
   query that is not the last, and any request after the end leave the upload as it is.
   */
  lemma RequestDecided(s: State, declared: nat, r: Request, client: Bytes)
    requires s.media <= client && (s.complete ==> s.media == client) && Fair(s, declared, r, client)
    ensures var (after, response) := Step(s, declared, r);
            if s.complete then after == s && response == AlreadyComplete
            else if Refusal(declared, r).Some? then after == s && response == Refusal(declared, r).value
            else
              && (response == Inserted <==> Completes(s, declared, r)) && (after.complete <==> Completes(s, declared, r))
              && (after.complete ==> after.media == client)
              && (r.range.Status? ==> after.media == s.media && after.queue == s.queue)
              && (r.range.Status? && !after.complete ==> after == s && response == ResumeIncomplete)
              && (r.range.Chunk? ==> if Struck(s, r) then response == InjectedFault(FaultPoint(s.queue, r).value.0)
                                     else response == Inserted || response == ResumeIncomplete)
  {
    hide FaultOrStore, Struck, FaultPoint, Honest, InPlace, Truthful;
    if !s.complete && r.range.Chunk? && Refusal(declared, r).None? {
      ChunkDecided(s, declared, r, client);
      FairStep(s, declared, r, client);
    } else {
      assert s.media == client[..|s.media|];
      assert s.media == [] ==> s.media + r.data == r.data;
    }
  }

  // ---- Runs ----

  /** The upload was not complete, and this request of the run completes it. */
  predicate CompletedAt(s: State, declared: nat, requests: seq<Request>, k: nat) {
    k < |requests| && !Run(s, declared, requests[..k]).complete && Completes(Run(s, declared, requests[..k]), declared, requests[k])
  }

  /** Every request of the run is fair in the state it finds. */
  ghost predicate AllFair(s: State, declared: nat, requests: seq<Request>, client: Bytes) {
    forall k :: 0 <= k < |requests| ==> Fair(Run(s, declared, requests[..k]), declared, requests[k], client)
  }

  lemma FairPrefix(s: State, declared: nat, requests: seq<Request>, client: Bytes, n: nat)
    requires AllFair(s, declared, requests, client) && n <= |requests|
    ensures AllFair(s, declared, requests[..n], client)
  {
    hide Fair, Run;
    forall k | 0 <= k < n
      ensures requests[..n][..k] == requests[..k]
    {
    }
  }

  /** The request at one place of the run. */
  lemma RequestAt(s: State, declared: nat, requests: seq<Request>, client: Bytes, k: nat)
    requires s.media <= client && (s.complete ==> s.media == client) && AllFair(s, declared, requests, client) && k < |requests|
    ensures var before := Run(s, declared, requests[..k]);
            var (after, response) := Step(before, declared, requests[k]);
            && (before.complete ==> before.media == client)
            && (response == Inserted <==> CompletedAt(s, declared, requests, k))
            && (after.complete <==> before.complete || CompletedAt(s, declared, requests, k))
            && (before.complete || Refusal(declared, requests[k]).Some? ==> after == before)
  {
    hide Step, Fair, Run;
    var before := Run(s, declared, requests[..k]);
    FairPrefix(s, declared, requests, client, k);
    var taken := UploadIsExact(s, declared, requests[..k], client);
    RequestDecided(before, declared, requests[k], client);
    RefusedIsNotLast(before, declared, requests[k]);
  }

  lemma RefusedIsNotLast(s: State, declared: nat, r: Request)
    ensures Refusal(declared, r).Some? ==> !Completes(s, declared, r)
    ensures Refusal(declared, r) != Some(Inserted)
  {
  }

  /**
   Over any run of fair requests the upload is complete exactly if it was, or some request completes it;
   that request, and no other, is answered with the object. Refused requests change nothing.
   */
  lemma {:induction false} UploadCompletes(s: State, declared: nat, requests: seq<Request>, client: Bytes)
    requires s.media <= client && (s.complete ==> s.media == client) && AllFair(s, declared, requests, client)
    ensures Run(s, declared, requests).complete <==> s.complete || exists k: nat :: CompletedAt(s, declared, requests, k)
    ensures forall k :: 0 <= k < |requests| ==>
              (Step(Run(s, declared, requests[..k]), declared, requests[k]).1 == Inserted <==> CompletedAt(s, declared, requests, k))
    ensures forall k :: 0 <= k < |requests| && Refusal(declared, requests[k]).Some? ==>
              Step(Run(s, declared, requests[..k]), declared, requests[k]).0 == Run(s, declared, requests[..k])
  {
    hide Step, Fair, CompletedAt;
    forall k | 0 <= k < |requests|
      ensures Step(Run(s, declared, requests[..k]), declared, requests[k]).1 == Inserted <==> CompletedAt(s, declared, requests, k)
      ensures Refusal(declared, requests[k]).Some? ==>
                Step(Run(s, declared, requests[..k]), declared, requests[k]).0 == Run(s, declared, requests[..k])
    {
      RequestAt(s, declared, requests, client, k);
    }
    CompleteIff(s, declared, requests, client);
  }

  lemma {:induction false} CompleteIff(s: State, declared: nat, requests: seq<Request>, client: Bytes)
    requires s.media <= client && (s.complete ==> s.media == client) && AllFair(s, declared, requests, client)
    ensures Run(s, declared, requests).complete <==> s.complete || exists k: nat :: CompletedAt(s, declared, requests, k)
  {
    hide Step, AllFair, CompletedAt;
    if requests == [] {
      NoneCompletes(s, declared);
    } else {
      var n := |requests| - 1;
      FairPrefix(s, declared, requests, client, n);
      CompleteIff(s, declared, requests[..n], client);
      RequestAt(s, declared, requests, client, n);
      SamePlaces(s, declared, requests);
    }
  }

  lemma NoneCompletes(s: State, declared: nat)
    ensures forall k: nat :: !CompletedAt(s, declared, [], k)
  {
  }

  /** The requests before the last complete the upload where they did. */
  lemma SamePlaces(s: State, declared: nat, requests: seq<Request>)
    requires requests != []
    ensures var n := |requests| - 1;
            && (forall k: nat :: k < n ==> (CompletedAt(s, declared, requests[..n], k) <==> CompletedAt(s, declared, requests, k)))
            && (forall k: nat :: CompletedAt(s, declared, requests, k) ==> k == n || CompletedAt(s, declared, requests[..n], k))
            && forall k: nat :: CompletedAt(s, declared, requests[..n], k) ==> CompletedAt(s, declared, requests, k)
  {
    hide Run, Completes;
    var n := |requests| - 1;
    forall k: nat | k < n
      ensures requests[..n][..k] == requests[..k] && requests[..n][k] == requests[k]
    {
    }
  }
}
