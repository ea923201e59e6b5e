/**
 The bidirectional read (BidiReadObject in testbench/grpc_server.py): the ranges of one request are
 answered one response at a time in turn, and a byte budget may break the stream.
 */
module BidiRead {

  import opened Bytes
  import opened Wrappers

  datatype Range = Range(readOffset: int, readLength: int, readId: int)

  datatype Item = Item(content: Bytes, rangeEnd: bool, offset: int, length: int, readId: int)

  /**
   What the generators hand to the response loop: the item that the range at `index` sends on its
   turn number `turn`, or a refusal.
   */
  datatype Event = Deliver(index: nat, turn: nat, item: Item) | OutOfRange(readId: int)

  datatype Ending = Completed | Refused(readId: int) | BrokenStream

  /** `sys.maxsize`, the budget when no fault is configured. */
  const MAX_SIZE := 0x7FFF_FFFF_FFFF_FFFF

  // ---- One range ----

  predicate Satisfiable(media: Bytes, range: Range) {
    Start(media, range.readOffset) <= |media| && range.readLength >= 0
  }

  function End(media: Bytes, range: Range): (end: nat)
    requires Satisfiable(media, range)
    ensures Start(media, range.readOffset) <= end <= |media|
  {
    if range.readLength > 0 then Min(|media|, Start(media, range.readOffset) + range.readLength) else |media|
  }

  /** The bytes a range asks for; a zero length asks for the rest of the object. */
  function Requested(media: Bytes, range: Range): Bytes
    requires Satisfiable(media, range)
  {
    media[Start(media, range.readOffset)..End(media, range)]
  }

  /** What a range is: a request for some bytes from its offset on. */
  lemma RangeDecided(media: Bytes, range: Range)
    ensures Satisfiable(media, range) <==> range.readOffset <= |media| && range.readLength >= 0
    ensures Satisfiable(media, range) ==>
              && Requested(media, range) == Part(media, range.readOffset, range.readLength)
              && Start(media, range.readOffset) == |media| - |Tail(media, range.readOffset)|
              && End(media, range) == Start(media, range.readOffset) + |Part(media, range.readOffset, range.readLength)|
  {
    if Satisfiable(media, range) {
      PartIs(media, range.readOffset, range.readLength);
    }
  }

  /** Items that follow each other without gaps from `start` to `end`. */
  ghost predicate Contiguous(items: seq<Item>, start: int, end: int, readId: int) {
    forall k {:trigger items[k]} :: 0 <= k < |items| ==>
      && items[k].length == |items[k].content|
      && items[k].readId == readId
      && items[k].offset == (if k == 0 then start else items[k - 1].offset + items[k - 1].length)
      && (items[k].rangeEnd <==> items[k].offset + items[k].length == end)
  }

  function Contents(items: seq<Item>): Bytes {
    if items == [] then [] else Contents(items[..|items| - 1]) + items[|items| - 1].content
  }

  /** The whole answer to one range: its bytes in increasing offset, then one empty item. */
  ghost predicate Answers(items: seq<Item>, media: Bytes, range: Range)
    requires Satisfiable(media, range)
  {
    && items != []
    && Contiguous(items, Start(media, range.readOffset), End(media, range), range.readId)
    && Contents(items) == Requested(media, range)
    && items[|items| - 1] == Item([], true, End(media, range), 0, range.readId)
    && forall k :: 0 <= k < |items| - 1 ==> items[k].content != []
  }

  method ProcessReadRange(media: Bytes, range: Range, size: int) returns (r: Option<seq<Item>>)
    requires size > 0
    ensures r.Some? <==> Satisfiable(media, range)
    ensures r.Some? ==> Answers(r.value, media, range)
    ensures r.Some? ==> forall k :: 0 <= k < |r.value| ==> |r.value[k].content| <= size
  {
    hide Contents, Contiguous;
    var start := range.readOffset;
    if start < 0 {
      start := Max(0, |media| + start);
    }
    var readEnd := |media|;
    if start > readEnd || range.readLength < 0 {
      return None;
    }
    if range.readLength > 0 {
      readEnd := Min(readEnd, start + range.readLength);
    }
    var items := SendChunks(media, range.readId, start, readEnd, size);
    var last := Item([], true, readEnd, 0, range.readId);
    SendItem(items, last, media, start, readEnd, readEnd);
    AnswerEnds(items, last, media, range);
    return Some(items + [last]);
  }

  lemma AnswerEnds(items: seq<Item>, last: Item, media: Bytes, range: Range)
    requires Satisfiable(media, range)
    requires var start, end := Start(media, range.readOffset), End(media, range);
             && last == Item([], true, end, 0, range.readId) && Sent(items + [last], media, start, end, end, range.readId)
    requires forall k :: 0 <= k < |items| ==> items[k].content != []
    ensures Answers(items + [last], media, range)
  {
    hide Contents, Contiguous;
  }

  lemma NothingSent(media: Bytes, start: int, end: int, readId: int)
    requires 0 <= start <= |media|
    ensures Sent([], media, start, start, end, readId)
  {
  }

  method SendChunks(media: Bytes, readId: int, start: int, readEnd: int, size: int) returns (items: seq<Item>)
    requires size > 0 && 0 <= start <= readEnd <= |media|
    ensures Sent(items, media, start, readEnd, readEnd, readId)
    ensures forall k :: 0 <= k < |items| ==> 0 < |items[k].content| <= size
  {
    hide Contents, Contiguous;
    items := [];
    NothingSent(media, start, readEnd, readId);
    var pos := start;
    while pos < readEnd
      invariant start <= pos <= readEnd
      invariant Sent(items, media, start, pos, readEnd, readId)
      invariant forall k :: 0 <= k < |items| ==> 0 < |items[k].content| <= size
      decreases readEnd - pos
    {
      var end := Min(pos + size, readEnd);
      var chunk := Slice(media, pos, end);
      var item := Item(chunk, end == readEnd, pos, end - pos, readId);
      SendItem(items, item, media, start, pos, readEnd);
      items := items + [item];
      pos := end;
    }
  }

  /** The items so far cover the bytes from `start` to `pos` without gaps. */
  ghost predicate Sent(items: seq<Item>, media: Bytes, start: int, pos: int, end: int, readId: int)
    requires 0 <= start <= pos <= |media|
  {
    && Contiguous(items, start, end, readId)
    && pos == (if items == [] then start else items[|items| - 1].offset + items[|items| - 1].length)
    && Contents(items) == media[start..pos]
  }

  lemma OneMoreItem(items: seq<Item>, item: Item)
    ensures Contents(items + [item]) == Contents(items) + item.content
  {
    assert (items + [item])[..|items|] == items;
  }

  lemma ContiguousSnoc(items: seq<Item>, item: Item, start: int, pos: int, end: int)
    requires Contiguous(items, start, end, item.readId) && item.length == |item.content| && item.offset == pos
    requires pos == if items == [] then start else items[|items| - 1].offset + items[|items| - 1].length
    requires item.rangeEnd <==> pos + item.length == end
    ensures Contiguous(items + [item], start, end, item.readId)
  {
    var more := items + [item];
    forall k | 0 <= k < |more|
      ensures more[k].length == |more[k].content| && more[k].readId == item.readId
      ensures more[k].offset == (if k == 0 then start else more[k - 1].offset + more[k - 1].length)
      ensures more[k].rangeEnd <==> more[k].offset + more[k].length == end
    {
      if k < |items| {
        assert more[k] == items[k];
        assert k > 0 ==> more[k - 1] == items[k - 1];
      } else {
        assert more[k] == item;
        assert k > 0 ==> more[k - 1] == items[|items| - 1];
      }
    }
  }

  lemma SendItem(items: seq<Item>, item: Item, media: Bytes, start: int, pos: int, end: int)
    requires 0 <= start <= pos <= pos + item.length <= end <= |media|
    requires Sent(items, media, start, pos, end, item.readId)
    requires item.length >= 0 && item.content == media[pos..pos + item.length] && item.offset == pos
    requires item.rangeEnd <==> pos + item.length == end
    ensures Sent(items + [item], media, start, pos + item.length, end, item.readId)
  {
    hide Contents;
    OneMoreItem(items, item);
    ContiguousSnoc(items, item, start, pos, end);
    assert media[start..pos] + media[pos..pos + item.length] == media[start..pos + item.length];
  }

  // ---- One batch of ranges, in turn; `base` numbers its ranges after those of earlier batches ----

  /** The items of the range at `index`, in the order they are sent. */
  function ItemsOf(events: seq<Event>, index: nat): seq<Item> {
    if events == [] then []
    else ItemsOf(events[..|events| - 1], index) + ItemOf(events[|events| - 1], index)
  }

  function ItemOf(event: Event, index: nat): seq<Item> {
    if event.Deliver? && event.index == index then [event.item] else []
  }

  lemma {:induction false} ItemsOfAppend(a: seq<Event>, b: seq<Event>, index: nat)
    ensures ItemsOf(a + b, index) == ItemsOf(a, index) + ItemsOf(b, index)
  {
    hide ItemsOf, ItemOf;
    if b == [] {
      assert a + b == a;
      NoItems(index);
      assert ItemsOf(a, index) + [] == ItemsOf(a, index);
    } else {
      var init, last := b[..|b| - 1], b[|b| - 1];
      ItemsOfAppend(a, init, index);
      ItemsOfSnoc(a + init, last, index);
      ItemsOfSnoc(init, last, index);
      assert a + b == a + init + [last] && b == init + [last];
    }
  }

  lemma NoItems(index: nat)
    ensures ItemsOf([], index) == []
  {
  }

  lemma ItemsOfSnoc(events: seq<Event>, event: Event, index: nat)
    ensures ItemsOf(events + [event], index) == ItemsOf(events, index) + ItemOf(event, index)
  {
    assert (events + [event])[..|events|] == events;
  }

  /** The position of the first range that cannot be satisfied, or the number of ranges. */
  function FirstRefused(media: Bytes, batch: seq<Range>): (n: nat)
    ensures n <= |batch|
    ensures forall k :: 0 <= k < n ==> Satisfiable(media, batch[k])
    ensures n < |batch| ==> !Satisfiable(media, batch[n])
  {
    if batch == [] then 0
    else var n := FirstRefused(media, batch[..|batch| - 1]);
         if n == |batch| - 1 && Satisfiable(media, batch[n]) then n + 1 else n
  }

  /** Every event delivers an item of one of the ranges numbered from `base` to `limit`. */
  ghost predicate Delivers(events: seq<Event>, base: nat, limit: nat) {
    forall k :: 0 <= k < |events| ==> events[k].Deliver? && base <= events[k].index < limit
  }

  predicate Before(a: Event, b: Event)
    requires a.Deliver? && b.Deliver?
  {
    a.turn < b.turn || (a.turn == b.turn && a.index < b.index)
  }

  /** Round robin: no range takes its next turn before the others have taken theirs. */
  ghost predicate InTurn(events: seq<Event>, base: nat, limit: nat) {
    && Delivers(events, base, limit)
    && forall j, k :: 0 <= j < k < |events| ==> Before(events[j], events[k])
  }

  /** Each range's items are its full answer. */
  ghost predicate Answered(events: seq<Event>, media: Bytes, ranges: seq<Range>, base: nat) {
    && Delivers(events, base, base + |ranges|)
    && forall i :: 0 <= i < |ranges| ==>
         Satisfiable(media, ranges[i]) && Answers(ItemsOf(events, base + i), media, ranges[i])
  }

  /** The first round asks every range before it sends anything, so a refusal is all that comes of the batch. */
  ghost predicate RefusedBatch(events: seq<Event>, media: Bytes, batch: seq<Range>) {
    var refused := FirstRefused(media, batch);
    refused < |batch| && events == [OutOfRange(batch[refused].readId)]
  }

  /** What a range has sent after `turns` turns. */
  function Taken(items: seq<Item>, turns: nat): (r: seq<Item>)
    ensures turns >= |items| ==> r == items
  {
    items[..Min(turns, |items|)]
  }

  /** In round `round`, the first `upTo` ranges have taken their turn. */
  ghost predicate Progress(events: seq<Event>, answers: seq<seq<Item>>, base: nat, round: nat, upTo: nat) {
    && upTo <= |answers|
    && InTurn(events, base, base + |answers|)
    && (forall k :: 0 <= k < |events| ==>
          events[k].turn < round || (events[k].turn == round && events[k].index < base + upTo))
    && forall i :: 0 <= i < |answers| ==>
         ItemsOf(events, base + i) == Taken(answers[i], if i < upTo then round + 1 else round)
  }

  lemma TakeTurn(events: seq<Event>, answers: seq<seq<Item>>, base: nat, round: nat, upTo: nat)
    requires upTo < |answers| && Progress(events, answers, base, round, upTo)
    ensures round < |answers[upTo]| ==>
              Progress(events + [Deliver(base + upTo, round, answers[upTo][round])], answers, base, round, upTo + 1)
    ensures round >= |answers[upTo]| ==> Progress(events, answers, base, round, upTo + 1)
  {
    if round < |answers[upTo]| {
      var event := Deliver(base + upTo, round, answers[upTo][round]);
      forall i | 0 <= i < |answers|
        ensures ItemsOf(events + [event], base + i) == Taken(answers[i], if i < upTo + 1 then round + 1 else round)
      {
        ItemsOfSnoc(events, event, base + i);
        if i == upTo {
          TakenOneMore(answers[i], round);
        } else {
          assert Taken(answers[i], if i < upTo then round + 1 else round) + [] ==
                 Taken(answers[i], if i < upTo then round + 1 else round);
        }
      }
    }
  }

  lemma TakenOneMore(items: seq<Item>, turns: nat)
    requires turns < |items|
    ensures Taken(items, turns) + [items[turns]] == Taken(items, turns + 1)
  {
  }

  /** The generators are started in turn, up to one that refuses its range. */
  method StartBatch(media: Bytes, batch: seq<Range>, size: int) returns (answers: seq<seq<Item>>)
    requires size > 0
    ensures |answers| == FirstRefused(media, batch)
    ensures forall k :: 0 <= k < |answers| ==> Answers(answers[k], media, batch[k])
  {
    hide Answers, Satisfiable;
    answers := [];
    for i := 0 to |batch|
      invariant |answers| == i <= FirstRefused(media, batch)
      invariant forall k :: 0 <= k < i ==> Answers(answers[k], media, batch[k])
    {
      var answer := ProcessReadRange(media, batch[i], size);
      if answer.None? {
        return;
      }
      answers := answers + [answer.value];
    }
  }

  /** `zip_longest` over the generators: one item of each range per round, until all are exhausted. */
  method ResponsesForRangeBatch(media: Bytes, batch: seq<Range>, base: nat, size: int)
    returns (events: seq<Event>, refused: bool)
    requires size > 0
    ensures refused <==> FirstRefused(media, batch) < |batch|
    ensures refused ==> RefusedBatch(events, media, batch)
    ensures !refused ==> InTurn(events, base, base + |batch|) && Answered(events, media, batch, base)
  {
    var answers := StartBatch(media, batch, size);
    if |answers| < |batch| {
      return [OutOfRange(batch[|answers|].readId)], true;
    }
    events := Rounds(answers, base);
    refused := false;
  }

  method Rounds(answers: seq<seq<Item>>, base: nat) returns (events: seq<Event>)
    ensures InTurn(events, base, base + |answers|)
    ensures forall i :: 0 <= i < |answers| ==> ItemsOf(events, base + i) == answers[i]
  {
    hide ItemsOf;
    events := [];
    NoTurnYet(answers, base);
    var round := 0;
    while exists i :: 0 <= i < |answers| && round < |answers[i]|
      invariant Progress(events, answers, base, round, 0)
      decreases Longest(answers) - round
    {
      for i := 0 to |answers|
        invariant Progress(events, answers, base, round, i)
      {
        TakeTurn(events, answers, base, round, i);
        if round < |answers[i]| {
          events := events + [Deliver(base + i, round, answers[i][round])];
        }
      }
      round := round + 1;
    }
  }

  function Longest(answers: seq<seq<Item>>): (n: nat)
    ensures forall k :: 0 <= k < |answers| ==> |answers[k]| <= n
  {
    if answers == [] then 0 else Max(Longest(answers[..|answers| - 1]), |answers[|answers| - 1]|)
  }

  lemma NoTurnYet(answers: seq<seq<Item>>, base: nat)
    ensures Progress([], answers, base, 0, 0)
  {
  }

  // ---- All batches of a stream ----

  function Flatten(batches: seq<seq<Range>>): seq<Range> {
    if batches == [] then [] else Flatten(batches[..|batches| - 1]) + batches[|batches| - 1]
  }

  /** The number of batches before the first one with a range that cannot be satisfied. */
  function Served(media: Bytes, batches: seq<seq<Range>>): (n: nat)
    ensures n <= |batches|
    ensures forall k :: 0 <= k < n ==> FirstRefused(media, batches[k]) == |batches[k]|
    ensures n < |batches| ==> FirstRefused(media, batches[n]) < |batches[n]|
  {
    if batches == [] then 0
    else var n := Served(media, batches[..|batches| - 1]);
         if n == |batches| - 1 && FirstRefused(media, batches[n]) == |batches[n]| then n + 1 else n
  }

  /**
   Batches are answered one after the other, every range of each in full, up to a batch with a range
   that is refused; of that one only the refusal comes.
   */
  method ReadResults(media: Bytes, batches: seq<seq<Range>>, size: int) returns (events: seq<Event>)
    requires size > 0
    ensures var done := Served(media, batches);
            if done == |batches| then Answered(events, media, Flatten(batches), 0)
            else exists whole, last :: events == whole + last
                   && Answered(whole, media, Flatten(batches[..done]), 0) && RefusedBatch(last, media, batches[done])
  {
    hide Answered, RefusedBatch, InTurn, Satisfiable;
    events := [];
    NothingAnswered(media);
    for done := 0 to |batches|
      invariant done <= Served(media, batches)
      invariant Answered(events, media, Flatten(batches[..done]), 0)
    {
      var more, refused := ResponsesForRangeBatch(media, batches[done], |Flatten(batches[..done])|, size);
      ghost var whole := events;
      events := events + more;
      if refused {
        return;
      }
      AnsweredAppend(whole, more, media, Flatten(batches[..done]), batches[done]);
      assert batches[..done + 1][..done] == batches[..done];
    }
    assert batches[..|batches|] == batches;
  }

  lemma NothingAnswered(media: Bytes)
    ensures Answered([], media, Flatten([]), 0)
  {
  }

  lemma {:induction false} NoItemsOutside(events: seq<Event>, base: nat, limit: nat, index: nat)
    requires Delivers(events, base, limit) && !(base <= index < limit)
    ensures ItemsOf(events, index) == []
  {
    if events != [] {
      NoItemsOutside(events[..|events| - 1], base, limit, index);
    }
  }

  lemma AnsweredAppend(a: seq<Event>, b: seq<Event>, media: Bytes, ranges: seq<Range>, more: seq<Range>)
    requires Answered(a, media, ranges, 0) && Answered(b, media, more, |ranges|)
    ensures Answered(a + b, media, ranges + more, 0)
  {
    hide ItemsOf, Answers, Satisfiable;
    forall i | 0 <= i < |ranges + more|
      ensures Satisfiable(media, (ranges + more)[i]) && Answers(ItemsOf(a + b, i), media, (ranges + more)[i])
    {
      ItemsOfAppend(a, b, i);
      if i < |ranges| {
        NoItemsOutside(b, |ranges|, |ranges| + |more|, i);
        assert ItemsOf(a, i) + [] == ItemsOf(a, i);
        assert Answers(ItemsOf(a, 0 + i), media, ranges[i]);
      } else {
        NoItemsOutside(a, 0, |ranges|, i);
        assert [] + ItemsOf(b, i) == ItemsOf(b, i);
        assert Answers(ItemsOf(b, |ranges| + (i - |ranges|)), media, more[i - |ranges|]);
      }
    }
  }

  // ---- The byte budget ----

  function Total(events: seq<Event>): nat {
    if events == [] then 0
    else Total(events[..|events| - 1]) + Size(events[|events| - 1])
  }

  function Size(event: Event): nat {
    if event.Deliver? then |event.item.content| else 0
  }

  /** `sent` is `events`, except that its last item may be cut short; a cut item does not end its range. */
  ghost predicate CutFrom(sent: seq<Event>, events: seq<Event>) {
    && |sent| <= |events|
    && forall k :: 0 <= k < |sent| ==>
         && sent[k].Deliver? && events[k].Deliver? && sent[k].index == events[k].index && sent[k].turn == events[k].turn
         && (sent[k] == events[k] || (k == |sent| - 1 && Cut(sent[k].item, events[k].item)))
  }

  ghost predicate Cut(sent: Item, whole: Item) {
    && |sent.content| < |whole.content| && sent.content <= whole.content
    && sent == whole.(content := sent.content, rangeEnd := false,
                      length := whole.length - (|whole.content| - |sent.content|))
  }

  /** Without a fault the budget is `sys.maxsize`, which no real stream reaches. */
  ghost predicate WithinBudget(events: seq<Event>, broken: nat) {
    broken > 0 || Total(events) <= MAX_SIZE
  }

  /** A refusal can only be the last event. */
  ghost predicate RefusalIsLast(events: seq<Event>) {
    forall k :: 0 <= k < |events| - 1 ==> events[k].Deliver?
  }

  /**
   The response loop. With a fault after `broken` bytes never more than that is delivered; the
   stream breaks exactly when that much is available, having delivered exactly that much and taken
   the instruction. Otherwise everything before a refusal is delivered unchanged.
   */
  method Respond(events: seq<Event>, broken: nat) returns (sent: seq<Event>, ending: Ending, dequeued: nat)
    requires RefusalIsLast(events)
    ensures ending.BrokenStream? <==> 0 < broken <= Total(events)
    ensures ending.BrokenStream? ==> Total(sent) == broken
    ensures dequeued == if ending.BrokenStream? then 1 else 0
    ensures broken > 0 ==> Total(sent) <= broken
    ensures WithinBudget(events, broken) ==> CutFrom(sent, events)
    ensures WithinBudget(events, broken) && !ending.BrokenStream? ==>
              if events != [] && events[|events| - 1].OutOfRange?
              then sent == events[..|events| - 1] && ending == Refused(events[|events| - 1].readId)
              else sent == events && ending == Completed
  {
    hide Total;
    var returnable := if broken > 0 then broken else MAX_SIZE;
    sent := [];
    TotalOfNothing(events);
    for i := 0 to |events|
      invariant |sent| == i
      invariant WithinBudget(events, broken) ==> sent == events[..i]
      invariant forall k :: 0 <= k < i ==> events[k].Deliver?
      invariant returnable + Total(events[..i]) == if broken > 0 then broken else MAX_SIZE
      invariant broken > 0 ==> returnable > 0
    {
      TotalStep(events, i);
      TotalPrefix(events, i);
      TotalPrefix(events, i + 1);
      if events[i].OutOfRange? {
        assert i == |events| - 1;
        assert events[..|events|] == events;
        return sent, Refused(events[i].readId), 0;
      }
      var count := |events[i].item.content|;
      var item := Trim(events[i].item, returnable);
      ghost var before, left := sent, returnable;
      returnable := returnable - count;
      sent := sent + [Deliver(events[i].index, events[i].turn, item)];
      assert sent[..i] == before;
      if broken > 0 && returnable <= 0 {
        TrimmedToBudget(events, i, left, sent);
        return sent, BrokenStream, 1;
      }
    }
    assert events[..|events|] == events;
    return sent, Completed, 0;
  }

  /** The item cut to what may still be returned; a cut item does not end its range. */
  function Trim(item: Item, returnable: int): Item {
    var excess := |item.content| - returnable;
    if excess > 0
    then item.(content := Slice(item.content, 0, returnable), rangeEnd := false, length := item.length - excess)
    else item
  }

  lemma TotalOfNothing(events: seq<Event>)
    ensures Total(events[..0]) == 0 && Total([]) == 0
  {
  }

  lemma TotalStep(events: seq<Event>, i: nat)
    requires i < |events|
    ensures Total(events[..i + 1]) == Total(events[..i]) + Size(events[i]) && events[..i + 1] == events[..i] + [events[i]]
  {
    assert events[..i + 1][..i] == events[..i];
  }

  lemma TrimmedToBudget(events: seq<Event>, i: nat, returnable: nat, sent: seq<Event>)
    requires i < |events| && (forall k :: 0 <= k <= i ==> events[k].Deliver?)
    requires returnable <= |events[i].item.content|
    requires sent == events[..i] + [Deliver(events[i].index, events[i].turn, Trim(events[i].item, returnable))]
    ensures Total(sent) == Total(events[..i]) + returnable && CutFrom(sent, events)
  {
    assert sent[..i] == events[..i];
  }

  /** The ranges that are answered: those of the batches before the first refusal. */
  function Ranges(media: Bytes, batches: seq<seq<Range>>): (r: seq<Range>)
    ensures forall i :: 0 <= i < |r| ==> Satisfiable(media, r[i])
  {
    FlattenSatisfiable(media, batches[..Served(media, batches)]);
    Flatten(batches[..Served(media, batches)])
  }

  lemma {:induction false} FlattenSatisfiable(media: Bytes, batches: seq<seq<Range>>)
    requires forall b :: 0 <= b < |batches| ==> FirstRefused(media, batches[b]) == |batches[b]|
    ensures forall i :: 0 <= i < |Flatten(batches)| ==> Satisfiable(media, Flatten(batches)[i])
  {
    if batches != [] {
      FlattenSatisfiable(media, batches[..|batches| - 1]);
    }
  }

  /** How many bytes the ranges ask for. */
  function Asked(media: Bytes, ranges: seq<Range>): nat
    requires forall i :: 0 <= i < |ranges| ==> Satisfiable(media, ranges[i])
  {
    if ranges == [] then 0
    else Asked(media, ranges[..|ranges| - 1]) + |Requested(media, ranges[|ranges| - 1])|
  }

  /** How many bytes that is, counted from the ranges themselves. */
  function Together(media: Bytes, ranges: seq<Range>): nat {
    if ranges == [] then 0
    else
      var last := ranges[|ranges| - 1];
      Together(media, ranges[..|ranges| - 1]) + |Part(media, last.readOffset, last.readLength)|
  }

  lemma {:induction false} AskedIs(media: Bytes, ranges: seq<Range>)
    requires forall i :: 0 <= i < |ranges| ==> Satisfiable(media, ranges[i])
    ensures Asked(media, ranges) == Together(media, ranges)
  {
    hide Requested, Satisfiable;
    if ranges != [] {
      AskedIs(media, ranges[..|ranges| - 1]);
      RangeDecided(media, ranges[|ranges| - 1]);
    }
  }

  /** How the stream ends: broken, refused, or complete. */
  function EndingOf(media: Bytes, batches: seq<seq<Range>>, broken: nat): Ending {
    var done := Served(media, batches);
    if 0 < broken <= Asked(media, Ranges(media, batches)) then BrokenStream
    else if done < |batches| then Refused(batches[done][FirstRefused(media, batches[done])].readId)
    else Completed
  }

  /**
   The whole stream. It breaks exactly when the ranges before the first refused batch ask for the
   budget or more, having delivered exactly the budget and taken the instruction; otherwise it ends
   with the refusal, if there is one. Every range before has received, in order, a prefix of the bytes
   it asked for, and all of them unless the stream broke; a range of the refused batch or later, nothing.
   */
  method BidiReadObject(media: Bytes, batches: seq<seq<Range>>, size: int, broken: nat)
    returns (sent: seq<Event>, ending: Ending, dequeued: nat)
    requires size > 0
    ensures broken > 0 ==> Total(sent) <= broken
    ensures ending.BrokenStream? <==> EndingOf(media, batches, broken).BrokenStream?
    ensures dequeued == if ending.BrokenStream? then 1 else 0
    ensures var ranges := Ranges(media, batches);
            broken > 0 || Asked(media, ranges) <= MAX_SIZE ==>
              && ending == EndingOf(media, batches, broken)
              && Total(sent) == (if ending.BrokenStream? then broken else Asked(media, ranges))
              && (forall k :: 0 <= k < |sent| ==> sent[k].Deliver? && sent[k].index < |ranges|)
              && forall i :: 0 <= i < |ranges| ==>
                   && Contents(ItemsOf(sent, i)) <= Requested(media, ranges[i])
                   && (!ending.BrokenStream? ==> Answers(ItemsOf(sent, i), media, ranges[i]))
    ensures ending.BrokenStream? <==> 0 < broken <= Together(media, Ranges(media, batches))
    ensures var ranges := Ranges(media, batches);
            broken > 0 || Together(media, ranges) <= MAX_SIZE ==>
              forall i :: 0 <= i < |ranges| ==> Receives(ItemsOf(sent, i), media, ranges[i], !ending.BrokenStream?)
  {
    hide Total, Contents, ItemsOf, Answers, Asked, Together, Requested;
    var events := ReadResults(media, batches, size);
    ghost var whole := Whole(events, media, batches);
    TotalIsAsked(whole, media, Ranges(media, batches));
    AskedIs(media, Ranges(media, batches));
    sent, ending, dequeued := Respond(events, broken);
    if WithinBudget(events, broken) {
      AfterRefusal(sent, events, whole);
      if !ending.BrokenStream? {
        assert sent == whole;
      }
      forall i | 0 <= i < |Ranges(media, batches)|
        ensures Contents(ItemsOf(sent, i)) <= Requested(media, Ranges(media, batches)[i])
        ensures !ending.BrokenStream? ==> Answers(ItemsOf(sent, i), media, Ranges(media, batches)[i])
      {
        EachRangeGetsPrefix(sent, whole, media, Ranges(media, batches), i);
        assert Answers(ItemsOf(whole, 0 + i), media, Ranges(media, batches)[i]);
      }
      forall i | 0 <= i < |Ranges(media, batches)|
        ensures Receives(ItemsOf(sent, i), media, Ranges(media, batches)[i], !ending.BrokenStream?)
      {
        assert Answers(ItemsOf(whole, 0 + i), media, Ranges(media, batches)[i]);
        ItemsAreCut(sent, whole, i);
        AnswersReceive(ItemsOf(sent, i), ItemsOf(whole, i), media, Ranges(media, batches)[i], !ending.BrokenStream?);
      }
    }
  }

  /** The item is for this range, and says where its bytes are: after those of the items before it. */
  ghost predicate InPlace(items: seq<Item>, k: nat, start: int, readId: int)
    requires k < |items|
  {
    items[k].readId == readId && items[k].length == |items[k].content| && items[k].offset == start + |Contents(items[..k])|
  }

  /**
   What a range has received: a prefix of the bytes it names, in items that say where in the object they
   are, or all of them, up to an empty item where they end. An item that ends the range comes with all of them.
   */
  ghost predicate Receives(items: seq<Item>, media: Bytes, range: Range, whole: bool) {
    var part, start := Part(media, range.readOffset, range.readLength), |media| - |Tail(media, range.readOffset)|;
    && range.readOffset <= |media| && range.readLength >= 0
    && Contents(items) <= part
    && (forall k :: 0 <= k < |items| ==> InPlace(items, k, start, range.readId))
    && (forall k :: 0 <= k < |items| && items[k].rangeEnd ==> Contents(items) == part)
    && (whole ==>
          && Contents(items) == part && items != [] && items[0].offset == start
          && items[|items| - 1] == Item([], true, items[0].offset + |part|, 0, range.readId))
  }

  lemma FirstOffset(items: seq<Item>, start: int, end: int, readId: int)
    requires Contiguous(items, start, end, readId) && items != []
    ensures items[0].offset == start
  {
  }

  /** Items of a range as they were cut: those of its answer, but the last may be cut short. */
  ghost predicate CutItems(items: seq<Item>, answer: seq<Item>) {
    |items| <= |answer| && forall k :: 0 <= k < |items| ==> items[k] == answer[k] || (k == |items| - 1 && Cut(items[k], answer[k]))
  }

  lemma {:induction false} ItemsAreCut(sent: seq<Event>, events: seq<Event>, index: nat)
    requires CutFrom(sent, events)
    ensures CutItems(ItemsOf(sent, index), ItemsOf(events, index))
    ensures sent <= events ==> ItemsOf(sent, index) <= ItemsOf(events, index)
    decreases |events|
  {
    hide ItemsOf;
    if |sent| < |events| {
      var n := |events| - 1;
      ItemsAreCut(sent, events[..n], index);
      ItemsOfSnoc(events[..n], events[n], index);
      assert events[..n] + [events[n]] == events;
      assert sent <= events ==> sent <= events[..n];
    } else if events != [] {
      var n := |events| - 1;
      ItemsAreCut(sent[..n], events[..n], index);
      ItemsOfSnoc(events[..n], events[n], index);
      ItemsOfSnoc(sent[..n], sent[n], index);
      assert sent[..n] + [sent[n]] == sent && events[..n] + [events[n]] == events;
      assert sent[..n] == events[..n];
      assert ItemsOf(sent[..n], index) == ItemsOf(events[..n], index);
    } else {
      assert sent == [];
    }
  }

  lemma {:induction false} LengthSoFar(items: seq<Item>, start: int, end: int, readId: int, n: nat)
    requires Contiguous(items, start, end, readId) && n <= |items|
    ensures |Contents(items[..n])| == if n == 0 then 0 else items[n - 1].offset + items[n - 1].length - start
  {
    hide Contiguous;
    if n == 0 {
      assert items[..0] == [];
    } else {
      LengthSoFar(items, start, end, readId, n - 1);
      assert items[..n] == items[..n - 1] + [items[n - 1]];
      OneMoreItem(items[..n - 1], items[n - 1]);
      ItemAt(items, start, end, readId, n - 1);
    }
  }

  lemma ItemAt(items: seq<Item>, start: int, end: int, readId: int, k: nat)
    requires Contiguous(items, start, end, readId) && k < |items|
    ensures items[k].length == |items[k].content| && items[k].readId == readId
    ensures items[k].offset == if k == 0 then start else items[k - 1].offset + items[k - 1].length
    ensures items[k].rangeEnd <==> items[k].offset + items[k].length == end
  {
  }

  lemma {:induction false} ContentsPrefix(items: seq<Item>, n: nat)
    requires n <= |items|
    ensures Contents(items[..n]) <= Contents(items)
    decreases |items|
  {
    if n < |items| {
      ContentsPrefix(items[..|items| - 1], n);
      assert items[..|items| - 1][..n] == items[..n];
    } else {
      assert items[..n] == items;
    }
  }

  /** An item that ends its range has not been cut, and everything before it has been sent. */
  lemma EndIsAll(items: seq<Item>, answer: seq<Item>, media: Bytes, range: Range, k: nat)
    requires Satisfiable(media, range) && Answers(answer, media, range) && CutItems(items, answer)
    requires Contents(items) <= Requested(media, range) && k < |items| && items[k].rangeEnd
    ensures Contents(items) == Requested(media, range)
  {
    hide Contents, Contiguous;
    var start, end := Start(media, range.readOffset), End(media, range);
    assert items[k] == answer[k];
    ItemAt(answer, start, end, range.readId, k);
    LengthSoFar(answer, start, end, range.readId, k + 1);
    assert items[..k + 1] == answer[..k + 1];
    ContentsPrefix(items, k + 1);
  }

  lemma CutInPlace(items: seq<Item>, answer: seq<Item>, media: Bytes, range: Range, k: nat)
    requires Satisfiable(media, range) && Answers(answer, media, range) && CutItems(items, answer) && k < |items|
    ensures InPlace(items, k, Start(media, range.readOffset), range.readId)
  {
    hide Contents, Contiguous;
    var start, end := Start(media, range.readOffset), End(media, range);
    ItemAt(answer, start, end, range.readId, k);
    LengthSoFar(answer, start, end, range.readId, k);
    assert items[..k] == answer[..k];
  }

  lemma AnswersReceive(items: seq<Item>, answer: seq<Item>, media: Bytes, range: Range, whole: bool)
    requires Satisfiable(media, range) && Contents(items) <= Requested(media, range)
    requires Answers(answer, media, range) && CutItems(items, answer) && (whole ==> items == answer)
    ensures Receives(items, media, range, whole)
  {
    hide Contents, Requested, End, CutItems, InPlace, Contiguous;
    RangeDecided(media, range);
    forall k | 0 <= k < |items|
      ensures InPlace(items, k, Start(media, range.readOffset), range.readId)
    {
      CutInPlace(items, answer, media, range, k);
    }
    forall k | 0 <= k < |items| && items[k].rangeEnd
      ensures Contents(items) == Requested(media, range)
    {
      EndIsAll(items, answer, media, range, k);
    }
    if whole {
      FirstOffset(items, Start(media, range.readOffset), End(media, range), range.readId);
    }
  }

  /** The events before the refusal, if there is one. */
  lemma Whole(events: seq<Event>, media: Bytes, batches: seq<seq<Range>>) returns (whole: seq<Event>)
    requires var done := Served(media, batches);
             if done == |batches| then Answered(events, media, Flatten(batches), 0)
             else exists w, last :: events == w + last
                    && Answered(w, media, Flatten(batches[..done]), 0) && RefusedBatch(last, media, batches[done])
    ensures Answered(whole, media, Ranges(media, batches), 0) && RefusalIsLast(events) && Total(events) == Total(whole)
    ensures var done := Served(media, batches);
            events == whole + if done == |batches| then []
                              else [OutOfRange(batches[done][FirstRefused(media, batches[done])].readId)]
  {
    hide Answers, Satisfiable;
    var done := Served(media, batches);
    if done == |batches| {
      assert batches[..done] == batches;
      whole := events;
      assert whole + [] == events;
    } else {
      var w, last :| events == w + last && Answered(w, media, Flatten(batches[..done]), 0) && RefusedBatch(last, media, batches[done]);
      whole := w;
      TotalSnoc(w, last[0]);
    }
  }

  lemma TotalSnoc(events: seq<Event>, event: Event)
    ensures Total(events + [event]) == Total(events) + Size(event)
  {
    assert (events + [event])[..|events|] == events;
  }

  /** What is cut from the events with the refusal is cut from those before it. */
  lemma AfterRefusal(sent: seq<Event>, events: seq<Event>, whole: seq<Event>)
    requires CutFrom(sent, events) && whole <= events && |events| <= |whole| + 1
    requires |events| == |whole| + 1 ==> events[|whole|].OutOfRange?
    ensures CutFrom(sent, whole)
  {
    forall k | 0 <= k < |sent|
      ensures k < |whole| && events[k] == whole[k]
    {
      assert events[k].Deliver?;
      assert events[..|whole|] == whole;
    }
  }

  // ---- The bytes of all ranges together ----

  /** The bytes of the first `n` ranges. */
  function Sum(events: seq<Event>, n: nat): nat {
    if n == 0 then 0 else Sum(events, n - 1) + |Contents(ItemsOf(events, n - 1))|
  }

  lemma {:induction false} SumSnoc(events: seq<Event>, event: Event, n: nat)
    requires event.Deliver?
    ensures Sum(events + [event], n) == Sum(events, n) + if event.index < n then Size(event) else 0
  {
    hide Contents, ItemsOf;
    if n > 0 {
      SumSnoc(events, event, n - 1);
      ItemsOfSnoc(events, event, n - 1);
      if event.index == n - 1 {
        OneMoreItem(ItemsOf(events, n - 1), event.item);
      } else {
        assert ItemsOf(events, n - 1) + [] == ItemsOf(events, n - 1);
      }
    }
  }

  lemma {:induction false} SumOfNothing(n: nat)
    ensures Sum([], n) == 0
  {
    if n > 0 {
      SumOfNothing(n - 1);
    }
  }

  lemma {:induction false} TotalIsSum(events: seq<Event>, n: nat)
    requires Delivers(events, 0, n)
    ensures Total(events) == Sum(events, n)
  {
    hide Sum;
    if events == [] {
      SumOfNothing(n);
    } else {
      var init, last := events[..|events| - 1], events[|events| - 1];
      TotalIsSum(init, n);
      SumSnoc(init, last, n);
      assert init + [last] == events;
    }
  }

  lemma {:induction false} SumIsAsked(events: seq<Event>, media: Bytes, ranges: seq<Range>, n: nat)
    requires Answered(events, media, ranges, 0) && n <= |ranges|
    ensures forall i :: 0 <= i < n ==> Satisfiable(media, ranges[i])
    ensures Sum(events, n) == Asked(media, ranges[..n])
  {
    hide Contents, ItemsOf, Satisfiable, Contiguous, Requested;
    if n > 0 {
      SumIsAsked(events, media, ranges, n - 1);
      assert ranges[..n][..n - 1] == ranges[..n - 1];
      assert Answers(ItemsOf(events, 0 + (n - 1)), media, ranges[n - 1]);
    }
  }

  /** Full answers hold as many bytes as the ranges ask for. */
  lemma TotalIsAsked(events: seq<Event>, media: Bytes, ranges: seq<Range>)
    requires Answered(events, media, ranges, 0)
    ensures forall i :: 0 <= i < |ranges| ==> Satisfiable(media, ranges[i])
    ensures Total(events) == Asked(media, ranges)
  {
    hide Total, Sum, Answers, ItemsOf;
    TotalIsSum(events, |ranges|);
    SumIsAsked(events, media, ranges, |ranges|);
    assert ranges[..|ranges|] == ranges;
  }

  lemma {:induction false} TotalPrefix(events: seq<Event>, n: nat)
    requires n <= |events|
    ensures Total(events[..n]) <= Total(events)
    decreases |events|
  {
    if n < |events| {
      TotalPrefix(events[..|events| - 1], n);
      assert events[..|events| - 1][..n] == events[..n];
    } else {
      assert events[..n] == events;
    }
  }

  /** Whatever the budget cuts, each range has received a prefix of the bytes it asked for. */
  lemma EachRangeGetsPrefix(sent: seq<Event>, events: seq<Event>, media: Bytes, ranges: seq<Range>, i: nat)
    requires Answered(events, media, ranges, 0) && CutFrom(sent, events) && i < |ranges|
    ensures Satisfiable(media, ranges[i]) && Contents(ItemsOf(events, i)) == Requested(media, ranges[i])
    ensures Contents(ItemsOf(sent, i)) <= Requested(media, ranges[i])
  {
    CutContents(sent, events, i);
    assert Answers(ItemsOf(events, 0 + i), media, ranges[i]);
  }

  lemma ContentsSnoc(items: seq<Item>, a: seq<Item>, b: seq<Item>)
    requires |a| == |b| <= 1
    requires |a| == 1 ==> a[0].content <= b[0].content
    ensures Contents(items + a) <= Contents(items + b)
  {
    if |a| == 0 {
      assert a == b;
    } else {
      assert (items + a)[..|items|] == items == (items + b)[..|items|];
    }
  }

  lemma ContentsGrow(items: seq<Item>, more: seq<Item>)
    requires |more| <= 1
    ensures Contents(items) <= Contents(items + more)
  {
    if more == [] {
      assert items + more == items;
    } else {
      assert (items + more)[..|items|] == items;
    }
  }

  lemma {:induction false} CutContents(sent: seq<Event>, events: seq<Event>, index: nat)
    requires CutFrom(sent, events)
    ensures Contents(ItemsOf(sent, index)) <= Contents(ItemsOf(events, index))
    decreases |events|
  {
    hide Contents, ItemsOf;
    if |sent| < |events| {
      var init, last := events[..|events| - 1], events[|events| - 1];
      CutContents(sent, init, index);
      ItemsOfSnoc(init, last, index);
      assert init + [last] == events;
      ContentsGrow(ItemsOf(init, index), ItemOf(last, index));
    } else if events != [] {
      var n := |events| - 1;
      assert sent[..n] == events[..n];
      ItemsOfSnoc(events[..n], events[n], index);
      ItemsOfSnoc(sent[..n], sent[n], index);
      assert sent[..n] + [sent[n]] == sent && events[..n] + [events[n]] == events;
      ContentsSnoc(ItemsOf(sent[..n], index), ItemOf(sent[n], index), ItemOf(events[n], index));
    } else {
      assert sent == [];
    }
  }
}
