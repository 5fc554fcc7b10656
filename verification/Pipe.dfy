/**
 From one peer's handlers to the other's: frames batched by a sending loop, written to a stream,
 read in pieces of any size and cut apart again.
 */
module Pipe {
  import opened Wire
  import opened FrameReader
  import opened SendLoops
  import opened Carried

  lemma {:induction false} CompleteIsPrefix(frames: seq<Bytes>, n: nat)
    ensures CompleteBefore(frames, n) <= frames
    ensures n == |Concat(frames)| && (forall i :: 0 <= i < |frames| ==> frames[i] != []) ==>
              CompleteBefore(frames, n) == frames
  {
    if frames != [] && n >= |frames[0]| {
      CompleteIsPrefix(frames[1..], n - |frames[0]|);
    }
  }

  lemma {:induction false} CompleteHasFirst(first: seq<Bytes>, more: seq<Bytes>, n: nat)
    requires n >= |Concat(first)|
    ensures first <= CompleteBefore(first + more, n)
  {
    if first != [] {
      CompleteHasFirst(first[1..], more, n - |first[0]|);
      assert (first + more)[1..] == first[1..] + more;
    }
  }

  /** Of what a handler's buffer encodes, a part of its bytes carries the first items and nothing else. */
  lemma CutStreamCarriesFirst<T>(carries: (Bytes, T) -> bool, buf: Bytes, items: seq<T>, n: nat)
    requires Encodes(carries, buf, items) && n <= |buf|
    ensures
      var (frames, ending) := DecodeStream(buf[..n]);
      && ending == Closed
      && |frames| <= |items| && CarriesAll(carries, frames, items[..|frames|])
      && (n == |buf| ==> |frames| == |items|)
  {
    var frames := DecodeStream(buf).0;
    DecodedAreFrames(buf);
    CutStreamYieldsCompleteFrames(frames, n);
    CompleteIsPrefix(frames, n);
  }

  lemma WrittenIsPrefix(role: Role, s: State, es: seq<Event>)
    requires Inv(s) && CanRun(role, s, es)
    ensures
      var t := Run(role, s, es);
      && Inv(t)
      && t.written <= Everything(s) + AllAppended(es)
      && (t.phase.Solicit? ==> t.written == Everything(s) + AllAppended(es))
  {
    RunConserves(role, s, es);
    var t := Run(role, s, es);
  }

  /**
   At any point of any run, the peer has received a prefix of the frames appended so far, in order, and
   sees no corruption; once the loop is idle again it has received them all.
   */
  lemma DeliveredInOrder(role: Role, es: seq<Event>, frames: seq<Bytes>)
    requires CanRun(role, START, es) && AreFrames(frames) && AllAppended(es) == Concat(frames)
    ensures
      var t := Run(role, START, es);
      var (received, ending) := DecodeStream(t.written);
      && ending == Closed
      && received == CompleteBefore(frames, |t.written|) <= frames
      && (t.phase.Solicit? ==> received == frames)
  {
    var t := Run(role, START, es);
    WrittenIsPrefix(role, START, es);
    assert Everything(START) + AllAppended(es) == Concat(frames);
    assert t.written == Concat(frames)[..|t.written|];
    CutStreamYieldsCompleteFrames(frames, |t.written|);
    CompleteIsPrefix(frames, |t.written|);
  }

  /**
   The same for what the frames mean: when the appended bytes encode a list of requests (or replies),
   the peer has at any point received its first ones, in order; once the loop is idle, all of them.
   */
  lemma DeliveredAsMeant<T>(carries: (Bytes, T) -> bool, role: Role, es: seq<Event>, items: seq<T>)
    requires CanRun(role, START, es) && Encodes(carries, AllAppended(es), items)
    ensures
      var t := Run(role, START, es);
      var (frames, ending) := DecodeStream(t.written);
      && ending == Closed
      && |frames| <= |items| && CarriesAll(carries, frames, items[..|frames|])
      && (t.phase.Solicit? ==> |frames| == |items|)
  {
    WrittenIsPrefix(role, START, es);
    var t := Run(role, START, es);
    assert Everything(START) + AllAppended(es) == AllAppended(es);
    assert t.written == AllAppended(es)[..|t.written|];
    CutStreamCarriesFirst(carries, AllAppended(es), items, |t.written|);
  }

  lemma PrefixDelivers(first: seq<Bytes>, more: seq<Bytes>, written: Bytes)
    requires AreFrames(first) && AreFrames(more)
    requires written <= Concat(first + more) && |Concat(first)| <= |written|
    ensures first <= DecodeStream(written).0 <= first + more
  {
    assert written == Concat(first + more)[..|written|];
    CutStreamYieldsCompleteFrames(first + more, |written|);
    CompleteHasFirst(first, more, |written|);
    CompleteIsPrefix(first + more, |written|);
  }

  /** Whatever is appended in between, three timer or writer events later the frames of before have arrived. */
  lemma DeliveredAfterThreeTurns(role: Role, early: seq<Event>, late: seq<Event>, first: seq<Bytes>, more: seq<Bytes>)
    requires CanRun(role, START, early) && CanRun(role, Run(role, START, early), late) && Turns(late) >= 3
    requires AreFrames(first) && AllAppended(early) == Concat(first)
    requires AreFrames(more) && AllAppended(late) == Concat(more)
    ensures
      var t := Run(role, Run(role, START, early), late);
      first <= DecodeStream(t.written).0 <= first + more
  {
    WrittenSpan(role, early, late);
    ConcatAppend(first, more);
    PrefixDelivers(first, more, Run(role, Run(role, START, early), late).written);
  }

  lemma WrittenSpan(role: Role, early: seq<Event>, late: seq<Event>)
    requires CanRun(role, START, early) && CanRun(role, Run(role, START, early), late) && Turns(late) >= 3
    ensures
      var t := Run(role, Run(role, START, early), late);
      |AllAppended(early)| <= |t.written| && t.written <= AllAppended(early) + AllAppended(late)
  {
    var s := Run(role, START, early);
    RunConserves(role, START, early);
    assert Everything(START) + AllAppended(early) == AllAppended(early);
    WrittenAfterDistance(role, s, late, |AllAppended(early)|);
    WrittenIsPrefix(role, s, late);
  }
}
