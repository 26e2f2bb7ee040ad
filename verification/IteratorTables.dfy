/** The two iterator tables as objects: the host's frames and the storage of one call.
    Each method is proved to take the step of the same name. */
module IteratorTables {
  import opened Bytes
  import opened Iterators

  /** The closing loop of endCall, run to its end. */
  function CloseAll(s: State, c: U64): State
    requires c in s.calls && s.calls[c].Closing?
    decreases |s.calls[c].rest|
  {
    if s.calls[c].rest == [] then DoClose(s, c) else CloseAll(DoClose(s, c), c)
  }

  class Host {
    var latest: U64
    var frames: Frames
    var iters: seq<Iter>
    var closes: seq<nat>

    constructor ()
      ensures Shows(INIT)
    {
      latest, frames, iters, closes := 0, map[], [], [];
    }

    ghost predicate Shows(s: State)
      reads this
    {
      && latest == s.latest && frames == s.frames && |iters| == |closes| == |s.cells|
      && forall h | 0 <= h < |s.cells| :: iters[h] == s.cells[h].it && closes[h] == s.cells[h].closes
    }

    method StartCall(ghost s: State) returns (id: U64)
      requires Shows(s)
      modifies this
      ensures Shows(DoStart(s).0) && DoStart(s).1 == Started(id)
    {
      latest := (latest + 1) % TWO_64;
      id := latest;
    }

    method TakeFrame(c: U64, ghost s: State) returns (removed: seq<Handle>)
      requires Shows(s) && IsRunning(s, c)
      modifies this
      ensures Shows(DoRemove(s, c)) && DoRemove(s, c).calls[c] == Closing(removed)
    {
      removed := if c in frames then frames[c] else [];
      frames := frames - {c};
    }

    method EndCall(c: U64, ghost s: State)
      requires Shows(s) && Inv(s) && IsRunning(s, c)
      modifies this
      ensures Shows(CloseAll(DoRemove(s, c), c))
    {
      var removed := TakeFrame(c, s);
      ghost var now := DoRemove(s, c);
      RemoveOk(s, c);
      for i := 0 to |removed|
        invariant Shows(now) && Inv(now) && c in now.calls && now.calls[c] == Closing(removed[i..])
        invariant CloseAll(now, c) == CloseAll(DoRemove(s, c), c)
      {
        InFrame(now, c);
        CloseOk(now, c);
        Close(removed[i], c, now);
        assert removed[i..][1..] == removed[i + 1..];
        now := DoClose(now, c);
      }
    }

    method Close(h: Handle, c: U64, ghost s: State)
      requires Shows(s) && c in s.calls && s.calls[c].Closing? && s.calls[c].rest != [] && h == s.calls[c].rest[0] < |s.cells|
      modifies this
      ensures Shows(DoClose(s, c))
    {
      closes := closes[h := closes[h] + 1];
    }

    method StoreIterator(c: U64, h: Handle, limit: nat) returns (id: Option<U64>)
      modifies this
      ensures (frames, id) == Store(old(frames), c, h, limit)
      ensures latest == old(latest) && iters == old(iters) && closes == old(closes)
    {
      var index := if c in frames then |frames[c]| else 0;
      if index >= limit { return None; }
      frames := frames[c := (if c in frames then frames[c] else []) + [h]];
      return IndexToId(index);
    }

    method RetrieveIterator(ref: Ref) returns (h: Option<Handle>)
      ensures h == Retrieve(frames, ref)
    {
      var index := IdToIndex(ref.iteratorId);
      if index.None? || ref.callId !in frames { return None; }
      if index.value >= |frames[ref.callId]| { return None; }
      return Some(frames[ref.callId][index.value]);
    }

    /** nextPart: reads the iterator and moves it on. */
    method Move(h: Handle, part: Part, panics: bool, ghost s: State) returns (answer: Answer)
      requires Shows(s) && h < |s.cells|
      modifies this
      ensures answer == Advance(s.cells[h].it, part, panics).1
      ensures Shows(s.(cells := s.cells[h := s.cells[h].(it := Advance(s.cells[h].it, part, panics).0)]))
    {
      var it := iters[h];
      if it.pos >= |it.items| { return End; }
      if panics { return Failed; }
      answer := Read(it, part);
      iters := iters[h := it.(pos := it.pos + 1)];
    }
  }

  /** What a closing call has yet to close are existing iterators. */
  lemma InFrame(s: State, c: U64)
    requires Inv(s) && c in s.calls && s.calls[c].Closing? && s.calls[c].rest != []
    ensures s.calls[c].rest[0] < |s.cells|
  {
    assert CallOk(s, c);
  }

  class GoStorage {
    const host: Host
    const callId: U64
    var iterators: Table

    constructor (host: Host, callId: U64)
      ensures this.host == host && this.callId == callId && iterators == map[]
    {
      this.host, this.callId, iterators := host, callId, map[];
    }

    ghost predicate Shows(s: State)
      reads this, host
    {
      host.Shows(s) && callId in s.calls && s.calls[callId] == Running(iterators)
    }

    /** scan: cScan on the host side, then the new id on this side. */
    method Scan(opening: Opening, ghost s: State) returns (answer: Answer)
      requires Shows(s) && Inv(s)
      modifies this, host
      ensures Shows(DoScan(s, callId, opening).0) && answer == DoScan(s, callId, opening).1
    {
      if opening.Refuses? { return Failed; }
      ScanCases(s, callId, opening.items);
      var h := |host.iters|;
      host.iters, host.closes := host.iters + [Iter(opening.items, 0)], host.closes + [0];
      var id := host.StoreIterator(callId, h, FRAME_LEN_LIMIT);
      if id.None? { return Failed; }
      var nextId := |iterators|;
      iterators := iterators[nextId := Ref(callId, id.value)];
      return ScanId(nextId);
    }

    method Next(k: nat, part: Part, panics: bool, ghost s: State) returns (answer: Answer)
      requires Shows(s) && Inv(s)
      modifies host
      ensures Shows(DoNext(s, callId, k, part, panics).0) && answer == DoNext(s, callId, k, part, panics).1
    {
      Retrievable(s, callId, k);
      if k !in iterators { return NoSuchIterator; }
      if iterators[k].callId == 0 { return Failed; }
      var h := host.RetrieveIterator(iterators[k]);
      if h.None? { return Failed; }
      answer := host.Move(h.value, part, panics, s);
    }
  }

  /** A scan either stores the iterator in the call's frame, or leaves all frames alone. */
  lemma ScanCases(s: State, c: U64, items: seq<Item>)
    requires Inv(s) && IsRunning(s, c)
    ensures var (frames, id) := Store(s.frames, c, |s.cells|, FRAME_LEN_LIMIT);
      (id.Some? <==> |FrameOf(s.frames, c)| < FRAME_LEN_LIMIT) && (id.None? ==> frames == s.frames)
  {
  }
}
