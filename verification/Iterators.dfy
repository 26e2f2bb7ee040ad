/** The iterator tables of concurrent contract calls: frames of iterators on the host
    side, and inside each call a second table of dense ids that refers to them. Every
    section under a mutex is one step, and calls interleave freely between steps. */
module Iterators {
  import opened Bytes

  const FRAME_LEN_LIMIT := 32768
  const MAX_INT_32 := 2147483647

  // ---- ids and indexes ----

  function IdToIndex(id: U64): Option<nat> {
    if id < 1 || id > MAX_INT_32 then None else Some(id - 1)
  }

  function IndexToId(index: int): Option<U64> {
    if index < 0 || index > MAX_INT_32 then None else Some(index + 1)
  }

  /** Ids lead back to their index, except the one for the largest index that gets an id. */
  lemma IdRoundTrip(index: int, id: U64)
    ensures IndexToId(index).Some? ==>
      (IdToIndex(IndexToId(index).value) == Some(index) <==> index != MAX_INT_32)
    ensures IdToIndex(id).Some? ==> IndexToId(IdToIndex(id).value) == Some(id)
  {
  }

  // ---- state ----

  type Item = (Bytes, Bytes)
  type Handle = nat

  /** A store iterator: the items it yields, and how far it is. */
  datatype Iter = Iter(items: seq<Item>, pos: nat)

  /** An iterator object, how often it was closed, and where it was stored. */
  datatype Cell = Cell(it: Iter, closes: nat, home: Option<(U64, nat)>)

  /** IteratorReference */
  datatype Ref = Ref(callId: U64, iteratorId: U64)

  type Frames = map<U64, seq<Handle>>
  type Table = map<nat, Ref>

  /** A contract call: running with its own id table, closing what it stored, or over. */
  datatype Phase = Running(table: Table) | Closing(rest: seq<Handle>) | Ended

  datatype State = State(latest: U64, frames: Frames, cells: seq<Cell>, calls: map<U64, Phase>, owned: map<U64, seq<Handle>>)

  const INIT := State(0, map[], [], map[], map[])

  // ---- the sections under the frames mutex ----

  function FrameOf(frames: Frames, c: U64): seq<Handle> {
    if c in frames then frames[c] else []
  }

  /** storeIterator: the new frames, and the id or None for an error. */
  function Store(frames: Frames, c: U64, h: Handle, limit: nat): (Frames, Option<U64>) {
    var index := |FrameOf(frames, c)|;
    if index >= limit then (frames, None)
    else (frames[c := FrameOf(frames, c) + [h]], IndexToId(index))
  }

  function Retrieve(frames: Frames, ref: Ref): Option<Handle> {
    match IdToIndex(ref.iteratorId)
    case None => None
    case Some(index) =>
      if ref.callId !in frames || index >= |frames[ref.callId]| then None else Some(frames[ref.callId][index])
  }

  // ---- steps ----

  datatype Part = Both | KeyOnly | ValueOnly

  /** What the store answers to a scan: an iterator, or a panic or a bad order argument. */
  datatype Opening = Opens(items: seq<Item>) | Refuses

  datatype Step =
    | Start
    | Scan(call: U64, opening: Opening)
    | Next(call: U64, id: nat, part: Part, panics: bool)
    | RemoveFrame(call: U64)
    | CloseOne(call: U64)

  datatype Answer = Silent | Started(call: U64) | ScanId(id: nat) | Failed | NoSuchIterator | End | Pair(item: Item) | Half(bytes: Bytes)

  predicate IsRunning(s: State, c: U64) { c in s.calls && s.calls[c].Running? }

  /** startCall */
  function DoStart(s: State): (State, Answer) {
    var id := (s.latest + 1) % TWO_64;
    (s.(latest := id, calls := s.calls[id := Running(map[])], owned := s.owned[id := []]), Started(id))
  }

  /** cScan and GoStorage::scan */
  function DoScan(s: State, c: U64, opening: Opening): (State, Answer)
    requires IsRunning(s, c) && c in s.owned
  {
    if opening.Refuses? then (s, Failed)
    else
      var h, n, table := |s.cells|, |FrameOf(s.frames, c)|, s.calls[c].table;
      var (frames, id) := Store(s.frames, c, h, FRAME_LEN_LIMIT);
      var stored := frames != s.frames;
      var s1 := s.(
        frames := frames,
        cells := s.cells + [Cell(Iter(opening.items, 0), 0, if stored then Some((c, n)) else None)],
        owned := if stored then s.owned[c := s.owned[c] + [h]] else s.owned);
      if id.None? then (s1, Failed)
      else (s1.(calls := s.calls[c := Running(table[|table| := Ref(c, id.value)])]), ScanId(|table|))
  }

  function Read(it: Iter, part: Part): Answer
    requires it.pos < |it.items|
  {
    match part
    case Both => Pair(it.items[it.pos])
    case KeyOnly => Half(it.items[it.pos].0)
    case ValueOnly => Half(it.items[it.pos].1)
  }

  /** One advance of an iterator; a panic of the store's gas meter comes before the move. */
  function Advance(it: Iter, part: Part, panics: bool): (Iter, Answer) {
    if it.pos >= |it.items| then (it, End)
    else if panics then (it, Failed)
    else (it.(pos := it.pos + 1), Read(it, part))
  }

  /** GoStorage::next, next_key and next_value, through cNext and nextPart */
  function DoNext(s: State, c: U64, id: nat, part: Part, panics: bool): (State, Answer)
    requires IsRunning(s, c)
  {
    var table := s.calls[c].table;
    if id !in table then (s, NoSuchIterator)
    else match Retrieve(s.frames, table[id])
      case None => (s, Failed)
      case Some(h) =>
        if table[id].callId == 0 || h >= |s.cells| then (s, Failed)
        else
          var (it, answer) := Advance(s.cells[h].it, part, panics);
          (s.(cells := s.cells[h := s.cells[h].(it := it)]), answer)
  }

  /** removeFrame, at the start of endCall */
  function DoRemove(s: State, c: U64): State
    requires IsRunning(s, c)
  {
    s.(calls := s.calls[c := Closing(FrameOf(s.frames, c))], frames := s.frames - {c})
  }

  /** One turn of the loop in endCall, outside the mutex */
  function DoClose(s: State, c: U64): State
    requires c in s.calls && s.calls[c].Closing?
  {
    var rest := s.calls[c].rest;
    if rest == [] then s.(calls := s.calls[c := Ended])
    else
      var h := rest[0];
      s.(calls := s.calls[c := Closing(rest[1..])],
         cells := if h < |s.cells| then s.cells[h := s.cells[h].(closes := s.cells[h].closes + 1)] else s.cells)
  }

  /** Any call may take any step its phase allows; other steps do nothing. */
  function Do(s: State, step: Step): (State, Answer) {
    match step
    case Start => DoStart(s)
    case Scan(c, opening) => if IsRunning(s, c) && c in s.owned then DoScan(s, c, opening) else (s, Silent)
    case Next(c, id, part, panics) => if IsRunning(s, c) then DoNext(s, c, id, part, panics) else (s, Silent)
    case RemoveFrame(c) => if IsRunning(s, c) then (DoRemove(s, c), Silent) else (s, Silent)
    case CloseOne(c) => if c in s.calls && s.calls[c].Closing? then (DoClose(s, c), Silent) else (s, Silent)
  }

  function Run(steps: seq<Step>): State
    decreases |steps|
  {
    if steps == [] then INIT else Do(Run(steps[..|steps| - 1]), steps[|steps| - 1]).0
  }

  function Starts(steps: seq<Step>): nat
    decreases |steps|
  {
    if steps == [] then 0 else Starts(steps[..|steps| - 1]) + if steps[|steps| - 1].Start? then 1 else 0
  }

  // ---- the invariant ----

  /** The iterators a call has stored are its own, in order. */
  ghost predicate Homed(s: State, c: U64)
    requires c in s.owned
  {
    forall i | 0 <= i < |s.owned[c]| :: s.owned[c][i] < |s.cells| && s.cells[s.owned[c][i]].home == Some((c, i))
  }

  /** Of the iterators a call stored, exactly the first n are closed, once each. */
  ghost predicate ClosedUpTo(s: State, c: U64, n: nat)
    requires c in s.owned && Homed(s, c)
  {
    forall i | 0 <= i < |s.owned[c]| :: s.cells[s.owned[c][i]].closes == if i < n then 1 else 0
  }

  /** Ids 0 to n-1, the k-th one referring to place k of this call's frame. */
  ghost predicate Dense(table: Table, c: U64, n: nat) {
    |table| == n && (forall k: nat :: k in table <==> k < n) && forall k: nat | k in table :: table[k].callId == c && table[k].iteratorId == k + 1
  }

  ghost predicate CallOk(s: State, c: U64)
    requires c in s.calls && c in s.owned
  {
    var o := s.owned[c];
    Homed(s, c) && |o| <= FRAME_LEN_LIMIT &&
    match s.calls[c]
    case Running(table) => FrameOf(s.frames, c) == o && Dense(table, c, |o|) && ClosedUpTo(s, c, 0)
    case Closing(rest) => c !in s.frames && |rest| <= |o| && rest == o[|o| - |rest|..] && ClosedUpTo(s, c, |o| - |rest|)
    case Ended => c !in s.frames && ClosedUpTo(s, c, |o|)
  }

  ghost predicate Inv(s: State) {
    && s.calls.Keys == s.owned.Keys && s.frames.Keys <= s.calls.Keys
    && (forall c: U64 :: c in s.calls <==> 1 <= c <= s.latest)
    && (forall c | c in s.calls :: CallOk(s, c))
    && (forall h | 0 <= h < |s.cells| && s.cells[h].home.None? :: s.cells[h].closes == 0)
  }

  /** A step that changes neither a call's entries nor the iterators it stored keeps it intact. */
  lemma OthersOk(s: State, s': State, c: U64)
    requires c in s.calls && c in s.owned && CallOk(s, c)
    requires c in s'.calls && c in s'.owned && s'.calls[c] == s.calls[c] && s'.owned[c] == s.owned[c]
    requires FrameOf(s'.frames, c) == FrameOf(s.frames, c) && (c in s'.frames <==> c in s.frames)
    requires |s.cells| <= |s'.cells|
    requires forall h | 0 <= h < |s.cells| && s.cells[h].home.Some? && s.cells[h].home.value.0 == c ::
      s'.cells[h].closes == s.cells[h].closes && s'.cells[h].home == s.cells[h].home
    ensures CallOk(s', c)
  {
  }

  lemma StartOk(s: State)
    requires Inv(s) && s.latest + 1 < TWO_64
    ensures Inv(DoStart(s).0)
    ensures DoStart(s).1 == Started(s.latest + 1) && s.latest + 1 !in s.calls
  {
    StartNumbered(s);
    NewCallOk(s);
    StartOthersOk(s);
  }

  lemma StartNumbered(s: State)
    requires (forall c: U64 :: c in s.calls <==> 1 <= c <= s.latest) && s.latest + 1 < TWO_64
    ensures var s' := DoStart(s).0; s'.latest == s.latest + 1 && forall c: U64 :: c in s'.calls <==> 1 <= c <= s'.latest
  {
  }

  lemma StartOthersOk(s: State)
    requires Inv(s) && s.latest + 1 < TWO_64
    ensures forall c | c in s.calls :: c in DoStart(s).0.calls && c in DoStart(s).0.owned && CallOk(DoStart(s).0, c)
  {
    forall c | c in s.calls ensures CallOk(DoStart(s).0, c) { OthersOk(s, DoStart(s).0, c); }
  }

  lemma NewCallOk(s: State)
    requires Inv(s) && s.latest + 1 < TWO_64
    ensures CallOk(DoStart(s).0, s.latest + 1) && s.latest + 1 !in s.calls
  {
  }

  lemma Stored(s: State, c: U64, items: seq<Item>)
    requires Inv(s) && IsRunning(s, c) && |s.owned[c]| < FRAME_LEN_LIMIT
    ensures var (s', answer) := DoScan(s, c, Opens(items)); var n, h := |s.owned[c]|, |s.cells|;
      && answer == ScanId(n)
      && s' == s.(
        frames := s.frames[c := s.owned[c] + [h]],
        cells := s.cells + [Cell(Iter(items, 0), 0, Some((c, n)))],
        owned := s.owned[c := s.owned[c] + [h]],
        calls := s.calls[c := Running(s.calls[c].table[n := Ref(c, n + 1)])])
  {
    assert CallOk(s, c);
    var frames := Store(s.frames, c, |s.cells|, FRAME_LEN_LIMIT).0;
    assert FrameOf(frames, c) != FrameOf(s.frames, c);
  }

  lemma NewDense(table: Table, c: U64, n: nat)
    requires Dense(table, c, n) && n < FRAME_LEN_LIMIT
    ensures Dense(table[n := Ref(c, n + 1)], c, n + 1)
  {
  }

  lemma AppendedHomed(s: State, s': State, c: U64, it: Iter)
    requires c in s.owned && Homed(s, c) && ClosedUpTo(s, c, 0)
    requires c in s'.owned && s'.owned[c] == s.owned[c] + [|s.cells|] && s'.cells == s.cells + [Cell(it, 0, Some((c, |s.owned[c]|)))]
    ensures Homed(s', c) && ClosedUpTo(s', c, 0)
  {
    forall i | 0 <= i < |s'.owned[c]|
      ensures s'.owned[c][i] < |s'.cells| && s'.cells[s'.owned[c][i]].home == Some((c, i)) && s'.cells[s'.owned[c][i]].closes == 0
    {
      if i < |s.owned[c]| { assert s.cells[s.owned[c][i]].home == Some((c, i)); }
    }
  }

  lemma StoredOk(s: State, c: U64, items: seq<Item>)
    requires Inv(s) && IsRunning(s, c) && |s.owned[c]| < FRAME_LEN_LIMIT
    ensures CallOk(DoScan(s, c, Opens(items)).0, c)
  {
    Stored(s, c, items);
    assert CallOk(s, c);
    NewDense(s.calls[c].table, c, |s.owned[c]|);
    AppendedHomed(s, DoScan(s, c, Opens(items)).0, c, Iter(items, 0));
  }

  lemma ScanOk(s: State, c: U64, opening: Opening)
    requires Inv(s) && IsRunning(s, c)
    ensures Inv(DoScan(s, c, opening).0)
  {
    assert CallOk(s, c);
    if opening.Opens? {
      if |s.owned[c]| < FRAME_LEN_LIMIT {
        StoredKeepsInv(s, c, opening.items);
      } else {
        var s' := DoScan(s, c, opening).0;
        forall d | d in s'.calls ensures CallOk(s', d) { OthersOk(s, s', d); }
      }
    }
  }

  lemma StoredKeepsInv(s: State, c: U64, items: seq<Item>)
    requires Inv(s) && IsRunning(s, c) && |s.owned[c]| < FRAME_LEN_LIMIT
    ensures Inv(DoScan(s, c, Opens(items)).0)
  {
    var s' := DoScan(s, c, Opens(items)).0;
    Stored(s, c, items);
    StoredOk(s, c, items);
    forall d | d in s.calls && d != c ensures CallOk(s', d) { OthersOk(s, s', d); }
  }

  /** A running call finds its k-th iterator under id k, and none under other ids. */
  lemma Retrievable(s: State, c: U64, id: nat)
    requires Inv(s) && IsRunning(s, c)
    ensures var table := s.calls[c].table;
      && (id in table <==> id < |s.owned[c]|)
      && (id in table ==> c != 0 && table[id].callId == c && Retrieve(s.frames, table[id]) == Some(s.owned[c][id]))
      && (id in table ==> s.owned[c][id] < |s.cells|)
  {
  }

  lemma NextOk(s: State, c: U64, id: nat, part: Part, panics: bool)
    requires Inv(s) && IsRunning(s, c)
    ensures Inv(DoNext(s, c, id, part, panics).0)
  {
    var s' := DoNext(s, c, id, part, panics).0;
    forall d | d in s'.calls ensures CallOk(s', d) { OthersOk(s, s', d); }
  }

  lemma RemoveOk(s: State, c: U64)
    requires Inv(s) && IsRunning(s, c)
    ensures Inv(DoRemove(s, c))
  {
    RemovedOk(s, c);
    forall d | d in s.calls && d != c ensures d in DoRemove(s, c).calls && CallOk(DoRemove(s, c), d) { RemovedOthersOk(s, c, d); }
  }

  lemma RemovedOthersOk(s: State, c: U64, d: U64)
    requires Inv(s) && IsRunning(s, c) && d in s.calls && d != c
    ensures d in DoRemove(s, c).calls && d in DoRemove(s, c).owned && CallOk(DoRemove(s, c), d)
  {
    OthersOk(s, DoRemove(s, c), d);
  }

  lemma RemovedOk(s: State, c: U64)
    requires Inv(s) && IsRunning(s, c)
    ensures CallOk(DoRemove(s, c), c)
  {
  }

  /** The next iterator to close is the first one of the call that is not closed yet. */
  lemma NextToClose(s: State, c: U64)
    requires c in s.calls && c in s.owned && CallOk(s, c) && s.calls[c].Closing? && s.calls[c].rest != []
    ensures var h, n := s.calls[c].rest[0], |s.owned[c]| - |s.calls[c].rest|;
      h < |s.cells| && h == s.owned[c][n] && s.cells[h].home == Some((c, n))
  {
  }

  lemma ClosedOneMore(s: State, c: U64)
    requires c in s.calls && c in s.owned && CallOk(s, c) && s.calls[c].Closing?
    ensures CallOk(DoClose(s, c), c)
  {
    if s.calls[c].rest != [] { NextToClose(s, c); }
  }

  lemma CloseOthersOk(s: State, c: U64, d: U64)
    requires c in s.calls && c in s.owned && CallOk(s, c) && s.calls[c].Closing?
    requires d in s.calls && d in s.owned && CallOk(s, d) && d != c
    ensures CallOk(DoClose(s, c), d)
  {
    if s.calls[c].rest != [] { NextToClose(s, c); }
    OthersOk(s, DoClose(s, c), d);
  }

  /** Only an iterator with a home is closed. */
  lemma CloseSparesHomeless(s: State, c: U64, h: Handle)
    requires c in s.calls && c in s.owned && CallOk(s, c) && s.calls[c].Closing? && h < |s.cells|
    ensures var s' := DoClose(s, c);
      |s'.cells| == |s.cells| && s'.cells[h].home == s.cells[h].home && (s.cells[h].home.None? ==> s'.cells[h].closes == s.cells[h].closes)
  {
    if s.calls[c].rest != [] { NextToClose(s, c); }
  }

  lemma CloseOk(s: State, c: U64)
    requires Inv(s) && c in s.calls && s.calls[c].Closing?
    ensures Inv(DoClose(s, c))
  {
    var s' := DoClose(s, c);
    assert CallOk(s, c);
    ClosedOneMore(s, c);
    forall d | d in s'.calls ensures CallOk(s', d) {
      if d != c { CloseOthersOk(s, c, d); }
    }
    forall h | 0 <= h < |s'.cells| && s'.cells[h].home.None? ensures s'.cells[h].closes == 0 { CloseSparesHomeless(s, c, h); }
  }

  lemma StepCounts(s: State, step: Step)
    requires step.Start? ==> s.latest + 1 < TWO_64
    ensures Do(s, step).0.latest == s.latest + if step.Start? then 1 else 0
  {
  }

  lemma StepOk(s: State, step: Step)
    requires Inv(s) && (step.Start? ==> s.latest + 1 < TWO_64)
    ensures Inv(Do(s, step).0) && Do(s, step).0.latest == s.latest + if step.Start? then 1 else 0
  {
    StepCounts(s, step);
    match step
    case Start => StartOk(s);
    case Scan(c, opening) => if IsRunning(s, c) { ScanOk(s, c, opening); }
    case Next(c, id, part, panics) => if IsRunning(s, c) { NextOk(s, c, id, part, panics); }
    case RemoveFrame(c) => if IsRunning(s, c) { RemoveOk(s, c); }
    case CloseOne(c) => if c in s.calls && s.calls[c].Closing? { CloseOk(s, c); }
  }

  /** Every interleaving with fewer than 2^64 calls keeps all tables in order. */
  lemma {:induction false} ReachableOk(steps: seq<Step>)
    requires Starts(steps) < TWO_64
    ensures Inv(Run(steps)) && Run(steps).latest == Starts(steps)
    decreases |steps|
  {
    if steps != [] {
      var front, step := steps[..|steps| - 1], steps[|steps| - 1];
      ReachableOk(front);
      StepOk(Run(front), step);
      assert Run(steps) == Do(Run(front), step).0;
    }
  }

  // ---- what the invariant means ----

  ghost predicate GetsFreshId(s: State) {
    var id := DoStart(s).0.latest;
    DoStart(s).1 == Started(id) && id != 0 && id !in s.calls
  }

  lemma FreshIdWhileCounting(s: State)
    requires Inv(s)
    ensures GetsFreshId(s) <==> s.latest + 1 < TWO_64
  {
  }

  /** The next call gets an id that is not zero and that no call had before, exactly as
      long as it is not the 2^64-th. */
  lemma CallIdsFresh(steps: seq<Step>)
    requires Starts(steps) < TWO_64
    ensures GetsFreshId(Run(steps)) <==> Starts(steps) + 1 < TWO_64
  {
    ReachableOk(steps);
    FreshIdWhileCounting(Run(steps));
  }

  /** The steps of other calls leave a call's phase, frame and iterators alone. */
  lemma OthersUntouched(s: State, step: Step, d: U64)
    requires Inv(s) && d in s.calls && (step.Start? ==> s.latest + 1 < TWO_64)
    requires !step.Start? ==> step.call != d
    ensures var s' := Do(s, step).0;
      && d in s'.calls && d in s'.owned && s'.calls[d] == s.calls[d] && s'.owned[d] == s.owned[d]
      && FrameOf(s'.frames, d) == FrameOf(s.frames, d)
      && forall i | 0 <= i < |s.owned[d]| :: s.owned[d][i] < |s'.cells| && s'.cells[s.owned[d][i]] == s.cells[s.owned[d][i]]
  {
    EntriesKept(s, step, d);
    assert CallOk(s, d);
    var s' := Do(s, step).0;
    forall i | 0 <= i < |s.owned[d]| ensures s.owned[d][i] < |s'.cells| && s'.cells[s.owned[d][i]] == s.cells[s.owned[d][i]] {
      assert s.cells[s.owned[d][i]].home == Some((d, i));
      CellKept(s, step, s.owned[d][i], d);
    }
  }

  lemma EntriesKept(s: State, step: Step, d: U64)
    requires d in s.calls && d in s.owned && (step.Start? ==> s.latest + 1 < TWO_64 && s.latest + 1 != d)
    requires !step.Start? ==> step.call != d
    ensures var s' := Do(s, step).0;
      && d in s'.calls && d in s'.owned && s'.calls[d] == s.calls[d] && s'.owned[d] == s.owned[d]
      && FrameOf(s'.frames, d) == FrameOf(s.frames, d)
  {
    match step
    case Scan(c, opening) => if IsRunning(s, c) && c in s.owned { ScanKeepsEntries(s, c, opening, d); }
    case _ =>
  }

  lemma ScanKeepsEntries(s: State, c: U64, opening: Opening, d: U64)
    requires IsRunning(s, c) && c in s.owned && d in s.calls && d in s.owned && d != c
    ensures var s' := DoScan(s, c, opening).0;
      && d in s'.calls && d in s'.owned && s'.calls[d] == s.calls[d] && s'.owned[d] == s.owned[d]
      && FrameOf(s'.frames, d) == FrameOf(s.frames, d)
  {
  }

  lemma CellKept(s: State, step: Step, h: Handle, d: U64)
    requires Inv(s) && h < |s.cells| && s.cells[h].home.Some? && s.cells[h].home.value.0 == d
    requires !step.Start? ==> step.call != d
    ensures |Do(s, step).0.cells| > h && Do(s, step).0.cells[h] == s.cells[h]
  {
    match step
    case Next(c, id, part, panics) =>
      if IsRunning(s, c) {
        Retrievable(s, c, id);
        assert CallOk(s, c);
      }
    case CloseOne(c) =>
      if c in s.calls && s.calls[c].Closing? {
        assert CallOk(s, c);
        var rest, o := s.calls[c].rest, s.owned[c];
        if rest != [] { assert rest[0] == o[|o| - |rest|] && s.cells[rest[0]].home == Some((c, |o| - |rest|)); }
      }
    case _ =>
  }

  /** In any interleaving: frames stay within the limit, nothing a running call stored
      is closed, and everything an ended call stored was closed exactly once. An
      iterator that did not fit into its frame is never closed. */
  lemma ClosedExactlyOnce(steps: seq<Step>, c: U64, i: nat)
    requires Starts(steps) < TWO_64 && c in Run(steps).calls && c in Run(steps).owned && i < |Run(steps).owned[c]|
    ensures var s := Run(steps); var h := s.owned[c][i];
      && |FrameOf(s.frames, c)| <= FRAME_LEN_LIMIT && h < |s.cells|
      && (s.calls[c].Ended? ==> s.cells[h].closes == 1)
      && (s.calls[c].Running? ==> s.cells[h].closes == 0 && FrameOf(s.frames, c) == s.owned[c])
      && s.cells[h].closes <= 1
      && forall g | 0 <= g < |s.cells| && s.cells[g].home.None? :: s.cells[g].closes == 0
  {
    ReachableOk(steps);
    var s := Run(steps);
    assert CallOk(s, c);
    assert Homed(s, c);
  }

  // ---- the two tables together are one list of iterators per call ----

  /** One call on its own, with nothing but the list of iterators it opened. */
  datatype Solo = NotStarted | Alone(list: seq<Iter>) | Over

  function SoloDo(solo: Solo, step: Step): (Solo, Answer)
    requires !step.Start?
  {
    if !solo.Alone? then (solo, Silent)
    else match step
      case Scan(_, Opens(items)) =>
        if |solo.list| < FRAME_LEN_LIMIT then (Alone(solo.list + [Iter(items, 0)]), ScanId(|solo.list|)) else (solo, Failed)
      case Scan(_, Refuses) => (solo, Failed)
      case Next(_, k, part, panics) =>
        if k >= |solo.list| then (solo, NoSuchIterator)
        else
          var (it, answer) := Advance(solo.list[k], part, panics);
          (Alone(solo.list[k := it]), answer)
      case RemoveFrame(_) => (Over, Silent)
      case _ => (solo, Silent)
  }

  /** What call d would be if the other calls were not there. */
  function SoloRun(steps: seq<Step>, d: U64): Solo
    decreases |steps|
  {
    if steps == [] then NotStarted
    else
      var front, step := steps[..|steps| - 1], steps[|steps| - 1];
      if step.Start? then (if Starts(front) + 1 == d then Alone([]) else SoloRun(front, d))
      else if step.call == d then SoloDo(SoloRun(front, d), step).0
      else SoloRun(front, d)
  }

  function ListOf(s: State, hs: seq<Handle>): seq<Iter> {
    seq(|hs|, i requires 0 <= i < |hs| => if hs[i] < |s.cells| then s.cells[hs[i]].it else Iter([], 0))
  }

  /** Call d as the shared tables show it. */
  function View(s: State, d: U64): Solo {
    if d !in s.calls || d !in s.owned then NotStarted
    else if s.calls[d].Running? then Alone(ListOf(s, s.owned[d]))
    else Over
  }

  lemma ListAppended(s: State, s': State, hs: seq<Handle>, cell: Cell)
    requires s'.cells == s.cells + [cell] && forall i | 0 <= i < |hs| :: hs[i] < |s.cells|
    ensures ListOf(s', hs) == ListOf(s, hs) && ListOf(s', hs + [|s.cells|]) == ListOf(s, hs) + [cell.it]
  {
  }

  lemma ScanRefines(s: State, c: U64, opening: Opening)
    requires Inv(s) && IsRunning(s, c)
    ensures var (s', answer) := DoScan(s, c, opening); (View(s', c), answer) == SoloDo(View(s, c), Scan(c, opening))
  {
    assert CallOk(s, c);
    assert Homed(s, c);
    if opening.Opens? {
      var s' := DoScan(s, c, opening).0;
      ListAppended(s, s', s.owned[c], s'.cells[|s.cells|]);
      if |s.owned[c]| < FRAME_LEN_LIMIT { Stored(s, c, opening.items); }
    }
  }

  lemma NextRefines(s: State, c: U64, k: nat, part: Part, panics: bool)
    requires Inv(s) && IsRunning(s, c)
    ensures var (s', answer) := DoNext(s, c, k, part, panics);
      (View(s', c), answer) == SoloDo(View(s, c), Next(c, k, part, panics))
  {
    Retrievable(s, c, k);
    assert CallOk(s, c);
    if k < |s.owned[c]| {
      var s', o := DoNext(s, c, k, part, panics).0, s.owned[c];
      forall i | 0 <= i < |o| && i != k ensures o[i] != o[k] {
        assert s.cells[o[i]].home == Some((c, i)) && s.cells[o[k]].home == Some((c, k));
      }
      assert Homed(s, c);
      assert ListOf(s', o) == ListOf(s, o)[k := Advance(s.cells[o[k]].it, part, panics).0];
    }
  }

  /** One step of call c, seen by call c. */
  lemma OwnStepRefines(s: State, step: Step)
    requires Inv(s) && !step.Start?
    ensures (View(Do(s, step).0, step.call), Do(s, step).1) == SoloDo(View(s, step.call), step)
  {
    match step
    case Scan(c, opening) => if IsRunning(s, c) { ScanRefines(s, c, opening); }
    case Next(c, k, part, panics) => if IsRunning(s, c) { NextRefines(s, c, k, part, panics); }
    case _ =>
  }

  lemma SameView(s: State, s': State, d: U64)
    requires d in s.calls && d in s.owned && d in s'.calls && d in s'.owned && s'.calls[d] == s.calls[d] && s'.owned[d] == s.owned[d]
    requires forall i | 0 <= i < |s.owned[d]| ::
      s.owned[d][i] < |s.cells| && s.owned[d][i] < |s'.cells| && s'.cells[s.owned[d][i]] == s.cells[s.owned[d][i]]
    ensures View(s', d) == View(s, d)
  {
    assert ListOf(s', s.owned[d]) == ListOf(s, s.owned[d]);
  }

  lemma StaysNotStarted(s: State, step: Step, d: U64)
    requires d !in s.calls && (step.Start? ==> (s.latest + 1) % TWO_64 != d) && (!step.Start? ==> step.call != d)
    ensures d !in Do(s, step).0.calls
  {
  }

  lemma OtherStepRefines(s: State, step: Step, d: U64)
    requires Inv(s) && (step.Start? ==> s.latest + 1 < TWO_64 && s.latest + 1 != d) && (!step.Start? ==> step.call != d)
    ensures View(Do(s, step).0, d) == View(s, d)
  {
    if d in s.calls {
      assert CallOk(s, d);
      OthersUntouched(s, step, d);
      SameView(s, Do(s, step).0, d);
    } else {
      StaysNotStarted(s, step, d);
    }
  }

  /** For every interleaving and every call: the shared tables show exactly the list the
      call would have on its own, and answer its next step exactly as that list would.
      So ids are 0 to n-1 in order of successful scans, id k always advances the k-th
      iterator, and a failed scan adds nothing. */
  lemma {:induction false} TablesRefineOneList(steps: seq<Step>, d: U64, step: Step)
    requires Starts(steps) < TWO_64 && !step.Start? && step.call == d
    ensures View(Run(steps), d) == SoloRun(steps, d)
    ensures Do(Run(steps), step).1 == SoloDo(SoloRun(steps, d), step).1
    decreases |steps|
  {
    ReachableOk(steps);
    if steps != [] {
      var front, last := steps[..|steps| - 1], steps[|steps| - 1];
      TablesRefineOneList(front, d, step);
      ReachableOk(front);
      var s := Run(front);
      if last.Start? {
        if s.latest + 1 != d { OtherStepRefines(s, last, d); } else { assert ListOf(Run(steps), []) == []; }
      } else if last.call == d {
        OwnStepRefines(s, last);
      } else {
        OtherStepRefines(s, last, d);
      }
    }
    OwnStepRefines(Run(steps), step);
  }
}
