/** What contracts read through their iterators: the items of a scan one after another,
    whatever other calls and other iterators do in between. */
module IteratorReads {
  import opened Bytes
  import opened Iterators

  /** Step i is a successful scan of call c over these items, and the answer is id k. */
  ghost predicate Scanned(steps: seq<Step>, i: nat, c: U64, k: nat, items: seq<Item>) {
    i < |steps| && steps[i] == Scan(c, Opens(items)) && Do(Run(steps[..i]), steps[i]).1 == ScanId(k)
  }

  /** How often call c has advanced id k, without a panic, in the steps after step i. */
  function Advances(steps: seq<Step>, i: nat, c: U64, k: nat): nat
    requires i < |steps|
    decreases |steps|
  {
    if |steps| == i + 1 then 0
    else
      var last := steps[|steps| - 1];
      Advances(steps[..|steps| - 1], i, c, k)
      + if last.Next? && last.call == c && last.id == k && !last.panics then 1 else 0
  }

  /** The n-th item as asked for; past the end there is nothing, and a panic of the store's gas
      meter while reading is an error. */
  function ReadAt(items: seq<Item>, n: nat, part: Part, panics: bool): Answer {
    if n >= |items| then End
    else if panics then Failed
    else match part
      case Both => Pair(items[n])
      case KeyOnly => Half(items[n].0)
      case ValueOnly => Half(items[n].1)
  }

  function Min(a: nat, b: nat): nat { if a <= b then a else b }

  /** In the call's own list, id k stands for these items, read as far as it was advanced. */
  ghost predicate Stands(solo: Solo, k: nat, items: seq<Item>, n: nat) {
    solo.Alone? ==> k < |solo.list| && solo.list[k] == Iter(items, Min(n, |items|))
  }

  lemma AfterScan(steps: seq<Step>, i: nat, c: U64, k: nat, items: seq<Item>)
    requires Starts(steps) < TWO_64 && |steps| == i + 1 && Scanned(steps, i, c, k, items)
    ensures Stands(SoloRun(steps, c), k, items, 0) && c <= Starts(steps)
  {
    var front := steps[..i];
    ReachableOk(front);
    TablesRefineOneList(front, c, steps[i]);
  }

  /** One more step, of this call or of another one. */
  lemma StandsAfter(solo: Solo, step: Step, c: U64, k: nat, items: seq<Item>, n: nat)
    requires Stands(solo, k, items, n) && !step.Start? && step.call == c
    ensures Stands(SoloDo(solo, step).0, k, items, n + if step.Next? && step.id == k && !step.panics then 1 else 0)
  {
  }

  lemma {:induction false} StartsGrow(steps: seq<Step>, i: nat)
    requires i <= |steps|
    ensures Starts(steps[..i]) <= Starts(steps)
    decreases |steps|
  {
    if i < |steps| {
      assert steps[..|steps| - 1][..i] == steps[..i];
      StartsGrow(steps[..|steps| - 1], i);
    } else {
      assert steps[..i] == steps;
    }
  }

  lemma {:induction false} StandsThroughout(steps: seq<Step>, i: nat, c: U64, k: nat, items: seq<Item>)
    requires Starts(steps) < TWO_64 && Scanned(steps, i, c, k, items)
    ensures Stands(SoloRun(steps, c), k, items, Advances(steps, i, c, k)) && c <= Starts(steps)
    decreases |steps|
  {
    if |steps| == i + 1 {
      AfterScan(steps, i, c, k, items);
    } else {
      var front, last := steps[..|steps| - 1], steps[|steps| - 1];
      assert front[..i] == steps[..i];
      StartsGrow(steps, |steps| - 1);
      StandsThroughout(front, i, c, k, items);
      if !last.Start? && last.call == c {
        StandsAfter(SoloRun(front, c), last, c, k, items, Advances(front, i, c, k));
      }
    }
  }

  /** While a call runs, in any interleaving with other calls: the n-th advance of the iterator
      that a scan gave id k answers with the n-th item of that scan, its key or its value as
      asked, and with the end from the last item on. A panicking advance does not move it. */
  lemma ReadsInOrder(steps: seq<Step>, i: nat, c: U64, k: nat, items: seq<Item>, part: Part, panics: bool)
    requires Starts(steps) < TWO_64 && Scanned(steps, i, c, k, items) && IsRunning(Run(steps), c)
    ensures Do(Run(steps), Next(c, k, part, panics)).1 == ReadAt(items, Advances(steps, i, c, k), part, panics)
  {
    ReachableOk(steps);
    StandsThroughout(steps, i, c, k, items);
    TablesRefineOneList(steps, c, Next(c, k, part, panics));
  }

  /** Ids are handed out in order: a scan of a running call is answered with the number of
      iterators it has stored so far, unless the frame is full or the store refuses. */
  lemma ScansInOrder(steps: seq<Step>, c: U64, opening: Opening)
    requires Starts(steps) < TWO_64 && IsRunning(Run(steps), c)
    ensures c in Run(steps).owned && Do(Run(steps), Scan(c, opening)).1 ==
      if opening.Refuses? || |Run(steps).owned[c]| >= 32768 then Failed else ScanId(|Run(steps).owned[c]|)
  {
    ReachableOk(steps);
    TablesRefineOneList(steps, c, Scan(c, opening));
    ScanRefines(Run(steps), c, opening);
  }

  /** Reading a scan to its end, one item at a time, gives exactly its items. */
  lemma {:induction false} ReadsAll(steps: seq<Step>, i: nat, c: U64, k: nat, items: seq<Item>, n: nat)
    requires Starts(steps) < TWO_64 && Scanned(steps, i, c, k, items) && |steps| == i + 1 && IsRunning(Run(steps), c) && n <= |items|
    ensures var read := seq(n, _ => Next(c, k, Both, false));
      IsRunning(Run(steps + read), c)
      && Do(Run(steps + read), Next(c, k, Both, false)).1 == if n < |items| then Pair(items[n]) else End
    decreases n
  {
    var read: seq<Step> := seq(n, _ => Next(c, k, Both, false));
    RepeatedNext(steps, c, k, n);
    AdvancesRepeated(steps, i, c, k, n);
    var all := steps + read;
    assert all[..i] == steps[..i] && all[i] == steps[i];
    ReadsInOrder(all, i, c, k, items, Both, false);
  }

  lemma {:induction false} RepeatedNext(steps: seq<Step>, c: U64, k: nat, n: nat)
    requires IsRunning(Run(steps), c)
    ensures var all := steps + seq(n, _ => Next(c, k, Both, false)); IsRunning(Run(all), c) && Starts(all) == Starts(steps)
    decreases n
  {
    var all := steps + seq(n, _ => Next(c, k, Both, false));
    if n == 0 {
      assert all == steps;
    } else {
      RepeatedNext(steps, c, k, n - 1);
      assert all[..|all| - 1] == steps + seq(n - 1, _ => Next(c, k, Both, false));
    }
  }

  lemma {:induction false} AdvancesRepeated(steps: seq<Step>, i: nat, c: U64, k: nat, n: nat)
    requires |steps| == i + 1
    ensures Advances(steps + seq(n, _ => Next(c, k, Both, false)), i, c, k) == n
    decreases n
  {
    var all := steps + seq(n, _ => Next(c, k, Both, false));
    if n == 0 {
      assert all == steps;
    } else {
      AdvancesRepeated(steps, i, c, k, n - 1);
      assert all[..|all| - 1] == steps + seq(n - 1, _ => Next(c, k, Both, false));
    }
  }
}
