/** The batch iterator over a sampler's order. */
module BatchLoader {
  import opened Options
  import opened DeficitSchedule
  import opened StratifiedSampler

  datatype LoaderEvent = BatchStart(index: nat, size: nat) | BatchEnd(index: nat, size: nat)

  /** Cuts an order into batches of `b`; a short last batch is kept unless `dropLast`. */
  function Batches(order: seq<nat>, b: nat, dropLast: bool): seq<seq<nat>>
    requires b >= 1
    decreases |order|
  {
    if |order| == 0 || (dropLast && |order| < b) then []
    else if |order| <= b then [order]
    else [order[..b]] + Batches(order[b..], b, dropLast)
  }

  /** One start and one end per batch, in order, from batch number `from` on. */
  function Announced(batches: seq<seq<nat>>, from: nat): seq<LoaderEvent> {
    if |batches| == 0 then []
    else [BatchStart(from, |batches[0]|), BatchEnd(from, |batches[0]|)] + Announced(batches[1..], from + 1)
  }

  class LoaderIter {
    const batchSize: nat
    const dropLast: bool
    var remaining: seq<nat>
    var batchIndex: nat
    var pending: Option<(nat, nat)>
    var log: seq<LoaderEvent>

    constructor (order: seq<nat>, batchSize: nat, dropLast: bool)
      requires batchSize >= 1
      ensures this.batchSize == batchSize && this.dropLast == dropLast
      ensures remaining == order && batchIndex == 0 && pending == None && log == []
    {
      this.batchSize, this.dropLast := batchSize, dropLast;
      remaining, batchIndex, pending, log := order, 0, None, [];
    }

    /** The log once the batch in flight is closed. */
    ghost function Closed(): seq<LoaderEvent>
      reads this
    {
      if pending.Some? then log + [BatchEnd(pending.value.0, pending.value.1)] else log
    }

    method FlushPending()
      modifies this`pending, this`log
      ensures pending == None && log == old(Closed())
    {
      if pending.Some? {
        log := log + [BatchEnd(pending.value.0, pending.value.1)];
        pending := None;
      }
    }

    method Next() returns (batch: Option<seq<nat>>)
      requires batchSize >= 1
      modifies this
      ensures |remaining| <= old(|remaining|)
      ensures var todo := Batches(old(remaining), batchSize, dropLast);
        if |todo| == 0 then batch == None && pending == None && log == old(Closed())
        else
          && batch == Some(todo[0]) && Batches(remaining, batchSize, dropLast) == todo[1..]
          && |remaining| < old(|remaining|)
          && batchIndex == old(batchIndex) + 1 && pending == Some((old(batchIndex), |todo[0]|))
          && log == old(Closed()) + [BatchStart(old(batchIndex), |todo[0]|)]
    {
      FlushPending();
      var chunk: seq<nat> := [];
      ghost var order := remaining;
      for i := 0 to batchSize
        invariant chunk + remaining == order
        invariant |chunk| == i || (|chunk| < i && remaining == [])
        invariant pending == None && log == old(Closed()) && batchIndex == old(batchIndex)
      {
        if |remaining| > 0 {
          chunk, remaining := chunk + [remaining[0]], remaining[1..];
        } else {
          break;
        }
      }
      if |chunk| == 0 {
        return None;
      }
      if dropLast && |chunk| < batchSize {
        return None;
      }
      assert chunk == order[..|chunk|] && remaining == order[|chunk|..];
      assert |chunk| == if |order| < batchSize then |order| else batchSize;
      assert |order| <= batchSize ==> chunk == order && remaining == [];
      log := log + [BatchStart(batchIndex, |chunk|)];
      pending := Some((batchIndex, |chunk|));
      batchIndex := batchIndex + 1;
      return Some(chunk);
    }
  }

  lemma {:induction false} AnnouncedSnoc(batches: seq<seq<nat>>, batch: seq<nat>, from: nat)
    ensures Announced(batches + [batch], from)
         == Announced(batches, from) + [BatchStart(from + |batches|, |batch|), BatchEnd(from + |batches|, |batch|)]
  {
    if |batches| == 0 {
      assert batches + [batch] == [batch];
      assert Announced([batch][1..], from + 1) == [];
    } else {
      assert (batches + [batch])[1..] == batches[1..] + [batch];
      AnnouncedSnoc(batches[1..], batch, from + 1);
    }
  }

  /** `async for batch in loader`: all batches in order, each announced once and closed once,
      before the next one starts. */
  method Drain(order: seq<nat>, batchSize: nat, dropLast: bool) returns (batches: seq<seq<nat>>, log: seq<LoaderEvent>)
    requires batchSize >= 1
    ensures batches == Batches(order, batchSize, dropLast)
    ensures log == Announced(batches, 0)
  {
    var it := new LoaderIter(order, batchSize, dropLast);
    batches := [];
    var batch := it.Next();
    while batch.Some?
      invariant fresh(it) && it.batchSize == batchSize && it.dropLast == dropLast
      invariant match batch
        case Some(b) =>
          && batches + [b] + Batches(it.remaining, batchSize, dropLast) == Batches(order, batchSize, dropLast)
          && it.batchIndex == |batches| + 1 && it.pending == Some((|batches|, |b|))
          && it.log == Announced(batches, 0) + [BatchStart(|batches|, |b|)]
        case None =>
          && batches == Batches(order, batchSize, dropLast) && it.log == Announced(batches, 0)
      decreases |it.remaining| + (if batch.Some? then 1 else 0)
    {
      AnnouncedSnoc(batches, batch.value, 0);
      batches := batches + [batch.value];
      assert it.Closed() == Announced(batches, 0);
      batch := it.Next();
    }
    log := it.log;
  }

  // ---- What the batches contain --------------------------------------------------

  function Min(a: int, b: int): int {
    if a < b then a else b
  }

  /** Batch `i` is the slice of the order from `i * b` on. */
  lemma {:induction false} BatchSlice(order: seq<nat>, b: nat, dropLast: bool, i: nat)
    requires b >= 1 && i < |Batches(order, b, dropLast)|
    ensures i * b < |order|
    ensures Batches(order, b, dropLast)[i] == order[i * b..Min(i * b + b, |order|)]
    decreases i
  {
    if i > 0 {
      var lo := (i - 1) * b;
      BatchSlice(order[b..], b, dropLast, i - 1);
      assert i * b == lo + b;
      SliceOfRest(order, b, lo, Min(lo + b, |order| - b));
    }
  }

  lemma SliceOfRest(order: seq<nat>, b: nat, lo: nat, hi: nat)
    requires b <= |order| && lo <= hi <= |order| - b
    ensures order[b..][lo..hi] == order[lo + b..hi + b]
  {
  }

  function Joined(batches: seq<seq<nat>>): seq<nat> {
    if |batches| == 0 then [] else batches[0] + Joined(batches[1..])
  }

  /** Nothing is lost and nothing repeats: the batches put together are the order, or its longest
      prefix of whole batches; and there are as many as the loader's length says. */
  lemma {:induction false} BatchesCover(order: seq<nat>, b: nat, dropLast: bool)
    requires b >= 1
    ensures Joined(Batches(order, b, dropLast)) == order[..if dropLast then |order| - |order| % b else |order|]
    ensures |Batches(order, b, dropLast)| == if dropLast then |order| / b else (|order| + b - 1) / b
    decreases |order|
  {
    var n := |order|;
    if n == 0 || (dropLast && n < b) {
      Quotient(n, b);
    } else if n <= b {
      Quotient(n, b);
      assert [order][1..] == [];
    } else {
      BatchesCover(order[b..], b, dropLast);
      QuotientStep(n, b);
      var batches := Batches(order, b, dropLast);
      assert batches[1..] == Batches(order[b..], b, dropLast);
      var rest := if dropLast then (n - b) - (n - b) % b else n - b;
      assert order[..b] + order[b..][..rest] == order[..b + rest];
    }
  }

  lemma Quotient(n: nat, b: nat)
    requires b >= 1 && n <= b
    ensures n < b ==> n / b == 0 && n % b == n
    ensures n == b ==> n / b == 1 && n % b == 0
    ensures (n + b - 1) / b == if n == 0 then 0 else 1
  {
  }

  lemma Euclid(n: int, b: int, q: int, r: int)
    requires b >= 1 && n == q * b + r && 0 <= r < b
    ensures n / b == q && n % b == r
  {
    var d := n / b - q;
    assert d * b == (n / b) * b - q * b;
    assert d * b == r - n % b;
    if d >= 1 {
      Monotone(b, 1, d);
    } else if d <= -1 {
      Monotone(b, d, -1);
    }
  }

  lemma QuotientStep(n: nat, b: nat)
    requires b >= 1 && n > b
    ensures n / b == (n - b) / b + 1 && n % b == (n - b) % b
    ensures (n + b - 1) / b == (n - b + b - 1) / b + 1
  {
    Euclid(n, b, (n - b) / b + 1, (n - b) % b);
    Euclid(n + b - 1, b, (n - 1) / b + 1, (n - 1) % b);
  }

  /** STRATIFIED BATCHES. Over a stratified order every batch, full or last, holds each class
      within `m` of its fair share of the batch. */
  lemma EveryBatchIsFair<Key>(keys: seq<Key>, classes: seq<Key>, order: seq<nat>, b: nat, dropLast: bool, i: nat,
                              k: nat)
    requires b >= 1 && Stratified(keys, classes, order) && i < |Batches(order, b, dropLast)| && k < |classes|
    ensures var batch := Batches(order, b, dropLast)[i];
      && (forall j :: 0 <= j < |batch| ==> batch[j] < |keys|)
      && Fair(|keys|, |classes|, Occurs(keys, classes[k]), |batch|, Carriers(keys, batch, classes[k]))
  {
    BatchSlice(order, b, dropLast, i);
  }
}
