/**
 Batch arithmetic of pkg/utils/peers.go: how many peers are asked at a time, and how many rounds that takes.
 */
module Batches {
  import opened Basics

  const MIN_NR_OF_NODES_IN_BATCH := 3
  const MAX_NR_OF_BATCHES_AFTER_FIRST := 10

  /** The number of nodes to ask in the next batch. */
  function GetNextBatchSize(total: int, remaining: int): (size: int)
    ensures size <= remaining
    ensures remaining > 0 ==> size > 0
    ensures remaining >= MIN_NR_OF_NODES_IN_BATCH ==> size >= MIN_NR_OF_NODES_IN_BATCH
  {
    var wanted :=
      if total == remaining then MIN_NR_OF_NODES_IN_BATCH
      else
        var tenth := QuoTrunc(total - MIN_NR_OF_NODES_IN_BATCH, MAX_NR_OF_BATCHES_AFTER_FIRST);
        if tenth < MIN_NR_OF_NODES_IN_BATCH then MIN_NR_OF_NODES_IN_BATCH else tenth;
    if remaining < wanted then remaining else wanted
  }

  /** Batches still to come when `remaining` of `total` nodes have not been asked. */
  function BatchesLeft(total: int, remaining: int): nat
    decreases Max(remaining, 0)
  {
    if remaining <= 0 then 0
    else 1 + BatchesLeft(total, remaining - GetNextBatchSize(total, remaining))
  }

  /** The size of every batch after the first. */
  function LaterBatchSize(total: int): (q: int)
    ensures q >= MIN_NR_OF_NODES_IN_BATCH
  {
    Max(MIN_NR_OF_NODES_IN_BATCH, QuoTrunc(total - MIN_NR_OF_NODES_IN_BATCH, MAX_NR_OF_BATCHES_AFTER_FIRST))
  }

  function CeilDiv(a: int, b: int): int
    requires b > 0
  {
    (a + b - 1) / b
  }

  /** The batch count without a loop. */
  function NrOfBatchesClosed(total: int): int {
    if total <= 0 then 0
    else if total <= MIN_NR_OF_NODES_IN_BATCH then 1
    else 1 + CeilDiv(total - MIN_NR_OF_NODES_IN_BATCH, LaterBatchSize(total))
  }

  /** The counting loop of GetNrOfBatches returns the closed form. */
  method GetNrOfBatches(total: int) returns (batches: int)
    ensures batches == BatchesLeft(total, total) == NrOfBatchesClosed(total)
  {
    var remaining := total;
    batches := 0;
    while remaining > 0
      invariant batches + BatchesLeft(total, remaining) == BatchesLeft(total, total)
    {
      batches := batches + 1;
      var size := GetNextBatchSize(total, remaining);
      remaining := remaining - size;
    }
    ClosedForm(total);
  }

  lemma CeilDivIs(m: int, q: int, c: int)
    requires q > 0 && q * (c - 1) < m <= q * c
    ensures CeilDiv(m, q) == c
  {
    CeilDivBounds(m, q, c, c);
  }

  lemma MulMonotone(q: int, x: int, y: int)
    requires q > 0 && x <= y
    ensures q * x <= q * y
  {
  }

  lemma CeilDivBounds(m: int, q: int, lo: int, hi: int)
    requires q > 0 && q * (lo - 1) < m <= q * hi
    ensures lo <= CeilDiv(m, q) <= hi
  {
    var c := CeilDiv(m, q);
    CeilDivDef(m, q);
    if c < lo {
      MulMonotone(q, c, lo - 1);
    } else if c > hi {
      MulMonotone(q, hi, c - 1);
    }
  }

  lemma CeilDivDef(m: int, q: int)
    requires q > 0
    ensures q * (CeilDiv(m, q) - 1) < m <= q * CeilDiv(m, q)
  {
    var x := m + q - 1;
    assert x == q * (x / q) + x % q;
  }

  lemma LaterSize(total: int, remaining: int)
    requires remaining < total
    ensures GetNextBatchSize(total, remaining) == Min(remaining, LaterBatchSize(total))
  {
  }

  lemma CeilDivStep(a: int, q: int)
    requires q > 0
    ensures CeilDiv(a, q) == 1 + CeilDiv(a - q, q)
  {
    var c := CeilDiv(a - q, q);
    CeilDivDef(a - q, q);
    assert q * c == q * (c - 1) + q && q * (c + 1) == q * c + q;
    CeilDivIs(a, q, c + 1);
  }

  /** After the first batch every batch but the last has the same size. */
  lemma {:induction false} LaterBatches(total: int, remaining: int)
    requires remaining < total
    ensures BatchesLeft(total, remaining) == if remaining <= 0 then 0 else CeilDiv(remaining, LaterBatchSize(total))
    decreases Max(remaining, 0)
  {
    if remaining <= 0 {
    } else {
      var q := LaterBatchSize(total);
      LaterSize(total, remaining);
      LaterBatches(total, remaining - GetNextBatchSize(total, remaining));
      if remaining <= q {
        CeilDivIs(remaining, q, 1);
      } else {
        CeilDivStep(remaining, q);
      }
    }
  }

  lemma ClosedForm(total: int)
    ensures BatchesLeft(total, total) == NrOfBatchesClosed(total)
  {
    if total > 0 {
      LaterBatches(total, total - GetNextBatchSize(total, total));
    }
  }

  lemma CeilDivMonotone(a: int, b: int, q: int)
    requires a <= b && q > 0
    ensures CeilDiv(a, q) <= CeilDiv(b, q)
  {
    CeilDivDef(a, q);
    CeilDivDef(b, q);
    if CeilDiv(a, q) > CeilDiv(b, q) {
      MulMonotone(q, CeilDiv(b, q), CeilDiv(a, q) - 1);
    }
  }

  /** With 43 nodes or more, there are 10 to 13 batches after the first. */
  lemma LargeCluster(total: int)
    requires total >= 43
    ensures 11 <= BatchesLeft(total, total) <= 14
  {
    ClosedForm(total);
    var m, q := total - 3, LaterBatchSize(total);
    assert q == m / 10 && q >= 4;
    assert m <= 10 * q + 9 <= q * 13;
    CeilDivBounds(m, q, 10, 13);
  }

  lemma SmallCluster(total: int)
    requires 3 < total <= 42
    ensures BatchesLeft(total, total) == 1 + CeilDiv(total - 3, 3)
    ensures 2 <= BatchesLeft(total, total) <= 14
  {
    ClosedForm(total);
    assert LaterBatchSize(total) == 3;
  }

  /** No cluster needs more than 14 batches, although the source's constants suggest 11. */
  lemma AtMostFourteenBatches(total: int)
    ensures BatchesLeft(total, total) <= 14
    ensures total == 42 ==> BatchesLeft(total, total) == 14
    ensures total == 43 ==> BatchesLeft(total, total) == 11
  {
    if total > 42 {
      LargeCluster(total);
      ClosedForm(total);
    } else if total > 3 {
      SmallCluster(total);
    } else {
      ClosedForm(total);
    }
  }

  /** Where the later batches grow by one node, the count drops. */
  lemma CountDrops(workers: int)
    requires workers >= 43 && workers % 10 == 3
    ensures BatchesLeft(workers, workers) == 11 < BatchesLeft(workers - 1, workers - 1)
  {
    ClosedForm(workers);
    ClosedForm(workers - 1);
    var m, q := workers - 3, LaterBatchSize(workers);
    assert m == 10 * q && q >= 4;
    CeilDivIs(m, q, 10);
    assert LaterBatchSize(workers - 1) == q - 1;
    CeilDivDef(m - 1, q - 1);
    var c := CeilDiv(m - 1, q - 1);
    if c <= 10 {
      MulMonotone(q - 1, c, 10);
    }
  }

  lemma SameLaterSize(workers: int)
    requires workers > 4 && !(workers >= 43 && workers % 10 == 3)
    ensures LaterBatchSize(workers - 1) == LaterBatchSize(workers)
  {
  }

  /** Everywhere else one node more never lowers the count. */
  lemma CountGrows(workers: int)
    requires !(workers >= 43 && workers % 10 == 3)
    ensures BatchesLeft(workers - 1, workers - 1) <= BatchesLeft(workers, workers)
  {
    ClosedForm(workers);
    ClosedForm(workers - 1);
    if workers > 4 {
      SameLaterSize(workers);
      var q := LaterBatchSize(workers);
      CeilDivMonotone(workers - 4, workers - 3, q);
    } else if workers == 4 {
      CeilDivDef(workers - 3, LaterBatchSize(workers));
    }
  }

  /**
   A worker lists one peer fewer than there are workers, and the safe-time calculator counts all workers. The worker
   needs more batches than were counted exactly when the number of workers is at least 43 and ends in 3;
   then it needs at most three more, and with 43 workers it does need three more.
   */
  lemma UndercountExactly(workers: int)
    ensures BatchesLeft(workers - 1, workers - 1) > BatchesLeft(workers, workers)
            <==> workers >= 43 && workers % 10 == 3
    ensures BatchesLeft(workers - 1, workers - 1) <= BatchesLeft(workers, workers) + 3
    ensures workers == 43 ==> BatchesLeft(workers - 1, workers - 1) == BatchesLeft(workers, workers) + 3
  {
    AtMostFourteenBatches(workers - 1);
    if workers >= 43 && workers % 10 == 3 {
      CountDrops(workers);
    } else {
      CountGrows(workers);
    }
  }

  /** With fewer than 63 workers later batches have three or four nodes; from 63 on, 12 of them suffice. */
  lemma LaterBatchesOfDrop(workers: int)
    requires workers >= 43 && workers % 10 == 3
    ensures BatchesLeft(workers - 1, workers - 1) == 14 <==> workers < 63
  {
    ClosedForm(workers - 1);
    var m, q := workers - 4, LaterBatchSize(workers - 1);
    assert m == 10 * q + 9 && q >= 3;
    if workers < 63 {
      assert q <= 4;
      CeilDivBounds(m, q, 13, 13);
    } else {
      CeilDivBounds(m, q, 0, 12);
    }
  }

  /** Three batches too few are counted exactly in clusters of 43 and of 53 workers. */
  lemma ThreeTooFewExactly(workers: int)
    ensures BatchesLeft(workers - 1, workers - 1) == BatchesLeft(workers, workers) + 3
            <==> 43 <= workers < 63 && workers % 10 == 3
  {
    UndercountExactly(workers);
    if workers >= 43 && workers % 10 == 3 {
      CountDrops(workers);
      LaterBatchesOfDrop(workers);
    }
  }

  /** One node more takes at most one batch more. */
  lemma AtMostOneMore(workers: int)
    ensures BatchesLeft(workers, workers) <= BatchesLeft(workers - 1, workers - 1) + 1
  {
    ClosedForm(workers);
    ClosedForm(workers - 1);
    if workers >= 43 && workers % 10 == 3 {
      CountDrops(workers);
    } else if workers > 4 {
      SameLaterSize(workers);
      var q := LaterBatchSize(workers);
      CeilDivStep(workers - 4 + q, q);
      CeilDivMonotone(workers - 3, workers - 4 + q, q);
    } else if workers == 4 {
      CeilDivIs(workers - 3, LaterBatchSize(workers), 1);
    }
  }
}
