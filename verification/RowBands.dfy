/** The row split of the render worker pool: worker `i` of `workers` owns the
    rows from `i * rows / workers` up to `(i + 1) * rows / workers`. */
module RowBands {
  import opened NatArithmetic

  const INT_MAX := 0x7fff_ffff

  /** First row of band `index`; the product must fit a C int. */
  function Band(index: nat, rows: nat, workers: nat): nat
    requires workers > 0
  {
    index * rows / workers
  }

  /** The first band starts at row 0 and the last one ends at `rows`. */
  lemma BandEnds(rows: nat, workers: nat)
    requires workers > 0
    ensures Band(0, rows, workers) == 0
    ensures Band(workers, rows, workers) == rows
  {
    QuotientUnique(workers * rows, workers, rows);
  }

  /** Band sizes differ by at most one: each is `rows / workers` or one more. */
  lemma BandSize(index: nat, rows: nat, workers: nat)
    requires index < workers
    ensures rows / workers <= Band(index + 1, rows, workers) - Band(index, rows, workers) <= rows / workers + 1
  {
    var lo, hi, q := Band(index, rows, workers), Band(index + 1, rows, workers), rows / workers;
    DivisionBounds(index * rows, workers);
    DivisionBounds((index + 1) * rows, workers);
    DivisionBounds(rows, workers);
    assert (index + 1) * rows == index * rows + rows;
    assert (lo + q) * workers == lo * workers + q * workers;
    LessByFactor(lo + q, hi + 1, workers);
    assert (lo + q + 2) * workers == (lo + 1) * workers + (q + 1) * workers;
    LessByFactor(hi, lo + q + 2, workers);
  }

  lemma BandMonotone(i: nat, j: nat, rows: nat, workers: nat)
    requires i <= j <= workers && workers > 0
    ensures Band(i, rows, workers) <= Band(j, rows, workers)
  {
    ProductMonotone(i, j, rows);
    QuotientMonotone(i * rows, j * rows, workers);
  }

  lemma BandWithin(i: nat, rows: nat, workers: nat)
    requires i < workers
    ensures 0 <= Band(i, rows, workers) <= Band(i + 1, rows, workers) <= rows
  {
    BandEnds(rows, workers);
    BandMonotone(i, i + 1, rows, workers);
    BandMonotone(i + 1, workers, rows, workers);
  }

  predicate InBand(row: nat, index: nat, rows: nat, workers: nat)
    requires workers > 0
  {
    Band(index, rows, workers) <= row < Band(index + 1, rows, workers)
  }

  /** No row belongs to two bands. */
  lemma BandsDisjoint(row: nat, i: nat, j: nat, rows: nat, workers: nat)
    requires i < workers && j < workers
    requires InBand(row, i, rows, workers) && InBand(row, j, rows, workers)
    ensures i == j
  {
    if i < j {
      BandMonotone(i + 1, j, rows, workers);
    } else if j < i {
      BandMonotone(j + 1, i, rows, workers);
    }
  }

  /** The worker that owns `row`, searched downward from `limit`. */
  ghost function OwnerBelow(row: nat, limit: nat, rows: nat, workers: nat): (owner: nat)
    requires 0 < limit <= workers && row < Band(limit, rows, workers)
    ensures owner < limit && InBand(row, owner, rows, workers)
  {
    if Band(limit - 1, rows, workers) <= row then limit - 1
    else
      BandEnds(rows, workers);
      OwnerBelow(row, limit - 1, rows, workers)
  }

  /** Every row has an owner; with `BandsDisjoint` the bands partition the rows. */
  ghost function Owner(row: nat, rows: nat, workers: nat): (owner: nat)
    requires workers > 0 && row < rows
    ensures owner < workers && InBand(row, owner, rows, workers)
  {
    BandEnds(rows, workers);
    OwnerBelow(row, workers, rows, workers)
  }
}
