/** `updateStats`: the per-status counts shown above the chart. */
module Stats {
  import opened Records

  /** The five numbers the dashboard displays: total and one per status. */
  datatype Counts = Counts(total: nat, safe: nat, fail: nat, notHealthy: nat, pending: nat)

  /** The count a chart segment of `status` is drawn from. */
  function CountOf(counts: Counts, status: Status): nat {
    match status
    case Pass => counts.safe
    case Fail => counts.fail
    case NotHealthy => counts.notHealthy
    case Pending => counts.pending
  }

  /**
   * The counts of `updateStats` over the whole record collection. Every record
   * has one of the four statuses, so the four counts add up to the total.
   */
  function ComputeCounts(records: seq<Record>): (counts: Counts)
    ensures counts.total == |records|
    ensures counts.total == counts.safe + counts.fail + counts.notHealthy + counts.pending
    ensures forall status :: CountOf(counts, status) == Count(records, status)
  {
    CountsPartition(records);
    Counts(|records|, Count(records, Pass), Count(records, Fail), Count(records, NotHealthy), Count(records, Pending))
  }
}
