/**
 * The data model shared by every part of the dashboard: the raw JSON shape of
 * the three datasets and the unified product record they are normalized into.
 */
module Records {
  import opened Wrappers

  /** The four outcomes a record can carry; never free text. */
  datatype Status = Pass | Fail | Pending | NotHealthy

  /** One raw JSON entry `{name, link?, source?}`. */
  datatype Entry = Entry(name: string, link: Option<string>, source: Option<string>)

  /**
   * The value stored under one category: an object whose status buckets
   * (`pass`, `fail`, `expired`, `not_healthy`) may each be absent.
   */
  datatype Buckets = Buckets(
    pass: Option<seq<Entry>>,
    fail: Option<seq<Entry>>,
    expired: Option<seq<Entry>>,
    notHealthy: Option<seq<Entry>>)

  /** A whole dataset, as `Object.entries` enumerates it: category name and its buckets. */
  type Dataset = seq<(string, Buckets)>

  /** The unified product record. `link` stays absent when the entry had none and no fallback applies. */
  datatype Record = Record(
    name: string,
    source: string,
    category: string,
    status: Status,
    link: Option<string>)

  /** The three datasets, in the order they are joined. */
  datatype Origin = Trustified | Unbox | OpenData

  /** JavaScript truthiness of an optional string: present and non-empty. */
  predicate Truthy(v: Option<string>) {
    v.Some? && v.value != ""
  }

  /** `v || fallback` for an optional string. */
  function OrElse(v: Option<string>, fallback: string): (r: string)
    ensures Truthy(v) ==> r == v.value
    ensures !Truthy(v) ==> r == fallback
  {
    if Truthy(v) then v.value else fallback
  }

  /** `records.filter(p => p.status === status).length`. */
  function Count(records: seq<Record>, status: Status): (n: nat)
    ensures n <= |records|
  {
    if records == [] then 0
    else (if records[0].status == status then 1 else 0) + Count(records[1..], status)
  }

  /** Counting distributes over concatenation. */
  lemma {:induction false} CountConcat(a: seq<Record>, b: seq<Record>, status: Status)
    ensures Count(a + b, status) == Count(a, status) + Count(b, status)
  {
    if a != [] {
      assert (a + b)[1..] == a[1..] + b;
      CountConcat(a[1..], b, status);
    } else {
      assert a + b == b;
    }
  }

  /** Every record has exactly one of the four statuses, so the four counts add up to the length. */
  lemma {:induction false} CountsPartition(records: seq<Record>)
    ensures |records| == Count(records, Pass) + Count(records, Fail) + Count(records, Pending) + Count(records, NotHealthy)
  {
    if records != [] {
      CountsPartition(records[1..]);
    }
  }

  /** A status that is counted zero times occurs nowhere. */
  lemma {:induction false} CountZero(records: seq<Record>, status: Status)
    requires Count(records, status) == 0
    ensures forall r :: r in records ==> r.status != status
  {
    if records != [] {
      CountZero(records[1..], status);
    }
  }
}
