/**
 * The three normalizers (`normalizeTrustified`, `normalizeUnbox`,
 * `normalizeOpenData`) and the specification they are proved against.
 */
module Normalize {
  import opened Wrappers
  import opened Strings
  import opened Records

  /** Fallback link of Trustified pass and expired entries. */
  const TrustifiedUrl: string := "https://www.trustified.in/passandfail"

  /** Unbox category cleanup: `_` to space, first `supplements` removed, trimmed. */
  function CleanCategory(category: string): (r: string)
    ensures '_' !in r
  {
    var spaced := ReplaceChar(category, '_', ' ');
    assert '_' !in spaced;
    var removed := RemoveFirst(spaced, "supplements");
    RemoveFirstSpec(spaced, "supplements");
    assert multiset(removed)['_'] == 0;
    TrimMultiset(removed);
    assert multiset(Trim(removed))['_'] == 0;
    Trim(removed)
  }

  /** A cleaned category never starts or ends in whitespace. */
  lemma CleanCategoryTrimmed(category: string)
    ensures var r := CleanCategory(category);
            r == [] || (!IsJsWhitespace(r[0]) && !IsJsWhitespace(r[|r| - 1]))
  {
    TrimEnds(RemoveFirst(ReplaceChar(category, '_', ' '), "supplements"));
  }

  /** The category string every record of one raw category carries. */
  function CategoryLabel(origin: Origin, category: string): string {
    if origin == Unbox then CleanCategory(category) else category
  }

  /** The record one normalizer pushes for entry `e` of a bucket that maps to `status`. */
  function MakeRecord(origin: Origin, category: string, status: Status, e: Entry): (r: Record)
    ensures r.name == e.name && r.category == category && r.status == status
    ensures Truthy(e.link) ==> r.link == e.link
    ensures origin != Trustified || status == Fail ==> r.link == e.link
    ensures origin == Trustified && status != Fail ==> Truthy(r.link)
    ensures origin == Trustified && status != Fail && !Truthy(e.link) ==> r.link == Some(TrustifiedUrl)
    ensures origin != OpenData ==> r.source == if origin == Trustified then "Trustified" else "UnboxHealth"
    ensures origin == OpenData ==> r.source != "" && (Truthy(e.source) ==> r.source == e.source.value)
    ensures origin == OpenData && !Truthy(e.source) ==> r.source == "Open Data"
  {
    match origin
    case Trustified =>
      var link := if status == Fail then e.link else Some(OrElse(e.link, TrustifiedUrl));
      Record(e.name, "Trustified", category, status, link)
    case Unbox =>
      Record(e.name, "UnboxHealth", category, status, e.link)
    case OpenData =>
      Record(e.name, OrElse(e.source, "Open Data"), category, status, e.link)
  }

  /** The records of one bucket's entries, in entry order. */
  function MapEntries(origin: Origin, category: string, status: Status, es: seq<Entry>): (r: seq<Record>)
    ensures |r| == |es|
    ensures forall k :: 0 <= k < |es| ==> r[k] == MakeRecord(origin, category, status, es[k])
  {
    if es == [] then []
    else MapEntries(origin, category, status, es[..|es| - 1]) + [MakeRecord(origin, category, status, es[|es| - 1])]
  }

  /** The records of a bucket that may be absent: an absent bucket contributes nothing. */
  function BucketRecords(origin: Origin, category: string, status: Status, bucket: Option<seq<Entry>>): seq<Record> {
    match bucket
    case None => []
    case Some(es) => MapEntries(origin, category, status, es)
  }

  /** The raw bucket whose entries become records of `status` in `origin`'s normalizer. */
  function BucketOf(origin: Origin, lists: Buckets, status: Status): Option<seq<Entry>> {
    match (origin, status)
    case (Unbox, Pass) => lists.pass
    case (Unbox, NotHealthy) => lists.notHealthy
    case (Unbox, Fail) => lists.fail
    case (Unbox, Pending) => None
    case (_, Pass) => lists.pass
    case (_, Fail) => lists.fail
    case (_, Pending) => lists.expired
    case (_, NotHealthy) => None
  }

  /**
   * Everything one category contributes, bucket after bucket: pass, not_healthy,
   * fail for Unbox; pass, fail, expired for the other two.
   */
  function CategoryRecords(origin: Origin, category: string, lists: Buckets): seq<Record> {
    var shown := CategoryLabel(origin, category);
    if origin == Unbox then
      BucketRecords(origin, shown, Pass, lists.pass) +
      BucketRecords(origin, shown, NotHealthy, lists.notHealthy) +
      BucketRecords(origin, shown, Fail, lists.fail)
    else
      BucketRecords(origin, shown, Pass, lists.pass) +
      BucketRecords(origin, shown, Fail, lists.fail) +
      BucketRecords(origin, shown, Pending, lists.expired)
  }

  /** The output of `origin`'s normalizer: category after category, in enumeration order. */
  function Normalized(origin: Origin, data: Dataset): seq<Record> {
    if data == [] then []
    else Normalized(origin, data[..|data| - 1]) + CategoryRecords(origin, data[|data| - 1].0, data[|data| - 1].1)
  }

  /** One more category extends the normalized output by that category's records. */
  lemma NormalizedStep(origin: Origin, data: Dataset, i: nat)
    requires i < |data|
    ensures Normalized(origin, data[..i + 1]) == Normalized(origin, data[..i]) + CategoryRecords(origin, data[i].0, data[i].1)
  {
    assert data[..i + 1][..i] == data[..i];
  }

  /** Pushing three buckets one after the other appends their concatenation. */
  lemma PushThree(done: seq<Record>, a: seq<Record>, b: seq<Record>, c: seq<Record>)
    ensures done + a + b + c == done + (a + b + c)
  {
  }

  /** Mapping one more entry appends its record. */
  lemma MapEntriesStep(origin: Origin, category: string, status: Status, es: seq<Entry>, k: nat)
    requires k < |es|
    ensures MapEntries(origin, category, status, es[..k + 1]) ==
            MapEntries(origin, category, status, es[..k]) + [MakeRecord(origin, category, status, es[k])]
  {
    assert es[..k + 1][..k] == es[..k];
    assert es[..k + 1][k] == es[k];
  }

  /** `products.push(...)` for every entry of one bucket, when the bucket is present. */
  method PushBucket(products: seq<Record>, origin: Origin, category: string, status: Status, bucket: Option<seq<Entry>>)
    returns (out: seq<Record>)
    ensures out == products + BucketRecords(origin, category, status, bucket)
  {
    out := products;
    if bucket.Some? {
      var es := bucket.value;
      var k := 0;
      while k < |es|
        invariant 0 <= k <= |es|
        invariant out == products + MapEntries(origin, category, status, es[..k])
      {
        MapEntriesStep(origin, category, status, es, k);
        out := out + [MakeRecord(origin, category, status, es[k])];
        k := k + 1;
      }
      assert es[..k] == es;
    }
  }

  /** `normalizeTrustified`: buckets pass, fail, expired; expired becomes pending. */
  method NormalizeTrustified(data: Dataset) returns (products: seq<Record>)
    ensures products == Normalized(Trustified, data)
  {
    products := [];
    for i := 0 to |data|
      invariant products == Normalized(Trustified, data[..i])
    {
      var (category, lists) := data[i];
      ghost var done := products;
      products := PushBucket(products, Trustified, category, Pass, lists.pass);
      products := PushBucket(products, Trustified, category, Fail, lists.fail);
      products := PushBucket(products, Trustified, category, Pending, lists.expired);
      PushThree(done, BucketRecords(Trustified, category, Pass, lists.pass), BucketRecords(Trustified, category, Fail, lists.fail), BucketRecords(Trustified, category, Pending, lists.expired));
      NormalizedStep(Trustified, data, i);
    }
    assert data[..|data|] == data;
  }

  /** `normalizeUnbox`: the category is cleaned once; buckets pass, not_healthy, fail. */
  method NormalizeUnbox(data: Dataset) returns (products: seq<Record>)
    ensures products == Normalized(Unbox, data)
  {
    products := [];
    for i := 0 to |data|
      invariant products == Normalized(Unbox, data[..i])
    {
      var (category, lists) := data[i];
      var cleanCategory := CleanCategory(category);
      ghost var done := products;
      products := PushBucket(products, Unbox, cleanCategory, Pass, lists.pass);
      products := PushBucket(products, Unbox, cleanCategory, NotHealthy, lists.notHealthy);
      products := PushBucket(products, Unbox, cleanCategory, Fail, lists.fail);
      PushThree(done, BucketRecords(Unbox, cleanCategory, Pass, lists.pass), BucketRecords(Unbox, cleanCategory, NotHealthy, lists.notHealthy), BucketRecords(Unbox, cleanCategory, Fail, lists.fail));
      NormalizedStep(Unbox, data, i);
    }
    assert data[..|data|] == data;
  }

  /** `normalizeOpenData`: buckets pass, fail, expired; `source` per entry, else "Open Data". */
  method NormalizeOpenData(data: Dataset) returns (products: seq<Record>)
    ensures products == Normalized(OpenData, data)
  {
    products := [];
    for i := 0 to |data|
      invariant products == Normalized(OpenData, data[..i])
    {
      var (category, lists) := data[i];
      ghost var done := products;
      products := PushBucket(products, OpenData, category, Pass, lists.pass);
      products := PushBucket(products, OpenData, category, Fail, lists.fail);
      products := PushBucket(products, OpenData, category, Pending, lists.expired);
      PushThree(done, BucketRecords(OpenData, category, Pass, lists.pass), BucketRecords(OpenData, category, Fail, lists.fail), BucketRecords(OpenData, category, Pending, lists.expired));
      NormalizedStep(OpenData, data, i);
    }
    assert data[..|data|] == data;
  }

  // ---------------------------------------------------------------------------
  // Properties of the normalizers' output
  // ---------------------------------------------------------------------------

  /** Number of entries in a bucket that may be absent. */
  function PresentLen(bucket: Option<seq<Entry>>): nat {
    if bucket.Some? then |bucket.value| else 0
  }

  /** Number of raw entries of `data` whose bucket maps to `status` in `origin`'s normalizer. */
  function EntryCount(origin: Origin, data: Dataset, status: Status): nat {
    if data == [] then 0
    else EntryCount(origin, data[..|data| - 1], status) + PresentLen(BucketOf(origin, data[|data| - 1].1, status))
  }

  /** A bucket's records all carry the bucket's status. */
  lemma {:induction false} MapEntriesCount(origin: Origin, category: string, bucketStatus: Status, es: seq<Entry>, status: Status)
    ensures Count(MapEntries(origin, category, bucketStatus, es), status) == if bucketStatus == status then |es| else 0
  {
    if es != [] {
      var init := es[..|es| - 1];
      MapEntriesCount(origin, category, bucketStatus, init, status);
      CountConcat(MapEntries(origin, category, bucketStatus, init), [MakeRecord(origin, category, bucketStatus, es[|es| - 1])], status);
    }
  }

  /** A present bucket yields one record of its status per entry; an absent one yields none. */
  lemma BucketCount(origin: Origin, category: string, bucketStatus: Status, bucket: Option<seq<Entry>>, status: Status)
    ensures Count(BucketRecords(origin, category, bucketStatus, bucket), status) ==
            if bucketStatus == status then PresentLen(bucket) else 0
  {
    if bucket.Some? {
      MapEntriesCount(origin, category, bucketStatus, bucket.value, status);
    }
  }

  /** One category yields exactly as many records of `status` as its feeding bucket has entries. */
  lemma CategoryCount(origin: Origin, category: string, lists: Buckets, status: Status)
    ensures Count(CategoryRecords(origin, category, lists), status) == PresentLen(BucketOf(origin, lists, status))
  {
    var shown := CategoryLabel(origin, category);
    var a := BucketRecords(origin, shown, Pass, lists.pass);
    BucketCount(origin, shown, Pass, lists.pass, status);
    if origin == Unbox {
      var b := BucketRecords(origin, shown, NotHealthy, lists.notHealthy);
      var c := BucketRecords(origin, shown, Fail, lists.fail);
      BucketCount(origin, shown, NotHealthy, lists.notHealthy, status);
      BucketCount(origin, shown, Fail, lists.fail, status);
      CountConcat(a + b, c, status);
      CountConcat(a, b, status);
    } else {
      var b := BucketRecords(origin, shown, Fail, lists.fail);
      var c := BucketRecords(origin, shown, Pending, lists.expired);
      BucketCount(origin, shown, Fail, lists.fail, status);
      BucketCount(origin, shown, Pending, lists.expired, status);
      CountConcat(a + b, c, status);
      CountConcat(a, b, status);
    }
  }

  /**
   * Status mapping of a whole dataset: `origin`'s normalizer emits exactly one
   * record of `status` per entry of the bucket feeding `status` (expired entries
   * become pending; Unbox has no pending source, the other two no not_healthy
   * source; absent buckets contribute nothing).
   */
  lemma {:induction false} NormalizedCount(origin: Origin, data: Dataset, status: Status)
    ensures Count(Normalized(origin, data), status) == EntryCount(origin, data, status)
  {
    if data != [] {
      var init := data[..|data| - 1];
      var last := data[|data| - 1];
      NormalizedCount(origin, init, status);
      CategoryCount(origin, last.0, last.1, status);
      CountConcat(Normalized(origin, init), CategoryRecords(origin, last.0, last.1), status);
    }
  }

  /** The output has one record per entry of every present bucket the normalizer reads. */
  lemma NormalizedLength(origin: Origin, data: Dataset)
    ensures |Normalized(origin, data)| ==
            EntryCount(origin, data, Pass) + EntryCount(origin, data, Fail) +
            EntryCount(origin, data, Pending) + EntryCount(origin, data, NotHealthy)
  {
    CountsPartition(Normalized(origin, data));
    NormalizedCount(origin, data, Pass);
    NormalizedCount(origin, data, Fail);
    NormalizedCount(origin, data, Pending);
    NormalizedCount(origin, data, NotHealthy);
  }

  /** The per-record guarantees of each normalizer. */
  predicate FromOrigin(origin: Origin, r: Record) {
    match origin
    case Trustified =>
      r.source == "Trustified" && r.status != NotHealthy && (r.status != Fail ==> Truthy(r.link))
    case Unbox =>
      r.source == "UnboxHealth" && r.status != Pending && '_' !in r.category
    case OpenData =>
      r.source != "" && r.status != NotHealthy
  }

  /** Every record of one bucket carries the category label and the normalizer's guarantees. */
  lemma BucketShape(origin: Origin, category: string, status: Status, bucket: Option<seq<Entry>>)
    requires origin == Unbox ==> '_' !in category
    requires origin == Unbox ==> status != Pending
    requires origin != Unbox ==> status != NotHealthy
    ensures forall r :: r in BucketRecords(origin, category, status, bucket) ==>
              r.category == category && FromOrigin(origin, r)
  {
    forall r: Record | r in BucketRecords(origin, category, status, bucket)
      ensures r.category == category && FromOrigin(origin, r)
    {
      var es := bucket.value;
      var j :| 0 <= j < |es| && r == MapEntries(origin, category, status, es)[j];
    }
  }

  /** Every record of one category carries that category's label and the normalizer's guarantees. */
  lemma CategoryRecordsShape(origin: Origin, category: string, lists: Buckets)
    ensures forall r :: r in CategoryRecords(origin, category, lists) ==>
              r.category == CategoryLabel(origin, category) && FromOrigin(origin, r)
  {
    var shown := CategoryLabel(origin, category);
    var a := BucketRecords(origin, shown, Pass, lists.pass);
    BucketShape(origin, shown, Pass, lists.pass);
    if origin == Unbox {
      BucketShape(origin, shown, NotHealthy, lists.notHealthy);
      BucketShape(origin, shown, Fail, lists.fail);
    } else {
      BucketShape(origin, shown, Fail, lists.fail);
      BucketShape(origin, shown, Pending, lists.expired);
    }
  }

  /**
   * Every record `origin`'s normalizer emits satisfies `FromOrigin` and carries
   * the label of one of the dataset's categories.
   */
  lemma {:induction false} NormalizedShape(origin: Origin, data: Dataset)
    ensures forall r :: r in Normalized(origin, data) ==>
              FromOrigin(origin, r) && exists i :: 0 <= i < |data| && r.category == CategoryLabel(origin, data[i].0)
  {
    if data != [] {
      var init := data[..|data| - 1];
      var last := data[|data| - 1];
      NormalizedShape(origin, init);
      CategoryRecordsShape(origin, last.0, last.1);
      forall r: Record | r in Normalized(origin, data)
        ensures FromOrigin(origin, r) && exists i :: 0 <= i < |data| && r.category == CategoryLabel(origin, data[i].0)
      {
        if r in Normalized(origin, init) {
          var i :| 0 <= i < |init| && r.category == CategoryLabel(origin, init[i].0);
          assert data[i] == init[i];
        } else {
          assert r.category == CategoryLabel(origin, data[|data| - 1].0);
        }
      }
    }
  }

  /** A worked example of the Unbox cleanup. */
  lemma CleanCategoryExample(category: string)
    requires category == "protein_supplements"
    ensures CleanCategory(category) == "protein"
  {
    var spaced := ReplaceChar(category, '_', ' ');
    ProteinSpaced(category);
    var removed := RemoveFirst(spaced, "supplements");
    ProteinRemoved(spaced);
    ProteinTrimmed(removed);
  }

  /** Step 1 of the example: the underscore becomes a space. */
  lemma ProteinSpaced(category: string)
    requires category == "protein_supplements"
    ensures ReplaceChar(category, '_', ' ') == "protein supplements"
  {
  }

  /** Step 2 of the example: the keyword is cut out, leaving the separating space. */
  lemma ProteinRemoved(spaced: string)
    requires spaced == "protein supplements"
    ensures RemoveFirst(spaced, "supplements") == "protein "
  {
    FirstSupplementsAt8(spaced);
  }

  /** Step 3 of the example: trimming drops the trailing space. */
  lemma ProteinTrimmed(removed: string)
    requires removed == "protein "
    ensures Trim(removed) == "protein"
  {
    assert TrimStart(removed) == removed;
    assert TrimEnd(removed) == TrimEnd(removed[..7]);
  }

  /** In "protein supplements" the keyword first occurs at position 8. */
  lemma FirstSupplementsAt8(spaced: string)
    requires spaced == "protein supplements"
    ensures IndexOf(spaced, "supplements") == Some(8)
  {
    assert OccursAt(spaced, "supplements", 8);
    forall j | 0 <= j < 8
      ensures !OccursAt(spaced, "supplements", j)
    {
      assert spaced[j] != 's';
      assert spaced[j..j + 11][0] == spaced[j];
    }
  }

  /** Nothing keeps the cleanup from emptying a category. */
  lemma CleanCategoryCanBeEmpty(category: string)
    requires category == "supplements"
    ensures CleanCategory(category) == ""
  {
    assert ReplaceChar(category, '_', ' ') == category;
    assert OccursAt(category, "supplements", 0);
  }

  /** Only the first `supplements` is removed. */
  lemma CleanCategoryFirstOnly(category: string)
    requires category == "supplements_supplements"
    ensures CleanCategory(category) == "supplements"
  {
    var spaced := ReplaceChar(category, '_', ' ');
    TwiceSpaced(category);
    var removed := RemoveFirst(spaced, "supplements");
    TwiceRemoved(spaced);
    TwiceTrimmed(removed);
  }

  /** Step 1: the underscore between the two keywords becomes a space. */
  lemma TwiceSpaced(category: string)
    requires category == "supplements_supplements"
    ensures ReplaceChar(category, '_', ' ') == "supplements supplements"
  {
  }

  /** Step 2: the keyword at position 0 is cut out; the second one stays. */
  lemma TwiceRemoved(spaced: string)
    requires spaced == "supplements supplements"
    ensures RemoveFirst(spaced, "supplements") == " supplements"
  {
    assert spaced[..11] == "supplements";
    assert IndexOf(spaced, "supplements") == Some(0);
  }

  /** Step 3: trimming drops the leading space. */
  lemma TwiceTrimmed(removed: string)
    requires removed == " supplements"
    ensures Trim(removed) == "supplements"
  {
    assert TrimStart(removed) == TrimStart(removed[1..]) == removed[1..];
    assert TrimEnd(removed[1..]) == removed[1..];
  }
}
