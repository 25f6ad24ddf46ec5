/** `filterData`: the status filter and the free-text search over the record collection. */
module Filter {
  import opened Strings
  import opened Records
  import opened Sequences

  /** `activeFilter`: either `'all'` or one status. */
  datatype ActiveFilter = All | Only(status: Status)

  /** The search criterion: an empty query matches everything; otherwise its lower case occurs in the name or the category. */
  predicate MatchesQuery(r: Record, query: string) {
    var q := Lower(query);
    q == [] || Includes(Lower(r.name), q) || Includes(Lower(r.category), q)
  }

  /** The predicate `filterData` passes to `allProducts.filter`. */
  predicate Keep(r: Record, filter: ActiveFilter, query: string) {
    (filter.All? || r.status == filter.status) && MatchesQuery(r, query)
  }

  /** `allProducts.filter(...)`: the records shown for a filter and a query. */
  function Visible(records: seq<Record>, filter: ActiveFilter, query: string): (r: seq<Record>)
    ensures |r| <= |records|
  {
    if records == [] then []
    else (if Keep(records[0], filter, query) then [records[0]] else []) + Visible(records[1..], filter, query)
  }

  /** Filtering keeps the relative order of the records it keeps. */
  lemma {:induction false} VisibleIsSubsequence(records: seq<Record>, filter: ActiveFilter, query: string)
    ensures IsSubsequence(Visible(records, filter, query), records)
  {
    if records != [] {
      VisibleIsSubsequence(records[1..], filter, query);
      var v := Visible(records, filter, query);
      if Keep(records[0], filter, query) {
        assert v == [records[0]] + Visible(records[1..], filter, query);
        assert v[0] == records[0] && v[1..] == Visible(records[1..], filter, query);
      } else {
        assert v == Visible(records[1..], filter, query);
      }
    }
  }

  /** A record is shown exactly when it is in the collection and passes both criteria. */
  lemma {:induction false} VisibleMembers(records: seq<Record>, filter: ActiveFilter, query: string)
    ensures forall r :: r in Visible(records, filter, query) <==> r in records && Keep(r, filter, query)
  {
    if records != [] {
      VisibleMembers(records[1..], filter, query);
      assert records == [records[0]] + records[1..];
    }
  }

  /**
   * Filtering keeps every copy of a record that passes and drops every copy of
   * one that does not: the number of occurrences of each record is preserved
   * or zeroed.
   */
  lemma {:induction false} VisibleMultiset(records: seq<Record>, filter: ActiveFilter, query: string, x: Record)
    ensures multiset(Visible(records, filter, query))[x] == if Keep(x, filter, query) then multiset(records)[x] else 0
  {
    if records != [] {
      VisibleMultiset(records[1..], filter, query, x);
      assert records == [records[0]] + records[1..];
    }
  }

  /** With filter `'all'` and an empty query every record is shown, in order. */
  lemma {:induction false} VisibleEverything(records: seq<Record>)
    ensures Visible(records, All, "") == records
  {
    if records != [] {
      VisibleEverything(records[1..]);
      assert records == [records[0]] + records[1..];
    }
  }

  /**
   * With a status filter and an empty query exactly the records of that status
   * are shown: all of them, and nothing else.
   */
  lemma {:induction false} VisibleStatus(records: seq<Record>, status: Status)
    ensures |Visible(records, Only(status), "")| == Count(records, status)
    ensures forall r :: r in Visible(records, Only(status), "") ==> r.status == status
  {
    if records != [] {
      VisibleStatus(records[1..], status);
    }
  }

  /** Search ignores ASCII case: a query and its lower-case form show the same records. */
  lemma SearchIgnoresCase(records: seq<Record>, filter: ActiveFilter, query: string)
    ensures Visible(records, filter, query) == Visible(records, filter, Lower(query))
  {
    assert Lower(Lower(query)) == Lower(query);
    VisibleSameCriterion(records, filter, query, Lower(query));
  }

  /** Two queries that keep the same records show the same records. */
  lemma {:induction false} VisibleSameCriterion(records: seq<Record>, filter: ActiveFilter, q1: string, q2: string)
    requires forall r :: MatchesQuery(r, q1) == MatchesQuery(r, q2)
    ensures Visible(records, filter, q1) == Visible(records, filter, q2)
  {
    if records != [] {
      VisibleSameCriterion(records[1..], filter, q1, q2);
    }
  }

  /** Text always contains itself. */
  lemma IncludesSelf(s: string)
    ensures Includes(s, s)
  {
    assert OccursAt(s, s, 0);
  }

  /**
   * Searching for a category shows every record of that category (and
   * possibly others whose name or category contains it).
   */
  lemma CategoryQueryShowsCategory(records: seq<Record>, category: string)
    ensures forall r :: r in records && r.category == category ==> r in Visible(records, All, category)
  {
    VisibleMembers(records, All, category);
    IncludesSelf(Lower(category));
  }

  /** A one-letter query already filters: "a" hides a record named "b" in category "c". */
  lemma SingleLetterQueryFilters(r: Record)
    requires r.name == "b" && r.category == "c"
    ensures Visible([r], All, "a") == []
  {
    assert Lower("a") == "a";
    assert Lower(r.name) == "b";
    assert Lower(r.category) == "c";
    assert !Includes("b", "a") by {
      assert "b"[..1][0] != "a"[0];
      assert IndexOf("b"[1..], "a") .None?;
    }
    assert !Includes("c", "a") by {
      assert "c"[..1][0] != "a"[0];
      assert IndexOf("c"[1..], "a") .None?;
    }
    assert !Keep(r, All, "a");
    assert [r][1..] == [];
  }
}
