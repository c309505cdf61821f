/** The books service: one function per backend operation, each building its
    request and returning the `data` field of the answer's envelope. Query
    parameters are an ordered list of key/value pairs (their percent-encoding
    is not modelled); a JSON body is the list of its serialised fields. */
module BooksService {
  import opened Common
  import opened Types
  import opened ApiConfig

  /** The optional listing filters; a zero or empty value counts as absent. */
  datatype BookFilters = BookFilters(
    status: Option<BookStatus>,
    categoryId: Option<int>,
    search: Option<string>,
    page: Option<int>,
    perPage: Option<int>)

  const NoFilters := BookFilters(None, None, None, None, None)

  const IncludePair := ("include", "category,creator")

  // ---------------------------------------------------------------------
  // the listing query

  /** Position of a key in the order the listing appends them. */
  function KeyRank(key: string): nat
  {
    if key == "filter[status]" then 0
    else if key == "filter[category_id]" then 1
    else if key == "filter[title]" then 2
    else if key == "page" then 3
    else if key == "per_page" then 4
    else if key == "include" then 5
    else 6
  }

  /** Keys appear in listing order, each at most once. */
  predicate InListingOrder(params: seq<(string, string)>)
  {
    forall i, j :: 0 <= i < j < |params| ==> KeyRank(params[i].0) < KeyRank(params[j].0)
  }

  /** Every key present comes before position `rank` in the listing order. */
  predicate RanksBelow(params: seq<(string, string)>, rank: nat)
  {
    forall i :: 0 <= i < |params| ==> KeyRank(params[i].0) < rank
  }

  /** `URLSearchParams.get`: the first value stored under a key. */
  function ValueOf(params: seq<(string, string)>, key: string): Option<string>
    decreases |params|
  {
    if params == [] then None
    else if params[0].0 == key then Some(params[0].1)
    else ValueOf(params[1..], key)
  }

  /** What `get` answers: nothing exactly when no pair has the key, otherwise
      the value of the first pair that has it. */
  lemma {:induction false} ValueOfIsFirstMatch(params: seq<(string, string)>, key: string)
    ensures ValueOf(params, key).None? <==> forall i :: 0 <= i < |params| ==> params[i].0 != key
    ensures ValueOf(params, key).Some? ==>
              exists i :: 0 <= i < |params| && params[i] == (key, ValueOf(params, key).value) &&
                          (forall j :: 0 <= j < i ==> params[j].0 != key)
    decreases |params|
  {
    if params != [] && params[0].0 != key {
      var rest := params[1..];
      ValueOfIsFirstMatch(rest, key);
      forall i | 0 <= i < |rest|
        ensures rest[i] == params[i + 1]
      {
      }
      if ValueOf(rest, key).Some? {
        var i :| 0 <= i < |rest| && rest[i] == (key, ValueOf(rest, key).value) &&
                 (forall j :: 0 <= j < i ==> rest[j].0 != key);
        assert params[i + 1] == (key, ValueOf(params, key).value);
        forall j | 0 <= j < i + 1
          ensures params[j].0 != key
        {
          if j > 0 {
            assert params[j] == rest[j - 1];
          }
        }
      }
    } else if params != [] {
      assert params[0] == (key, ValueOf(params, key).value);
    }
  }

  lemma {:induction false} ValueOfAppend(params: seq<(string, string)>, pair: (string, string), key: string)
    ensures ValueOf(params + [pair], key)
            == if ValueOf(params, key).Some? then ValueOf(params, key)
               else if pair.0 == key then Some(pair.1) else None
    decreases |params|
  {
    if params == [] {
      assert params + [pair] == [pair];
    } else {
      assert (params + [pair])[1..] == params[1..] + [pair];
      ValueOfAppend(params[1..], pair, key);
    }
  }

  /** A key ranked after every key present is not present. */
  lemma {:induction false} AbsentAbove(params: seq<(string, string)>, key: string)
    requires RanksBelow(params, KeyRank(key))
    ensures ValueOf(params, key).None?
    decreases |params|
  {
    if params != [] {
      assert KeyRank(params[0].0) < KeyRank(key);
      AbsentAbove(params[1..], key);
    }
  }

  /** Appending the next key in listing order keeps the order, makes the key
      map to its value, and leaves every other key's value alone. */
  lemma AppendInOrder(params: seq<(string, string)>, pair: (string, string))
    requires InListingOrder(params) && RanksBelow(params, KeyRank(pair.0))
    ensures InListingOrder(params + [pair]) && RanksBelow(params + [pair], KeyRank(pair.0) + 1)
    ensures ValueOf(params + [pair], pair.0) == Some(pair.1)
    ensures forall key :: key != pair.0 ==> ValueOf(params + [pair], key) == ValueOf(params, key)
  {
    AbsentAbove(params, pair.0);
    ValueOfAppend(params, pair, pair.0);
    forall key | key != pair.0
      ensures ValueOf(params + [pair], key) == ValueOf(params, key)
    {
      ValueOfAppend(params, pair, key);
    }
  }

  /** The pair a guarded `append` adds: none when the value is not set. */
  function Guarded(key: string, value: Option<string>): seq<(string, string)>
  {
    if value.Some? then [(key, value.value)] else []
  }

  /** The pairs a list of guarded appends produces, run in list order: each
      key whose value is set. */
  function QueryOf(entries: seq<(string, Option<string>)>): seq<(string, string)>
    decreases |entries|
  {
    if entries == [] then []
    else QueryOf(entries[..|entries| - 1]) + Guarded(entries[|entries| - 1].0, entries[|entries| - 1].1)
  }

  predicate DistinctKeys(entries: seq<(string, Option<string>)>)
  {
    forall j, k :: 0 <= j < k < |entries| ==> entries[j].0 != entries[k].0
  }

  predicate IncreasingRanks(entries: seq<(string, Option<string>)>)
  {
    forall j, k :: 0 <= j < k < |entries| ==> KeyRank(entries[j].0) < KeyRank(entries[k].0)
  }

  /** Reading a key after one more guarded append. */
  lemma GuardedBack(params: seq<(string, string)>, key: string, value: Option<string>, k: string)
    ensures ValueOf(params + Guarded(key, value), k)
            == if ValueOf(params, k).Some? then ValueOf(params, k)
               else if key == k then value else None
  {
    if value.Some? {
      ValueOfAppend(params, (key, value.value), k);
    } else {
      assert params + Guarded(key, value) == params;
    }
  }

  /** With distinct keys, each key reads back the value its entry holds. */
  lemma {:induction false} QueryOfValue(entries: seq<(string, Option<string>)>, i: nat)
    requires DistinctKeys(entries) && i < |entries|
    ensures ValueOf(QueryOf(entries), entries[i].0) == entries[i].1
    decreases |entries|
  {
    var n := |entries|;
    var init, last := entries[..n - 1], entries[n - 1];
    var key := entries[i].0;
    GuardedBack(QueryOf(init), last.0, last.1, key);
    if i == n - 1 {
      AbsentKey(init, key);
    } else {
      assert init[i] == entries[i];
      QueryOfValue(init, i);
    }
  }

  /** A key no entry has is absent from the query. */
  lemma {:induction false} AbsentKey(entries: seq<(string, Option<string>)>, key: string)
    requires forall j :: 0 <= j < |entries| ==> entries[j].0 != key
    ensures ValueOf(QueryOf(entries), key).None?
    decreases |entries|
  {
    if entries != [] {
      var n := |entries|;
      AbsentKey(entries[..n - 1], key);
      GuardedBack(QueryOf(entries[..n - 1]), entries[n - 1].0, entries[n - 1].1, key);
    }
  }

  /** With increasing ranks, the query is in listing order, and its ranks lie
      between the first entry's and the last entry's. */
  lemma {:induction false} QueryOfOrder(entries: seq<(string, Option<string>)>)
    requires IncreasingRanks(entries)
    ensures InListingOrder(QueryOf(entries))
    ensures entries != [] ==> forall i :: 0 <= i < |QueryOf(entries)| ==>
              KeyRank(entries[0].0) <= KeyRank(QueryOf(entries)[i].0) <= KeyRank(entries[|entries| - 1].0)
    decreases |entries|
  {
    if entries != [] {
      var n := |entries|;
      var init, last := entries[..n - 1], entries[n - 1];
      QueryOfOrder(init);
      var q := QueryOf(init);
      if n > 1 {
        assert init[0] == entries[0] && KeyRank(init[n - 2].0) < KeyRank(last.0);
      } else {
        assert q == [];
      }
      if last.1.Some? {
        AppendInOrder(q, (last.0, last.1.value));
      }
    }
  }

  /** The value a filter contributes, if it is truthy. */
  function StatusValue(f: Option<BookFilters>): Option<string>
  {
    if f.Some? && f.value.status.Some? then Some(StatusName(f.value.status.value)) else None
  }

  function NumberValue(n: Option<int>): Option<string>
  {
    if TruthyNumber(n) then Some(IntToDecimal(n.value)) else None
  }

  function TextValue(s: Option<string>): Option<string>
  {
    if TruthyString(s) then Some(s.value) else None
  }

  /** The five guarded appends of the listing, in the order they run. */
  function FilterEntries(filters: Option<BookFilters>): (entries: seq<(string, Option<string>)>)
    ensures |entries| == 5 && DistinctKeys(entries) && IncreasingRanks(entries)
    ensures KeyRank(entries[0].0) == 0 && KeyRank(entries[4].0) == 4
  {
    var f := if filters.Some? then filters.value else NoFilters;
    [("filter[status]", StatusValue(filters)),
     ("filter[category_id]", NumberValue(f.categoryId)),
     ("filter[title]", TextValue(f.search)),
     ("page", NumberValue(f.page)),
     ("per_page", NumberValue(f.perPage))]
  }

  /** The query pairs of the listing: the guarded filter pairs, then the
      include pair. */
  function ListingQuery(filters: Option<BookFilters>): (q: seq<(string, string)>)
    ensures |q| >= 1 && q[|q| - 1] == IncludePair
  {
    var f := if filters.Some? then filters.value else NoFilters;
    Guarded("filter[status]", StatusValue(filters))
    + Guarded("filter[category_id]", NumberValue(f.categoryId))
    + Guarded("filter[title]", TextValue(f.search))
    + Guarded("page", NumberValue(f.page))
    + Guarded("per_page", NumberValue(f.perPage))
    + [IncludePair]
  }

  /** The listing query is the query of the five filter entries, in order,
      followed by the include pair. */
  lemma ListingIsQueryOf(filters: Option<BookFilters>)
    ensures ListingQuery(filters) == QueryOf(FilterEntries(filters)) + [IncludePair]
  {
    QueryOfFive(FilterEntries(filters));
  }

  /** The query of five entries, written out left to right. */
  lemma QueryOfFive(e: seq<(string, Option<string>)>)
    requires |e| == 5
    ensures QueryOf(e) == Guarded(e[0].0, e[0].1) + Guarded(e[1].0, e[1].1) + Guarded(e[2].0, e[2].1)
                          + Guarded(e[3].0, e[3].1) + Guarded(e[4].0, e[4].1)
  {
    assert QueryOf(e[..1]) == Guarded(e[0].0, e[0].1) by {
      assert e[..1][..0] == [];
    }
    QueryOfExtends(e, 1);
    QueryOfExtends(e, 2);
    QueryOfExtends(e, 3);
    QueryOfExtends(e, 4);
    assert e[..5] == e;
  }

  /** The query of one more entry. */
  lemma QueryOfExtends(e: seq<(string, Option<string>)>, k: nat)
    requires k < |e|
    ensures QueryOf(e[..k + 1]) == QueryOf(e[..k]) + Guarded(e[k].0, e[k].1)
  {
    assert e[..k + 1][..k] == e[..k];
  }

  /** What the listing query reads back: each filter's value under its key,
      the keys in listing order, and the include pair last. */
  lemma ListingQueryReadsBack(filters: Option<BookFilters>)
    ensures InListingOrder(ListingQuery(filters))
    ensures ListingQuery(filters)[|ListingQuery(filters)| - 1] == IncludePair
    ensures ValueOf(ListingQuery(filters), "filter[status]") == StatusValue(filters)
    ensures ValueOf(ListingQuery(filters), "filter[category_id]") == if filters.Some? then NumberValue(filters.value.categoryId) else None
    ensures ValueOf(ListingQuery(filters), "filter[title]") == if filters.Some? then TextValue(filters.value.search) else None
    ensures ValueOf(ListingQuery(filters), "page") == if filters.Some? then NumberValue(filters.value.page) else None
    ensures ValueOf(ListingQuery(filters), "per_page") == if filters.Some? then NumberValue(filters.value.perPage) else None
  {
    var entries := FilterEntries(filters);
    ListingIsQueryOf(filters);
    FiveEntriesReadBack(entries);
    var f := if filters.Some? then filters.value else NoFilters;
    assert entries[1] == ("filter[category_id]", NumberValue(f.categoryId));
    assert entries[2] == ("filter[title]", TextValue(f.search));
    assert entries[3] == ("page", NumberValue(f.page));
    assert entries[4] == ("per_page", NumberValue(f.perPage));
  }

  /** Five guarded appends with distinct keys in increasing rank, then the
      include pair: listing order, and each key reads back its entry's value. */
  lemma FiveEntriesReadBack(entries: seq<(string, Option<string>)>)
    requires |entries| == 5 && DistinctKeys(entries) && IncreasingRanks(entries)
    requires KeyRank(entries[4].0) == 4
    ensures InListingOrder(QueryOf(entries) + [IncludePair])
    ensures forall i :: 0 <= i < 5 ==> ValueOf(QueryOf(entries) + [IncludePair], entries[i].0) == entries[i].1
  {
    var params := QueryOf(entries);
    QueryOfOrder(entries);
    AppendInOrder(params, IncludePair);
    forall i | 0 <= i < 5
      ensures ValueOf(params + [IncludePair], entries[i].0) == entries[i].1
    {
      QueryOfValue(entries, i);
    }
  }

  /** The listing request: GET on the list path with the query pairs appended
      one filter at a time, in a fixed order, and the include pair last. */
  method GetBooksRequest(filters: Option<BookFilters>) returns (req: Request)
    ensures req.httpMethod == Get && req.path == BooksList && req.body.None?
    ensures req.query == ListingQuery(filters)
    ensures filters.None? || filters == Some(NoFilters) ==> req.query == [IncludePair]
  {
    var f := if filters.Some? then filters.value else NoFilters;
    var params: seq<(string, string)> := [];
    params := AppendIfSet(params, "filter[status]", StatusValue(filters));
    params := AppendIfSet(params, "filter[category_id]", NumberValue(f.categoryId));
    params := AppendIfSet(params, "filter[title]", TextValue(f.search));
    params := AppendIfSet(params, "page", NumberValue(f.page));
    params := AppendIfSet(params, "per_page", NumberValue(f.perPage));
    req := Request(Get, BooksList, params + [IncludePair], None);
  }

  /** `params.append(key, value)` when the value is set (truthy); otherwise
      the parameters stay as they are. */
  method AppendIfSet(params: seq<(string, string)>, key: string, value: Option<string>)
    returns (r: seq<(string, string)>)
    ensures value.Some? ==> r == params + [(key, value.value)]
    ensures value.None? ==> r == params
    ensures r == params + Guarded(key, value)
  {
    if value.Some? {
      r := params + [(key, value.value)];
    } else {
      r := params;
    }
  }

  // ---------------------------------------------------------------------
  // the other operations

  function GetBookRequest(id: int): (req: Request)
    ensures req.httpMethod == Get && req.path == BookDetail(id) && req.query == [] && req.body.None?
  {
    Request(Get, BookDetail(id), [], None)
  }

  function ApproveBookRequest(id: int): (req: Request)
    ensures req.httpMethod == Put && req.path == BookDetail(id) + "/approve" && req.query == [] && req.body.None?
  {
    Request(Put, BookApprove(id), [], None)
  }

  /** The reject body's only field is the reason; an undefined reason is
      dropped when the body is serialised, an empty one is sent as it is. */
  function RejectBody(reason: Option<string>): (fields: seq<(string, string)>)
    ensures reason.None? ==> fields == []
    ensures reason.Some? ==> fields == [("rejection_reason", reason.value)]
  {
    match reason
    case None => []
    case Some(r) => [("rejection_reason", r)]
  }

  /** The reason reads back from the body exactly when one was given. */
  lemma RejectBodyReadsBack(reason: Option<string>)
    ensures ValueOf(RejectBody(reason), "rejection_reason") == reason
  {
  }

  function RejectBookRequest(id: int, reason: Option<string>): (req: Request)
    ensures req.httpMethod == Put && req.path == BookDetail(id) + "/reject" && req.query == []
    ensures req.body == Some(RejectBody(reason))
  {
    Request(Put, BookReject(id), [], Some(RejectBody(reason)))
  }

  function DeleteBookRequest(id: int): (req: Request)
    ensures req.httpMethod == Delete && req.path == BookDetail(id) && req.query == [] && req.body.None?
  {
    Request(Delete, BookDelete(id), [], None)
  }

  /** The update body is the caller's partial book, as its serialised fields. */
  function UpdateBookRequest(id: int, patch: seq<(string, string)>): (req: Request)
    ensures req.httpMethod == Put && req.path == BookDetail(id) && req.query == [] && req.body == Some(patch)
  {
    Request(Put, BookUpdate(id), [], Some(patch))
  }
}
