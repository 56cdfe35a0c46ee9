/**
 * The catalog listing and the search suggestions: products are selected by a
 * chain of optional criteria and then ordered by a sort key.
 */
module Catalog {
  import opened Wrappers
  import opened Models

  // ----- Case-insensitive substring match -----

  /** ASCII lower-casing of one character; every other character is left as it is. */
  function LowerChar(c: char): char
  {
    if 'A' <= c <= 'Z' then (c as int + 32) as char else c
  }

  function Lower(s: string): (r: string)
    ensures |r| == |s| && forall i :: 0 <= i < |s| ==> r[i] == LowerChar(s[i])
  {
    if s == [] then [] else [LowerChar(s[0])] + Lower(s[1..])
  }

  /** `q` occurs in `s` starting at offset `i`. */
  predicate OccursAt(s: string, q: string, i: int)
  {
    0 <= i <= |s| - |q| && s[i..i + |q|] == q
  }

  /** Whether `q` occurs in `s` as a contiguous piece. */
  function Contains(s: string, q: string): (r: bool)
    ensures r <==> exists i :: OccursAt(s, q, i)
  {
    if q <= s then
      assert OccursAt(s, q, 0);
      true
    else if s == [] then
      assert forall i :: !OccursAt(s, q, i);
      false
    else
      var r := Contains(s[1..], q);
      assert forall i :: OccursAt(s, q, i) <==> (i > 0 && OccursAt(s[1..], q, i - 1)) by {
        forall i ensures OccursAt(s, q, i) <==> (i > 0 && OccursAt(s[1..], q, i - 1)) {
          if 0 < i <= |s| - |q| {
            var t := s[1..];
            var a, b := s[i..i + |q|], t[i - 1..i - 1 + |q|];
            assert forall m :: 0 <= m < |q| ==> a[m] == b[m];
            assert a == b;
          }
        }
      }
      assert r ==> exists i :: OccursAt(s, q, i) by {
        if r {
          var j :| OccursAt(s[1..], q, j);
          assert OccursAt(s, q, j + 1);
        }
      }
      r
  }

  /** `q` agrees with the piece of `s` at offset `i`, letter case aside. */
  predicate FoldedAt(s: string, q: string, i: int)
  {
    0 <= i <= |s| - |q| && forall j :: 0 <= j < |q| ==> LowerChar(s[i + j]) == LowerChar(q[j])
  }

  /** `icontains`: `q` occurs in `s` when ASCII letter case is ignored on both sides. */
  function IContains(s: string, q: string): (r: bool)
    ensures r <==> exists i :: FoldedAt(s, q, i)
    ensures q == [] ==> r
  {
    var ls, lq := Lower(s), Lower(q);
    assert forall i :: OccursAt(ls, lq, i) <==> FoldedAt(s, q, i) by {
      forall i
        ensures OccursAt(ls, lq, i) <==> FoldedAt(s, q, i)
      {
        if 0 <= i <= |s| - |q| {
          if OccursAt(ls, lq, i) {
            forall j | 0 <= j < |q| ensures LowerChar(s[i + j]) == LowerChar(q[j]) {
              assert ls[i..i + |q|][j] == ls[i + j];
            }
          }
          if FoldedAt(s, q, i) {
            assert forall j :: 0 <= j < |q| ==> ls[i..i + |q|][j] == lq[j];
            assert ls[i..i + |q|] == lq;
          }
        }
      }
    }
    if q == [] then
      assert FoldedAt(s, q, 0);
      Contains(ls, lq)
    else
      Contains(ls, lq)
  }

  /** Matching ignores the case of the query: an upper-cased letter matches the same products. */
  lemma IContainsIgnoresQueryCase(s: string, q: string, k: nat)
    requires k < |q| && 'a' <= q[k] <= 'z'
    ensures IContains(s, q) == IContains(s, q[k := (q[k] as int - 32) as char])
  {
    var q' := q[k := (q[k] as int - 32) as char];
    assert Lower(q') == Lower(q) by {
      assert forall j :: 0 <= j < |q| ==> Lower(q')[j] == Lower(q)[j];
    }
  }

  // ----- Filters -----

  /** One `.filter(...)` step of the listing. */
  datatype Criterion =
    | TextMatch(query: string)
    | InCategory(category: nat)
    | PriceAtLeast(min: Money)
    | PriceAtMost(max: Money)

  predicate Holds(c: Criterion, p: Product)
  {
    match c
    case TextMatch(q) => IContains(p.name, q) || IContains(p.description, q)
    case InCategory(id) => p.category == Some(id)
    case PriceAtLeast(m) => p.price >= m
    case PriceAtMost(m) => p.price <= m
  }

  /** The products of `s` that satisfy `c`, in their order in `s`. */
  function Select(s: seq<Product>, c: Criterion): (r: seq<Product>)
    ensures forall p :: multiset(r)[p] == if Holds(c, p) then multiset(s)[p] else 0
    ensures forall p :: p in r ==> p in s && Holds(c, p)
    ensures |r| <= |s|
  {
    if s == [] then []
    else
      var rest := Select(s[1..], c);
      assert s == [s[0]] + s[1..];
      assert multiset(s) == multiset{s[0]} + multiset(s[1..]);
      if Holds(c, s[0]) then [s[0]] + rest else rest
  }

  /**
   * The listing's query parameters: an empty search text and an absent category
   * or price bound impose no constraint.
   */
  datatype Filters = Filters(search: string, category: Option<nat>, minPrice: Option<Money>, maxPrice: Option<Money>)

  /** A product the listing shows: it satisfies every filter that is given. */
  predicate Matches(f: Filters, p: Product)
  {
    && (f.search == [] || IContains(p.name, f.search) || IContains(p.description, f.search))
    && (f.category.None? || p.category == f.category)
    && (f.minPrice.None? || p.price >= f.minPrice.value)
    && (f.maxPrice.None? || p.price <= f.maxPrice.value)
  }

  /** Applies the criterion when the parameter is present and leaves the rows alone otherwise. */
  function SelectIf(s: seq<Product>, present: bool, c: Criterion): (r: seq<Product>)
    ensures forall p :: multiset(r)[p] == if !present || Holds(c, p) then multiset(s)[p] else 0
  {
    if present then Select(s, c) else s
  }

  /** The filter chain of the listing, one step per given parameter. */
  function FilterChain(table: seq<Product>, f: Filters): (r: seq<Product>)
    ensures forall p :: multiset(r)[p] == if Matches(f, p) then multiset(table)[p] else 0
  {
    var s1 := SelectIf(table, f.search != [], TextMatch(f.search));
    var s2 := SelectIf(s1, f.category.Some?, InCategory(if f.category.Some? then f.category.value else 0));
    var s3 := SelectIf(s2, f.minPrice.Some?, PriceAtLeast(if f.minPrice.Some? then f.minPrice.value else 0));
    SelectIf(s3, f.maxPrice.Some?, PriceAtMost(if f.maxPrice.Some? then f.maxPrice.value else 0))
  }

  // ----- Ordering -----

  /** Character-code lexicographic order on names. */
  predicate LexLe(a: string, b: string)
  {
    if a == [] then true
    else if b == [] then false
    else if a[0] != b[0] then a[0] < b[0]
    else LexLe(a[1..], b[1..])
  }

  lemma {:induction false} LexLeTotal(a: string, b: string)
    ensures LexLe(a, b) || LexLe(b, a)
  {
    if a != [] && b != [] && a[0] == b[0] {
      LexLeTotal(a[1..], b[1..]);
    }
  }

  lemma {:induction false} LexLeTransitive(a: string, b: string, c: string)
    requires LexLe(a, b) && LexLe(b, c)
    ensures LexLe(a, c)
  {
    if a != [] && b != [] && c != [] && a[0] == b[0] && b[0] == c[0] {
      LexLeTransitive(a[1..], b[1..], c[1..]);
    }
  }

  /** The orders the listing can produce; newest first is the default. */
  datatype SortKey = NewestFirst | PriceAscending | PriceDescending | NameAscending

  /** The sort parameter: three exact keys choose an order, anything else keeps newest first. */
  function KeyOf(sortBy: string): (k: SortKey)
    ensures k == PriceAscending <==> sortBy == "price_low"
    ensures k == PriceDescending <==> sortBy == "price_high"
    ensures k == NameAscending <==> sortBy == "name"
  {
    if sortBy == "price_low" then PriceAscending
    else if sortBy == "price_high" then PriceDescending
    else if sortBy == "name" then NameAscending
    else NewestFirst
  }

  /** Whether `p` may stand before `q` in the order `k`. */
  predicate Before(k: SortKey, p: Product, q: Product)
  {
    match k
    case NewestFirst => p.createdAt >= q.createdAt
    case PriceAscending => p.price <= q.price
    case PriceDescending => p.price >= q.price
    case NameAscending => LexLe(p.name, q.name)
  }

  lemma BeforeTotal(k: SortKey, p: Product, q: Product)
    ensures Before(k, p, q) || Before(k, q, p)
  {
    if k == NameAscending {
      LexLeTotal(p.name, q.name);
    }
  }

  lemma BeforeTransitive(k: SortKey, p: Product, q: Product, r: Product)
    requires Before(k, p, q) && Before(k, q, r)
    ensures Before(k, p, r)
  {
    if k == NameAscending {
      LexLeTransitive(p.name, q.name, r.name);
    }
  }

  predicate Sorted(k: SortKey, s: seq<Product>)
  {
    forall i, j :: 0 <= i < j < |s| ==> Before(k, s[i], s[j])
  }

  /** Puts `x` into `s` after every element that `x` may not precede. */
  function Insert(k: SortKey, x: Product, s: seq<Product>): (r: seq<Product>)
    ensures multiset(r) == multiset(s) + multiset{x}
    ensures |r| == |s| + 1
  {
    if s == [] then [x]
    else if Before(k, x, s[0]) then
      assert multiset([x] + s) == multiset{x} + multiset(s);
      [x] + s
    else
      assert s == [s[0]] + s[1..];
      assert multiset(s) == multiset{s[0]} + multiset(s[1..]);
      var rest := Insert(k, x, s[1..]);
      assert multiset([s[0]] + rest) == multiset{s[0]} + multiset(rest);
      [s[0]] + rest
  }

  lemma {:induction false} InsertSorted(k: SortKey, x: Product, s: seq<Product>)
    requires Sorted(k, s)
    ensures Sorted(k, Insert(k, x, s))
  {
    if s == [] {
    } else if Before(k, x, s[0]) {
      var r := [x] + s;
      forall i, j | 0 <= i < j < |r| ensures Before(k, r[i], r[j]) {
        if i == 0 && j > 1 { BeforeTransitive(k, x, s[0], s[j - 1]); }
      }
    } else {
      BeforeTotal(k, x, s[0]);
      var rest := Insert(k, x, s[1..]);
      InsertSorted(k, x, s[1..]);
      var r := [s[0]] + rest;
      forall i, j | 0 <= i < j < |r| ensures Before(k, r[i], r[j]) {
        if i == 0 {
          var y := rest[j - 1];
          assert y in multiset(rest);
          assert y == x || y in multiset(s[1..]);
          if y != x {
            var m :| 0 <= m < |s[1..]| && s[1..][m] == y;
            assert s[m + 1] == y;
          }
        } else {
          assert r[i] == rest[i - 1] && r[j] == rest[j - 1];
        }
      }
    }
  }

  /** `order_by`: a stable insertion sort of `s` by `k`. */
  function SortBy(k: SortKey, s: seq<Product>): (r: seq<Product>)
    ensures Sorted(k, r)
    ensures multiset(r) == multiset(s)
    ensures |r| == |s|
  {
    if s == [] then []
    else
      assert s == [s[0]] + s[1..];
      assert multiset(s) == multiset{s[0]} + multiset(s[1..]);
      var rest := SortBy(k, s[1..]);
      InsertSorted(k, s[0], rest);
      Insert(k, s[0], rest)
  }

  // ----- The two views -----

  /**
   * The product listing: every product of the table that satisfies every given
   * filter, as often as it occurs in the table, ordered by the sort key.
   */
  function Listing(table: seq<Product>, f: Filters, sortBy: string): (r: seq<Product>)
    ensures forall p :: multiset(r)[p] == if Matches(f, p) then multiset(table)[p] else 0
    ensures forall p :: p in r <==> p in table && Matches(f, p)
    ensures Sorted(KeyOf(sortBy), r)
  {
    var r := SortBy(KeyOf(sortBy), FilterChain(table, f));
    assert forall p :: p in r <==> multiset(r)[p] > 0;
    assert forall p :: p in table <==> multiset(table)[p] > 0;
    r
  }

  /** The failure the listing as written raises: the product table has no category column. */
  datatype QueryError = UnknownField(name: string)

  /**
   * The listing as the view is written: a category filter names a column the
   * product table lacks, so the query fails whenever a category is given.
   */
  function ListingAsWritten(table: seq<Product>, f: Filters, sortBy: string): (r: Result<seq<Product>, QueryError>)
    ensures r.Failure? <==> f.category.Some?
    ensures r.Success? ==> r.value == Listing(table, f, sortBy)
  {
    if f.category.Some? then Failure(UnknownField("category"))
    else Success(Listing(table, f, sortBy))
  }

  /** A category filter on a table that has a product of that category lists it, but the listing as written fails. */
  lemma CategoryFilterFailsAsWritten(table: seq<Product>, f: Filters, sortBy: string, i: nat)
    requires i < |table| && f.category.Some? && Matches(f, table[i])
    ensures ListingAsWritten(table, f, sortBy).Failure?
    ensures table[i] in Listing(table, f, sortBy)
  {
  }

  /** The number of suggestions the search endpoint returns at most. */
  const SearchLimit: nat := 10
  /** The shortest query the search endpoint answers. */
  const MinQueryLength: nat := 2

  function Take(s: seq<Product>, n: nat): (r: seq<Product>)
    ensures |r| == if |s| <= n then |s| else n
    ensures r <= s
    ensures |s| <= n ==> r == s
    ensures forall p :: p in r ==> p in s
    ensures forall k: SortKey :: Sorted(k, s) ==> Sorted(k, r)
  {
    if |s| <= n then s else s[..n]
  }

  /**
   * Search suggestions: nothing for a query shorter than two characters, and
   * otherwise the first ten text matches, newest first.
   */
  function Search(table: seq<Product>, q: string): (r: seq<Product>)
    ensures |q| < MinQueryLength ==> r == []
    ensures |r| <= SearchLimit
    ensures |q| >= MinQueryLength ==>
      var matches := |Select(table, TextMatch(q))|;
      |r| == if matches <= SearchLimit then matches else SearchLimit
    ensures forall p :: p in r ==> p in table && (IContains(p.name, q) || IContains(p.description, q))
    ensures Sorted(NewestFirst, r)
  {
    if |q| >= MinQueryLength then
      var matched := Select(table, TextMatch(q));
      var all := SortBy(NewestFirst, matched);
      var r := Take(all, SearchLimit);
      assert forall p :: p in r ==> p in all;
      assert forall p :: p in all ==> p in matched by {
        forall p | p in all ensures p in matched {
          assert p in multiset(all);
        }
      }
      r
    else []
  }

  /**
   * The search endpoint applies the listing's text filter: its answer is the
   * first ten products of the default listing for the same search text.
   */
  lemma SearchIsListingPrefix(table: seq<Product>, q: string)
    requires |q| >= MinQueryLength
    ensures Search(table, q) == Take(Listing(table, Filters(q, None, None, None), ""), SearchLimit)
  {
  }

  /** When no more than ten products match, the suggestions are all of them. */
  lemma SearchReturnsAllFewMatches(table: seq<Product>, q: string)
    requires |q| >= MinQueryLength
    ensures |Select(table, TextMatch(q))| <= SearchLimit ==>
      forall p :: multiset(Search(table, q))[p] == if Holds(TextMatch(q), p) then multiset(table)[p] else 0
  {
  }
}
