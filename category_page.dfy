/**
 * The category listing: the category filter, the price-band filter, the
 * in-place sort of `fetchCategoryProducts`, and the page title. Prices are
 * integer cents, so the dollar bands 25, 50 and 100 become 2500, 5000 and
 * 10000.
 */
module CategoryPage {

  import opened Optional
  import opened Seqs
  import opened Text

  /** A product as the catalogue lists it; `createdAt` is a timestamp. */
  datatype Listing = Listing(name: string, category: string, price: nat, createdAt: int)

  /** `category && category !== 'all'`: a route category that narrows the listing. */
  predicate Narrows(category: Option<string>)
  {
    category.Some? && category.value != [] && category.value != "all"
  }

  predicate SameCategory(p: Listing, category: string)
  {
    ToLower(p.category) == ToLower(category)
  }

  /** The category step: when the route names a category, keep the products of that category, ignoring ASCII case. */
  function ByCategory(products: seq<Listing>, category: Option<string>): seq<Listing>
  {
    if Narrows(category) then Filter(products, (p: Listing) => SameCategory(p, category.value))
    else products
  }

  /** Whether a price lies in a named band; an unknown band name, or 'all', holds every price. */
  predicate InBand(price: nat, range: string)
  {
    if range == "under-25" then price < 2500
    else if range == "25-50" then 2500 <= price <= 5000
    else if range == "50-100" then 5000 <= price <= 10000
    else if range == "over-100" then price > 10000
    else true
  }

  /** The price-range step. */
  function ByPriceRange(products: seq<Listing>, range: string): seq<Listing>
  {
    if range == "all" then products else Filter(products, (p: Listing) => InBand(p.price, range))
  }

  /** The two filters in the order the page applies them. */
  function Filtered(products: seq<Listing>, category: Option<string>, range: string): seq<Listing>
  {
    ByPriceRange(ByCategory(products, category), range)
  }

  /** The keys of the four sorts; `nameRank` stands for the locale's collation order of names. */
  function SortKey(sortBy: string, nameRank: string -> int): Option<Listing -> int>
  {
    if sortBy == "price-low" then Some((p: Listing) => p.price as int)
    else if sortBy == "price-high" then Some((p: Listing) => -(p.price as int))
    else if sortBy == "name" then Some((p: Listing) => nameRank(p.name))
    else if sortBy == "newest" then Some((p: Listing) => -p.createdAt)
    else None
  }

  predicate SortedBy(s: seq<Listing>, key: Listing -> int)
  {
    forall i, j :: 0 <= i < j < |s| ==> key(s[i]) <= key(s[j])
  }

  /** The first `n` entries of `s` are in key order. */
  predicate SortedPrefix(s: seq<Listing>, n: nat, key: Listing -> int)
    requires n <= |s|
  {
    forall x, y :: 0 <= x < y < n ==> key(s[x]) <= key(s[y])
  }

  lemma SwapKeepsMultiset(s: seq<Listing>, i: nat)
    requires i + 1 < |s|
    ensures multiset(s[i := s[i + 1]][i + 1 := s[i]]) == multiset(s)
  {
    var t := s[i := s[i + 1]];
    assert multiset(t) == multiset(s) - multiset{s[i]} + multiset{s[i + 1]};
    assert multiset(t[i + 1 := s[i]]) == multiset(t) - multiset{s[i + 1]} + multiset{s[i]};
  }

  /** While `a[i]` sinks to position `j`: the rest of `a[..i + 1]` is in order and larger entries lie right of `j`. */
  predicate Sinking(s: seq<Listing>, j: nat, i: nat, key: Listing -> int)
    requires j <= i < |s|
  {
    && (forall x, y :: 0 <= x < y <= i && x != j && y != j ==> key(s[x]) <= key(s[y]))
    && (forall y :: j < y <= i ==> key(s[j]) < key(s[y]))
  }

  lemma SinkStep(s: seq<Listing>, j: nat, i: nat, key: Listing -> int)
    requires 0 < j <= i < |s| && Sinking(s, j, i, key) && key(s[j - 1]) > key(s[j])
    ensures Sinking(s[j - 1 := s[j]][j := s[j - 1]], j - 1, i, key)
  {
  }

  lemma SinkDone(s: seq<Listing>, j: nat, i: nat, key: Listing -> int)
    requires j <= i < |s| && Sinking(s, j, i, key)
    requires j == 0 || key(s[j - 1]) <= key(s[j])
    ensures SortedPrefix(s, i + 1, key)
  {
  }

  /** One step of the sort: sinks `a[i]` into the sorted prefix `a[..i]`. */
  method InsertInto(a: array<Listing>, i: nat, key: Listing -> int)
    requires i < a.Length && SortedPrefix(a[..], i, key)
    modifies a
    ensures SortedPrefix(a[..], i + 1, key)
    ensures multiset(a[..]) == multiset(old(a[..]))
    ensures a[i + 1..] == old(a[i + 1..])
  {
    var j := i;
    while j > 0 && key(a[j - 1]) > key(a[j])
      invariant 0 <= j <= i
      invariant Sinking(a[..], j, i, key)
      invariant multiset(a[..]) == multiset(old(a[..]))
      invariant a[i + 1..] == old(a[i + 1..])
    {
      ghost var before := a[..];
      a[j - 1], a[j] := a[j], a[j - 1];
      assert a[..] == before[j - 1 := before[j]][j := before[j - 1]];
      SwapKeepsMultiset(before, j - 1);
      SinkStep(before, j, i, key);
      j := j - 1;
    }
    SinkDone(a[..], j, i, key);
  }

  /** `Array.prototype.sort` with a comparator that compares keys: an insertion sort in place. */
  method SortByKey(a: array<Listing>, key: Listing -> int)
    modifies a
    ensures SortedBy(a[..], key)
    ensures multiset(a[..]) == multiset(old(a[..]))
  {
    var i := 0;
    while i < a.Length
      invariant i <= a.Length
      invariant SortedPrefix(a[..], i, key)
      invariant multiset(a[..]) == multiset(old(a[..]))
    {
      InsertInto(a, i, key);
      i := i + 1;
    }
  }

  /**
   * The listing `fetchCategoryProducts` hands to the page: the filtered
   * products, sorted in place when `sortBy` names a sort and in catalogue
   * order otherwise ('featured').
   */
  method FetchCategoryProducts(products: seq<Listing>, category: Option<string>, range: string,
                               sortBy: string, nameRank: string -> int)
    returns (shown: seq<Listing>)
    ensures multiset(shown) == multiset(Filtered(products, category, range))
    ensures SortKey(sortBy, nameRank).Some? ==> SortedBy(shown, SortKey(sortBy, nameRank).value)
    ensures SortKey(sortBy, nameRank).None? ==> shown == Filtered(products, category, range)
  {
    var filtered := products;
    filtered := ByCategory(filtered, category);
    filtered := ByPriceRange(filtered, range);
    var key := SortKey(sortBy, nameRank);
    if key.Some? {
      var a := new Listing[|filtered|](i requires 0 <= i < |filtered| => filtered[i]);
      assert a[..] == filtered;
      SortByKey(a, key.value);
      shown := a[..];
    } else {
      shown := filtered;
    }
  }

  // ---- properties of the filters ----

  /** With a narrowing category, a product is listed exactly as often as it occurs when its category matches, and not at all otherwise; order is kept. */
  lemma ByCategoryExact(products: seq<Listing>, category: Option<string>, p: Listing)
    ensures multiset(ByCategory(products, category))[p]
         == if Narrows(category) ==> SameCategory(p, category.value) then multiset(products)[p] else 0
    ensures p in ByCategory(products, category)
        <==> p in products && (Narrows(category) ==> SameCategory(p, category.value))
    ensures IsSubsequence(ByCategory(products, category), products)
  {
    if Narrows(category) {
      var keep := (q: Listing) => SameCategory(q, category.value);
      FilterIsSubsequence(products, keep);
      FilterCount(products, keep, p);
    } else {
      SubsequenceReflexive(products);
    }
  }

  /** A product passes the price step as often as it occurs when its price is in the band, and never otherwise; order is kept. */
  lemma ByPriceRangeExact(products: seq<Listing>, range: string, p: Listing)
    ensures multiset(ByPriceRange(products, range))[p] == if InBand(p.price, range) then multiset(products)[p] else 0
    ensures p in ByPriceRange(products, range) <==> p in products && InBand(p.price, range)
    ensures IsSubsequence(ByPriceRange(products, range), products)
  {
    if range == "all" {
      SubsequenceReflexive(products);
    } else {
      var keep := (q: Listing) => InBand(q.price, range);
      FilterIsSubsequence(products, keep);
      FilterCount(products, keep, p);
    }
  }

  /** The whole filter keeps each matching product as often as it occurs and drops the rest, as an order-preserving subsequence. */
  lemma FilteredExact(products: seq<Listing>, category: Option<string>, range: string, p: Listing)
    ensures multiset(Filtered(products, category, range))[p]
         == if (Narrows(category) ==> SameCategory(p, category.value)) && InBand(p.price, range)
            then multiset(products)[p] else 0
    ensures p in Filtered(products, category, range)
        <==> p in products && (Narrows(category) ==> SameCategory(p, category.value)) && InBand(p.price, range)
    ensures IsSubsequence(Filtered(products, category, range), products)
  {
    var c := ByCategory(products, category);
    ByCategoryExact(products, category, p);
    ByPriceRangeExact(c, range, p);
    SubsequenceTransitive(Filtered(products, category, range), c, products);
  }

  /** Every price lies in some band, and of the six pairs of bands only 25-50 and 50-100 share a price: 50 dollars. */
  lemma BandsOverlapOnlyAtFifty(price: nat)
    ensures InBand(price, "under-25") || InBand(price, "25-50") || InBand(price, "50-100") || InBand(price, "over-100")
    ensures InBand(price, "25-50") && InBand(price, "50-100") <==> price == 5000
    ensures !(InBand(price, "under-25") && InBand(price, "25-50"))
    ensures !(InBand(price, "under-25") && InBand(price, "50-100"))
    ensures !(InBand(price, "under-25") && InBand(price, "over-100"))
    ensures !(InBand(price, "25-50") && InBand(price, "over-100"))
    ensures !(InBand(price, "50-100") && InBand(price, "over-100"))
  {
  }

  // ---- the title ----

  /** `split('-')` */
  function SplitOnDash(s: string): (r: seq<string>)
    ensures |r| >= 1
    decreases |s|
  {
    var i := IndexOf(s, '-');
    if i == |s| then [s] else [s[..i]] + SplitOnDash(s[i + 1..])
  }

  /** `word.charAt(0).toUpperCase() + word.slice(1)` */
  function Capitalize(w: string): (r: string)
    ensures |r| == |w|
  {
    if w == [] then [] else [UpperChar(w[0])] + w[1..]
  }

  /** `.map(capitalize).join(' ')` */
  function JoinCapitalized(words: seq<string>): string
    requires |words| >= 1
  {
    if |words| == 1 then Capitalize(words[0]) else Capitalize(words[0]) + " " + JoinCapitalized(words[1..])
  }

  /** `getCategoryTitle()` */
  function CategoryTitle(category: Option<string>): string
  {
    if !Narrows(category) then "All Products" else JoinCapitalized(SplitOnDash(category.value))
  }

  /** What the title shows at position `i` of the route category. */
  function TitleChar(s: string, i: nat): char
    requires i < |s|
  {
    if s[i] == '-' then ' ' else if i == 0 || s[i - 1] == '-' then UpperChar(s[i]) else s[i]
  }

  /** The title turns every dash into a space and capitalizes the first letter of every word, and nothing else. */
  lemma {:induction false} TitleIsPointwise(s: string)
    ensures |JoinCapitalized(SplitOnDash(s))| == |s|
    ensures forall i :: 0 <= i < |s| ==> JoinCapitalized(SplitOnDash(s))[i] == TitleChar(s, i)
    decreases |s|
  {
    var i := IndexOf(s, '-');
    if i < |s| {
      var w, rest := s[..i], s[i + 1..];
      TitleIsPointwise(rest);
      var t := JoinCapitalized(SplitOnDash(s));
      var tr := JoinCapitalized(SplitOnDash(rest));
      assert SplitOnDash(s)[1..] == SplitOnDash(rest);
      assert t == Capitalize(w) + " " + tr;
      forall k | 0 <= k < |s| ensures t[k] == TitleChar(s, k) {
        if k > i {
          assert t[k] == tr[k - i - 1];
          assert rest[k - i - 1] == s[k];
          if k - i - 1 > 0 {
            assert rest[k - i - 2] == s[k - 1];
          }
        } else if k < i && k > 0 {
          assert t[k] == w[k];
        }
      }
    }
  }

  /** Joining the words with dashes again gives back the route category. */
  function JoinDashes(words: seq<string>): string
    requires |words| >= 1
  {
    if |words| == 1 then words[0] else words[0] + "-" + JoinDashes(words[1..])
  }

  lemma {:induction false} SplitJoinRoundTrip(s: string)
    ensures JoinDashes(SplitOnDash(s)) == s
    decreases |s|
  {
    var i := IndexOf(s, '-');
    var ws := SplitOnDash(s);
    if i < |s| {
      var rest := s[i + 1..];
      var tail := SplitOnDash(rest);
      SplitJoinRoundTrip(rest);
      assert ws == [s[..i]] + tail;
      assert |ws| >= 2 && ws[0] == s[..i] && ws[1..] == tail;
      calc {
        JoinDashes(ws);
        s[..i] + "-" + JoinDashes(tail);
        s[..i] + "-" + rest;
        s;
      }
    } else {
      assert ws == [s];
    }
  }

  predicate NoDash(w: string)
  {
    forall j :: 0 <= j < |w| ==> w[j] != '-'
  }

  lemma {:induction false} SplitWordsHaveNoDash(s: string)
    ensures forall k :: 0 <= k < |SplitOnDash(s)| ==> NoDash(SplitOnDash(s)[k])
    decreases |s|
  {
    var i := IndexOf(s, '-');
    var ws := SplitOnDash(s);
    assert NoDash(s[..i]);
    if i < |s| {
      SplitWordsHaveNoDash(s[i + 1..]);
      assert ws[1..] == SplitOnDash(s[i + 1..]);
      forall k | 0 < k < |ws| ensures NoDash(ws[k]) {
        assert ws[k] == ws[1..][k - 1];
      }
    }
  }

  lemma AllProductsTitle()
    ensures CategoryTitle(Some("all")) == "All Products"
    ensures CategoryTitle(None) == "All Products"
    ensures CategoryTitle(Some("")) == "All Products"
  {
  }

}
