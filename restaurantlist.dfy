/** The restaurant directory of src/pages/RestaurantList.tsx: the search
    over name and cuisine, the cuisine filter and the list of cuisines
    offered. Lower-casing is ASCII only. */
module RestaurantList {
  import opened Common
  import opened Records

  /** The search test: the lower-cased name or cuisine contains the
      lower-cased query. */
  predicate MatchesQuery(r: Restaurant, query: string) {
    Includes(Lowercase(r.name), Lowercase(query)) || Includes(Lowercase(r.cuisineType), Lowercase(query))
  }

  function QueryFilter(query: string): Restaurant -> bool {
    (r: Restaurant) => MatchesQuery(r, query)
  }

  function CuisineFilter(cuisine: string): Restaurant -> bool {
    (r: Restaurant) => r.cuisineType == cuisine
  }

  /** `filterRestaurants`: the search applies only for a non-empty query,
      the cuisine filter only for a choice other than 'All'. */
  function FilterRestaurants(restaurants: seq<Restaurant>, query: string, cuisine: string): seq<Restaurant> {
    var searched := if query != "" then Filter(restaurants, QueryFilter(query)) else restaurants;
    if cuisine != "All" then Filter(searched, CuisineFilter(cuisine)) else searched
  }

  /** A restaurant is shown iff it passes the search (when there is a
      query) and has exactly the chosen cuisine (when one is chosen); the
      result keeps the directory's order. */
  lemma FilterRestaurantsSpec(restaurants: seq<Restaurant>, query: string, cuisine: string, r: Restaurant)
    ensures r in FilterRestaurants(restaurants, query, cuisine) <==>
              r in restaurants && (query == "" || MatchesQuery(r, query)) && (cuisine == "All" || r.cuisineType == cuisine)
    ensures IsSubsequence(FilterRestaurants(restaurants, query, cuisine), restaurants)
    ensures query == "" && cuisine == "All" ==> FilterRestaurants(restaurants, query, cuisine) == restaurants
  {
    var searched := if query != "" then Filter(restaurants, QueryFilter(query)) else restaurants;
    FilterMembers(restaurants, QueryFilter(query), r);
    FilterMembers(searched, CuisineFilter(cuisine), r);
    FilterIsSubsequence(restaurants, QueryFilter(query));
    FilterIsSubsequence(searched, CuisineFilter(cuisine));
    SubsequenceReflexive(restaurants);
    if cuisine != "All" {
      if query != "" {
        SubsequenceTrans(Filter(searched, CuisineFilter(cuisine)), searched, restaurants);
      }
    }
  }

  lemma {:induction false} SubsequenceReflexive<T>(s: seq<T>)
    ensures IsSubsequence(s, s)
  {
    if s != [] {
      SubsequenceReflexive(s[1..]);
    }
  }

  /** A restaurant matches the search by its own name, whatever its case. */
  lemma NameMatchesItself(r: Restaurant)
    ensures MatchesQuery(r, r.name)
  {
    IncludesAt(Lowercase(r.name), Lowercase(r.name), 0);
    assert Lowercase(r.name)[0..|Lowercase(r.name)|] == Lowercase(r.name);
  }

  function Cuisines(restaurants: seq<Restaurant>): (r: seq<string>)
    ensures |r| == |restaurants| && forall i :: 0 <= i < |r| ==> r[i] == restaurants[i].cuisineType
  {
    if restaurants == [] then [] else [restaurants[0].cuisineType] + Cuisines(restaurants[1..])
  }

  /** `cuisineTypes`. */
  function CuisineTypes(restaurants: seq<Restaurant>): seq<string> {
    ["All"] + Distinct(Cuisines(restaurants))
  }

  /** 'All' comes first, then every cuisine of the directory once, in order
      of first appearance. */
  lemma CuisineTypesSpec(restaurants: seq<Restaurant>, c: string)
    ensures CuisineTypes(restaurants)[0] == "All"
    ensures c in CuisineTypes(restaurants)[1..] <==> exists r :: r in restaurants && r.cuisineType == c
    ensures NoDuplicates(CuisineTypes(restaurants)[1..])
    ensures forall x :: x in CuisineTypes(restaurants)[1..] ==> x in Cuisines(restaurants)
    ensures var d := CuisineTypes(restaurants)[1..];
            forall i, j :: 0 <= i < j < |d| ==> FirstIndex(Cuisines(restaurants), d[i]) < FirstIndex(Cuisines(restaurants), d[j])
  {
    var cs := Cuisines(restaurants);
    DistinctSpec(cs);
    assert CuisineTypes(restaurants)[1..] == Distinct(cs);
    if c in cs {
      var k :| 0 <= k < |cs| && cs[k] == c;
      assert restaurants[k] in restaurants;
    }
  }
}
