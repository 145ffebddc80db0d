/**
 * Club search of `performSearch` / `performPageSearch` and the featured
 * list of `loadFeaturedFanclubs` (public/script.js).
 */
module Search {
  import opened Entities
  import opened JsString

  /** The search filter: the lower-cased name or description contains the
      lower-cased query. */
  predicate Matches(c: Fanclub, query: string) {
    Includes(Lower(c.name), Lower(query)) || Includes(Lower(c.description), Lower(query))
  }

  /** A club matches exactly when the lower-cased query occurs at some
      position of its lower-cased name or description. */
  lemma MatchesIff(c: Fanclub, query: string)
    ensures Matches(c, query) <==>
              (exists i :: OccursAt(Lower(c.name), Lower(query), i)) ||
              (exists i :: OccursAt(Lower(c.description), Lower(query), i))
  {
    IncludesIff(Lower(c.name), Lower(query));
    IncludesIff(Lower(c.description), Lower(query));
  }

  /** `clubs.filter(c => Matches(c, query))`: the matching clubs, each as
      often as it occurs and in the original order. */
  function FilterClubs(clubs: seq<Fanclub>, query: string): (r: seq<Fanclub>)
    ensures |r| <= |clubs|
    ensures forall c :: c in r <==> c in clubs && Matches(c, query)
    ensures (forall j :: 0 <= j < |clubs| ==> Matches(clubs[j], query)) ==> r == clubs
    decreases |clubs|
  {
    if |clubs| == 0 then []
    else if Matches(clubs[0], query) then [clubs[0]] + FilterClubs(clubs[1..], query)
    else FilterClubs(clubs[1..], query)
  }

  /** Filtering distributes over concatenation, so the results keep the
      order the clubs were listed in. */
  lemma {:induction false} FilterAppend(a: seq<Fanclub>, b: seq<Fanclub>, query: string)
    ensures FilterClubs(a + b, query) == FilterClubs(a, query) + FilterClubs(b, query)
    decreases |a|
  {
    if |a| == 0 {
      assert a + b == b;
    } else {
      var ab := a + b;
      assert ab[0] == a[0] && ab[1..] == a[1..] + b;
      FilterAppend(a[1..], b, query);
      var rest := FilterClubs(a[1..], query);
      if Matches(a[0], query) {
        calc {
          FilterClubs(ab, query);
          [a[0]] + FilterClubs(ab[1..], query);
          [a[0]] + (rest + FilterClubs(b, query));
          ([a[0]] + rest) + FilterClubs(b, query);
          FilterClubs(a, query) + FilterClubs(b, query);
        }
      } else {
        assert FilterClubs(ab, query) == FilterClubs(ab[1..], query);
        assert FilterClubs(a, query) == rest;
      }
    }
  }

  /** The query is compared case-insensitively: the case of the query's
      ASCII letters does not change the result. */
  lemma {:induction false} FilterIgnoresQueryCase(clubs: seq<Fanclub>, q1: string, q2: string)
    requires Lower(q1) == Lower(q2)
    ensures FilterClubs(clubs, q1) == FilterClubs(clubs, q2)
    decreases |clubs|
  {
    if |clubs| > 0 {
      FilterIgnoresQueryCase(clubs[1..], q1, q2);
    }
  }

  /** What a search does with the page, given the reply of `getFanclubs`. */
  datatype SearchOutcome =
    | Unchanged                                     // nothing happens
    | ShowAll                                       // `loadAllFanclubs()`
    | ShowResults(results: seq<Fanclub>, query: string)
    | Failed(toast: string)

  const SearchFailed := "検索に失敗しました"

  /** `performSearch` (header box) and `performPageSearch` (search page):
      a blank query does nothing in the first and reloads the full list in
      the second; otherwise the results are the clubs matching the trimmed
      query; a failed reply leaves the page alone and a thrown call shows
      an error. */
  function SearchResult(input: string, fromSearchPage: bool, reply: Reply<seq<Fanclub>>): (o: SearchOutcome)
    ensures Trim(input) == [] ==> o == (if fromSearchPage then ShowAll else Unchanged)
    ensures Trim(input) != [] && reply.Ok? ==>
              o.ShowResults? && o.query == Trim(input) &&
              (forall c :: c in o.results <==> c in reply.value && Matches(c, Trim(input)))
    ensures Trim(input) != [] && reply.Ok? ==> o.results == FilterClubs(reply.value, Trim(input))
    ensures Trim(input) != [] && reply.Err? ==> o == Unchanged
    ensures Trim(input) != [] && reply.Threw? ==> o == Failed(SearchFailed)
  {
    var query := Trim(input);
    if query == [] then (if fromSearchPage then ShowAll else Unchanged)
    else match reply
      case Ok(all) => ShowResults(FilterClubs(all, query), query)
      case Err(_) => Unchanged
      case Threw => Failed(SearchFailed)
  }

  /** Surrounding whitespace in the query does not change the results. */
  lemma SearchIgnoresPadding(input: string, fromSearchPage: bool, reply: Reply<seq<Fanclub>>)
    ensures SearchResult(Trim(input), fromSearchPage, reply) == SearchResult(input, fromSearchPage, reply)
  {
    TrimIdempotent(input);
  }

  const FeaturedCount := 6

  /** `loadFeaturedFanclubs`: the first six clubs of a successful reply, in
      order; nothing when the reply failed or threw. */
  function Featured(reply: Reply<seq<Fanclub>>): (r: seq<Fanclub>)
    ensures |r| <= FeaturedCount
    ensures reply.Ok? ==> r <= reply.value && |r| == (if |reply.value| < FeaturedCount then |reply.value| else FeaturedCount)
    ensures !reply.Ok? ==> r == []
  {
    match reply
    case Ok(clubs) => if |clubs| > 0 then clubs[..if |clubs| < FeaturedCount then |clubs| else FeaturedCount] else []
    case _ => []
  }

  /** A featured club is one of the first six clubs of the reply. */
  lemma FeaturedAreFirst(reply: Reply<seq<Fanclub>>, c: Fanclub)
    requires c in Featured(reply)
    ensures reply.Ok? && exists j :: 0 <= j < FeaturedCount && j < |reply.value| && reply.value[j] == c
  {
    var r := Featured(reply);
    var j :| 0 <= j < |r| && r[j] == c;
    assert reply.value[j] == c;
  }
}
