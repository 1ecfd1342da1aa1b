/**
 * The Search page: the entity filter behind `handleSearch`, the page state it
 * updates, the type classifiers and the tag list shown on each card.
 */
module Search {
  import opened Text

  // ---------------------------------------------------------------------------
  // Entities
  // ---------------------------------------------------------------------------

  datatype Entity = Entity(
    id: nat,
    name: string,
    entityType: string,
    image: string,
    description: string,
    tags: seq<string>,
    popularity: nat)

  // The three entries of `mockEntities`; names and tags are named separately
  // because the examples below reason about their letters.

  const NolanName: string := "Christopher Nolan"
  const NolanTags: seq<string> := ["Sci-Fi", "Thriller", "Complex Narratives", "IMAX"]
  const Nolan: Entity := Entity(
    1, NolanName, "filmmaker",
    "https://images.unsplas" + "h.com/photo-1560179707" + "-f14e90ef3623?w=300&h=" +
    "300&fit=crop&crop=face",
    "Renowned director " + "known for " + "mind-bending " + "narratives and " +
    "complex storytelling",
    NolanTags, 95)

  const SwiftName: string := "Taylor Swift"
  const SwiftTags: seq<string> := ["Pop", "Country", "Singer-Songwriter", "Albums"]
  const Swift: Entity := Entity(
    2, SwiftName, "musician",
    "https://images.unsplas" + "h.com/photo-1493225457" + "124-a3eb161ffa5f?w=300" +
    "&h=300&fit=crop&crop=f" + "ace",
    "Global pop superstar " + "and prolific " + "songwriter",
    SwiftTags, 98)

  const InceptionName: string := "Inception"
  const InceptionTags: seq<string> := ["Sci-Fi", "Thriller", "Leonardo DiCaprio", "Dreams"]
  const Inception: Entity := Entity(
    3, InceptionName, "movie",
    "https://images.unsplas" + "h.com/photo-1489599833" + "698-696d04d3b503?w=300" +
    "&h=300&fit=crop",
    "Mind-bending sci-fi " + "thriller about dreams " + "within dreams",
    InceptionTags, 92)

  /** `mockEntities`, the whole catalogue the page searches. */
  const MockEntities: seq<Entity> := [Nolan, Swift, Inception]

  // ---------------------------------------------------------------------------
  // The filter
  // ---------------------------------------------------------------------------

  /** Some tag of `e`, lower-cased, contains the lower-cased query. */
  predicate SomeTagMatches(e: Entity, query: string) {
    exists tag | tag in e.tags :: Includes(Lower(tag), Lower(query))
  }

  /** The filter's predicate: the query occurs, ignoring case, in the name or in a tag. */
  predicate Matches(e: Entity, query: string) {
    Includes(Lower(e.name), Lower(query)) || SomeTagMatches(e, query)
  }

  /** `entities.filter(entity => Matches(entity, query))`. */
  function FilterEntities(entities: seq<Entity>, query: string): (r: seq<Entity>)
    ensures |r| <= |entities|
  {
    if entities == [] then []
    else (if Matches(entities[0], query) then [entities[0]] else []) + FilterEntities(entities[1..], query)
  }

  /** The results `handleSearch` stores: the catalogue itself for an empty query. */
  function SearchResults(query: string): seq<Entity>
  {
    if query != "" then FilterEntities(MockEntities, query) else MockEntities
  }

  /** `xs` is `ys` with some elements left out and the rest in their order. */
  predicate IsSubsequence<T(==)>(xs: seq<T>, ys: seq<T>)
    decreases |ys|
  {
    xs == [] || (ys != [] && ((xs[0] == ys[0] && IsSubsequence(xs[1..], ys[1..])) || IsSubsequence(xs, ys[1..])))
  }

  /** An entity is in the results exactly when it is in the list and matches. */
  lemma {:induction false} FilterMembership(entities: seq<Entity>, query: string, e: Entity)
    ensures e in FilterEntities(entities, query) <==> e in entities && Matches(e, query)
  {
    if entities != [] {
      FilterMembership(entities[1..], query, e);
      assert entities == [entities[0]] + entities[1..];
    }
  }

  /** Each entity occurs in the results as often as in the list if it matches, and never otherwise. */
  lemma {:induction false} FilterCounts(entities: seq<Entity>, query: string, e: Entity)
    ensures multiset(FilterEntities(entities, query))[e]
            == if Matches(e, query) then multiset(entities)[e] else 0
  {
    if entities != [] {
      FilterCounts(entities[1..], query, e);
      assert entities == [entities[0]] + entities[1..];
    }
  }

  /** The results keep the order of the list. */
  lemma {:induction false} FilterIsSubsequence(entities: seq<Entity>, query: string)
    ensures IsSubsequence(FilterEntities(entities, query), entities)
  {
    if entities != [] {
      FilterIsSubsequence(entities[1..], query);
      var rest := FilterEntities(entities[1..], query);
      if Matches(entities[0], query) {
        assert FilterEntities(entities, query) == [entities[0]] + rest;
        assert ([entities[0]] + rest)[1..] == rest;
      } else {
        assert FilterEntities(entities, query) == rest;
      }
    }
  }

  /** A subsequence holds no element more often than the sequence it is taken from. */
  lemma {:induction false} SubsequenceCounts<T>(xs: seq<T>, ys: seq<T>)
    requires IsSubsequence(xs, ys)
    ensures multiset(xs) <= multiset(ys)
    decreases |ys|
  {
    if xs != [] {
      assert ys == [ys[0]] + ys[1..];
      if xs[0] == ys[0] && IsSubsequence(xs[1..], ys[1..]) {
        SubsequenceCounts(xs[1..], ys[1..]);
        assert xs == [xs[0]] + xs[1..];
      } else {
        SubsequenceCounts(xs, ys[1..]);
      }
    }
  }

  /** No entity occurs in the results more often than in the list. */
  lemma FilterAddsNothing(entities: seq<Entity>, query: string)
    ensures multiset(FilterEntities(entities, query)) <= multiset(entities)
  {
    FilterIsSubsequence(entities, query);
    SubsequenceCounts(FilterEntities(entities, query), entities);
  }

  /** Queries that differ only in case give the same results. */
  lemma {:induction false} FilterIgnoresQueryCase(entities: seq<Entity>, q1: string, q2: string)
    requires SameUpToCase(q1, q2)
    ensures FilterEntities(entities, q1) == FilterEntities(entities, q2)
  {
    SameUpToCaseLower(q1, q2);
    if entities != [] {
      FilterIgnoresQueryCase(entities[1..], q1, q2);
    }
  }

  /** The empty query matches everything, so the filter alone would give the same list. */
  lemma {:induction false} FilterEmptyQuery(entities: seq<Entity>)
    ensures FilterEntities(entities, "") == entities
  {
    if entities != [] {
      IncludesEmpty(Lower(entities[0].name));
      assert Lower("") == "";
      FilterEmptyQuery(entities[1..]);
      assert entities == [entities[0]] + entities[1..];
    }
  }

  /** Whatever the branch, the stored results are the catalogue filtered by the query. */
  lemma SearchResultsAreFiltered(query: string)
    ensures SearchResults(query) == FilterEntities(MockEntities, query)
    ensures query == "" ==> SearchResults(query) == MockEntities
  {
    if query == "" {
      FilterEmptyQuery(MockEntities);
    }
  }

  // The catalogue searched for the popular-search terms. Each example is stated
  // for a `query` equal to the literal so that the solver reasons about its parts.

  /** Neither case of the letter `c` occurs in the name or in any of the tags. */
  predicate EntryLacks(name: string, tags: seq<string>, c: char, C: char)
  {
    LacksLetter(name, c, C) && forall i :: 0 <= i < |tags| ==> LacksLetter(tags[i], c, C)
  }

  /** An entity that lacks a letter of the query does not match it. */
  lemma NoMatchWithout(e: Entity, query: string, k: nat, c: char, C: char)
    requires k < |query| && LowerChar(query[k]) == c
    requires EntryLacks(e.name, e.tags, c, C)
    ensures !Matches(e, query)
  {
    assert Lower(query)[k] == c;
    NotIncludesLetter(e.name, Lower(query), c, C);
    forall tag | tag in e.tags
      ensures !Includes(Lower(tag), Lower(query))
    {
      var i :| 0 <= i < |e.tags| && e.tags[i] == tag;
      assert LacksLetter(e.tags[i], c, C);
      NotIncludesLetter(tag, Lower(query), c, C);
    }
  }

  // Letters missing from the catalogue's entries, used by the examples below.

  lemma NolanLacks(c: char, C: char)
    requires (c, C) == ('y', 'Y') || (c, C) == ('g', 'G')
    ensures EntryLacks(NolanName, NolanTags, c, C)
  {
    assert LacksLetter(NolanName, c, C);
    assert LacksLetter(NolanTags[0], c, C) && LacksLetter(NolanTags[1], c, C) by {
      assert NolanTags[0] == "Sci-Fi" && NolanTags[1] == "Thriller";
    }
    assert LacksLetter(NolanTags[2], c, C) by {
      assert NolanTags[2] == "Complex Narratives";
    }
    assert LacksLetter(NolanTags[3], c, C) by {
      assert NolanTags[3] == "IMAX";
    }
  }

  lemma SwiftLacks(c: char, C: char)
    requires (c, C) == ('h', 'H') || (c, C) == ('x', 'X')
    ensures EntryLacks(SwiftName, SwiftTags, c, C)
  {
    assert LacksLetter(SwiftName, c, C);
    assert LacksLetter(SwiftTags[0], c, C) && LacksLetter(SwiftTags[1], c, C) by {
      assert SwiftTags[0] == "Pop" && SwiftTags[1] == "Country";
    }
    assert LacksLetter(SwiftTags[2], c, C) by {
      assert SwiftTags[2] == "Singer-Songwriter";
    }
    assert LacksLetter(SwiftTags[3], c, C) by {
      assert SwiftTags[3] == "Albums";
    }
  }

  lemma InceptionLacks(c: char, C: char)
    requires (c, C) == ('y', 'Y') || (c, C) == ('g', 'G')
    ensures EntryLacks(InceptionName, InceptionTags, c, C)
  {
    assert LacksLetter(InceptionName, c, C);
    assert LacksLetter(InceptionTags[0], c, C) && LacksLetter(InceptionTags[1], c, C) by {
      assert InceptionTags[0] == "Sci-Fi" && InceptionTags[1] == "Thriller";
    }
    assert LacksLetter(InceptionTags[2], c, C) by {
      assert InceptionTags[2] == "Leonardo DiCaprio";
    }
    assert LacksLetter(InceptionTags[3], c, C) by {
      assert InceptionTags[3] == "Dreams";
    }
  }

  /** The filter over the three-entity catalogue, one entity at a time. */
  lemma FilterCatalogue(query: string)
    ensures SearchResults(query) == (if query == "" || Matches(Nolan, query) then [Nolan] else [])
                                    + (if query == "" || Matches(Swift, query) then [Swift] else [])
                                    + (if query == "" || Matches(Inception, query) then [Inception] else [])
  {
    if query != "" {
      var last := [Inception];
      var rest := [Swift, Inception];
      assert [Inception][1..] == [];
      assert FilterEntities(last, query) == (if Matches(Inception, query) then last else []);
      assert rest[0] == Swift && rest[1..] == last;
      assert FilterEntities(rest, query)
             == (if Matches(Swift, query) then [Swift] else []) + FilterEntities(last, query);
      assert MockEntities[0] == Nolan && MockEntities[1..] == rest;
      assert FilterEntities(MockEntities, query)
             == (if Matches(Nolan, query) then [Nolan] else []) + FilterEntities(rest, query);
    }
  }

  lemma ExampleSearchByName(query: string)
    requires query == "Taylor Swift"
    ensures SearchResults(query) == [Swift]
  {
    NolanLacks('y', 'Y');
    InceptionLacks('y', 'Y');
    assert LowerChar(query[2]) == 'y';
    NoMatchWithout(Nolan, query, 2, 'y', 'Y');
    NoMatchWithout(Inception, query, 2, 'y', 'Y');
    assert Matches(Swift, query) by {
      assert OccursAt(Lower(Swift.name), Lower(query), 0);
    }
    FilterCatalogue(query);
  }

  lemma ExampleSearchByTag(query: string)
    requires query == "thriller"
    ensures SearchResults(query) == [Nolan, Inception]
  {
    SwiftLacks('h', 'H');
    assert LowerChar(query[1]) == 'h';
    NoMatchWithout(Swift, query, 1, 'h', 'H');
    assert Matches(Nolan, query) && Matches(Inception, query) by {
      assert Lower("Thriller") == Lower(query);
      assert OccursAt(Lower("Thriller"), Lower(query), 0);
      assert "Thriller" in Nolan.tags && "Thriller" in Inception.tags;
    }
    FilterCatalogue(query);
  }

  lemma ExampleSearchNoResults(query: string)
    requires query == "Netflix Originals"
    ensures SearchResults(query) == []
    ensures ShowsNoResults(SearchResults(query), query)
  {
    NolanLacks('g', 'G');
    SwiftLacks('x', 'X');
    InceptionLacks('g', 'G');
    assert LowerChar(query[11]) == 'g' && LowerChar(query[6]) == 'x';
    NoMatchWithout(Nolan, query, 11, 'g', 'G');
    NoMatchWithout(Swift, query, 6, 'x', 'X');
    NoMatchWithout(Inception, query, 11, 'g', 'G');
    FilterCatalogue(query);
  }

  // ---------------------------------------------------------------------------
  // Page state
  // ---------------------------------------------------------------------------

  /** The "No results" panel: nothing found for a query that is not empty. */
  predicate ShowsNoResults(results: seq<Entity>, query: string) {
    |results| == 0 && query != ""
  }

  /** The panel shows exactly when the query is not empty and no entity matches it. */
  lemma NoResultsIff(query: string)
    ensures ShowsNoResults(SearchResults(query), query)
            <==> query != "" && forall e :: e in MockEntities ==> !Matches(e, query)
  {
    if query != "" {
      var results := SearchResults(query);
      forall e | e in MockEntities
        ensures e in results <==> Matches(e, query)
      {
        FilterMembership(MockEntities, query, e);
      }
      if results != [] {
        assert results[0] in results;
        FilterMembership(MockEntities, query, results[0]);
      }
    }
  }

  /** The part of the Search page's state that `handleSearch` writes. */
  class SearchPage {
    var searchQuery: string
    var searchResults: seq<Entity>

    /** The results on display always belong to the query on display. */
    ghost predicate Valid()
      reads this
    {
      searchResults == SearchResults(searchQuery)
    }

    constructor ()
      ensures Valid()
      ensures searchQuery == "" && searchResults == MockEntities
    {
      searchQuery := "";
      searchResults := MockEntities;
    }

    /** `handleSearch`: records the raw query and replaces the results. */
    method HandleSearch(query: string)
      modifies this
      ensures Valid()
      ensures searchQuery == query
      ensures searchResults == FilterEntities(MockEntities, query)
      ensures query == "" ==> searchResults == MockEntities
      ensures NoResultsShown() <==> query != "" && forall e :: e in MockEntities ==> !Matches(e, query)
    {
      searchQuery := query;
      if query != "" {
        var filtered := FilterEntities(MockEntities, query);
        searchResults := filtered;
      } else {
        searchResults := MockEntities;
      }
      SearchResultsAreFiltered(query);
      NoResultsIff(query);
    }

    /**
     * Whether the "No results" panel is rendered: while the results belong to
     * the query, exactly when the query is not empty and no entity matches it.
     */
    predicate NoResultsShown()
      requires Valid()
      reads this
      ensures NoResultsShown() <==> searchQuery != "" && forall e :: e in MockEntities ==> !Matches(e, searchQuery)
    {
      NoResultsIff(searchQuery);
      ShowsNoResults(searchResults, searchQuery)
    }
  }

  // ---------------------------------------------------------------------------
  // Classifiers
  // ---------------------------------------------------------------------------

  datatype Icon = Film | Music | BookOpen

  /** `getEntityIcon`. */
  function EntityIcon(entityType: string): Icon
  {
    if entityType == "filmmaker" then Film
    else if entityType == "musician" then Music
    else if entityType == "movie" then Film
    else BookOpen
  }

  /** `getTypeColor`. */
  function TypeColor(entityType: string): string
  {
    if entityType == "filmmaker" then "bg-chart-1"
    else if entityType == "musician" then "bg-chart-2"
    else if entityType == "movie" then "bg-chart-3"
    else "bg-chart-4"
  }

  predicate IsKnownType(entityType: string) {
    entityType == "filmmaker" || entityType == "musician" || entityType == "movie"
  }

  /** Filmmakers and movies share the film icon; unknown types get the book icon. */
  lemma EntityIconCases(entityType: string)
    ensures EntityIcon(entityType) == Film <==> entityType == "filmmaker" || entityType == "movie"
    ensures EntityIcon(entityType) == Music <==> entityType == "musician"
    ensures EntityIcon(entityType) == BookOpen <==> !IsKnownType(entityType)
  {
  }

  /** Every known type has a colour of its own; only unknown types get the default. */
  lemma TypeColorCases(t1: string, t2: string)
    ensures IsKnownType(t1) && IsKnownType(t2) ==> (TypeColor(t1) == TypeColor(t2) <==> t1 == t2)
    ensures TypeColor(t1) == "bg-chart-4" <==> !IsKnownType(t1)
  {
  }

  // ---------------------------------------------------------------------------
  // Tags on a card
  // ---------------------------------------------------------------------------

  /** The "+N" badge after the visible tags. */
  datatype Badge = NoBadge | More(hidden: nat)

  /** `tags.slice(0, 3)`. */
  function VisibleTags(tags: seq<string>): seq<string>
  {
    if |tags| <= 3 then tags else tags[..3]
  }

  /** `tags.length > 3 && "+" + (tags.length - 3)`. */
  function TagBadge(tags: seq<string>): Badge
  {
    if |tags| > 3 then More(|tags| - 3) else NoBadge
  }

  function BadgeCount(b: Badge): nat {
    match b
    case NoBadge => 0
    case More(n) => n
  }

  /**
   * A card shows at most three tags, the first ones in order, and the badge
   * appears only when some are left out and then counts exactly those.
   */
  lemma TagDisplayAccountsForEveryTag(tags: seq<string>)
    ensures |VisibleTags(tags)| == if |tags| <= 3 then |tags| else 3
    ensures VisibleTags(tags) == tags[..|VisibleTags(tags)|]
    ensures TagBadge(tags).More? <==> |tags| > 3
    ensures |tags| > 3 ==> TagBadge(tags) == More(|tags| - 3)
    ensures |VisibleTags(tags)| + BadgeCount(TagBadge(tags)) == |tags|
  {
  }

  /** Every card of the catalogue shows three tags and a "+1" badge. */
  lemma MockCardsHideOneTag()
    ensures forall e :: e in MockEntities ==> |VisibleTags(e.tags)| == 3 && TagBadge(e.tags) == More(1)
  {
  }
}
