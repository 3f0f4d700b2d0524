/** The home page's listing grid (`frontend/app/page.tsx`): `fetchAllProperties`
    visits every property id, turns the survivors into cards, and
    `filteredProperties` narrows the cards by search text and tab. */
module Listing {
  import opened Common
  import opened Chain
  import opened Ipfs

  /** One card of the grid (`PropertyCardProps`). The price is kept in wei:
      its conversion to a floating-point ether amount is not modelled. */
  datatype PropertyCard = PropertyCard(
    id: nat,
    title: string,
    location: string,
    priceWei: nat,
    image: string,
    bedrooms: nat,
    bathrooms: nat,
    area: nat,
    isAvailable: bool,
    amenities: seq<string>,
    ipfsMetadataHash: string)

  /** What one run of `fetchAllProperties` observes: `getProperty` per id,
      `getActiveRentalIdForProperty` per id (an id missing from the map is a
      read that throws), and the metadata gateway. */
  datatype ListingReads = ListingReads(
    properties: map<nat, Read<PropertyData>>,
    activeRentalIds: map<nat, nat>,
    ipfs: IpfsEnv)

  const MissingTitle: string := "Property Title Missing"
  const PlaceholderImage: string := "/placeholder.svg"

  /** The card built from a listed property, its metadata and its active rental id. */
  function CardFor(p: PropertyData, meta: Option<Metadata>, activeRentalId: nat): PropertyCard
  {
    PropertyCard(
      p.id,
      OrElse(TitleOf(meta), MissingTitle),
      p.location,
      p.pricePerMonth,
      OrElse(ImageUrlOf(meta), PlaceholderImage),
      p.bedrooms,
      p.bathrooms,
      p.areaSqMeters,
      activeRentalId == 0,
      AmenitiesOf(meta),
      p.ipfsMetadataHash)
  }

  /** The id keeps a card: its property read returned a listed record and its
      active-rental read did not throw. */
  predicate Survives(i: nat, snap: ListingReads)
  {
    && ReadAt(snap.properties, i).Got?
    && ReadAt(snap.properties, i).value.isListed
    && i in snap.activeRentalIds
  }

  /** The async closure run for id `i`; every failure inside it becomes `null`. */
  function AssembleEntry(i: nat, snap: ListingReads): (r: Option<PropertyCard>)
    ensures r.Some? <==> Survives(i, snap)
  {
    match ReadAt(snap.properties, i)
    case Threw => None
    case Null => None
    case Got(p) =>
      if !p.isListed then None
      else
        var meta := FetchMetadata(snap.ipfs, Some(p.ipfsMetadataHash));
        if i !in snap.activeRentalIds then None
        else Some(CardFor(p, meta, snap.activeRentalIds[i]))
  }

  /** Availability and the placeholders of a card built for a surviving id. */
  lemma EntryContents(i: nat, snap: ListingReads)
    requires Survives(i, snap)
    ensures var p := ReadAt(snap.properties, i).value;
            var c := AssembleEntry(i, snap).value;
            && c.id == p.id && c.location == p.location && c.ipfsMetadataHash == p.ipfsMetadataHash
            && (c.isAvailable <==> snap.activeRentalIds[i] == 0)
            && (FetchMetadata(snap.ipfs, Some(p.ipfsMetadataHash)).None? ==>
                  c.title == MissingTitle && c.image == PlaceholderImage && c.amenities == [])
  {
  }

  /** A document whose title and image are missing or empty, or whose
      amenities are not an array, gets the same placeholders. */
  lemma CardPlaceholders(p: PropertyData, meta: Metadata, activeRentalId: nat)
    ensures !Truthy(meta.title) ==> CardFor(p, Some(meta), activeRentalId).title == MissingTitle
    ensures Truthy(meta.title) ==> CardFor(p, Some(meta), activeRentalId).title == meta.title.value
    ensures !Truthy(meta.imageUrl) ==> CardFor(p, Some(meta), activeRentalId).image == PlaceholderImage
    ensures meta.amenities.None? ==> CardFor(p, Some(meta), activeRentalId).amenities == []
  {
  }

  /** `results` of `Promise.all` over the ids `1..n`, in id order. */
  function Results(n: nat, snap: ListingReads): (rs: seq<Option<PropertyCard>>)
    ensures |rs| == n
    ensures forall k :: 0 <= k < n ==> rs[k] == AssembleEntry(k + 1, snap)
  {
    if n == 0 then [] else Results(n - 1, snap) + [AssembleEntry(n, snap)]
  }

  /** The cards `fetchAllProperties` stores when `getTotalProperties` returned `n`. */
  function Listing(n: nat, snap: ListingReads): seq<PropertyCard>
  {
    Somes(Results(n, snap))
  }

  /** The loop of `fetchAllProperties` over `1..totalProperties`, one entry per id. */
  method FetchResults(totalProperties: nat, snap: ListingReads) returns (results: seq<Option<PropertyCard>>)
    ensures |results| == totalProperties
    ensures forall k :: 0 <= k < totalProperties ==> results[k] == AssembleEntry(k + 1, snap)
  {
    results := [];
    var i := 1;
    while i <= totalProperties
      invariant 1 <= i <= totalProperties + 1
      invariant results == Results(i - 1, snap)
    {
      results := results + [AssembleEntry(i, snap)];
      i := i + 1;
    }
  }

  /** A card is in the listing exactly when it is the card of some surviving
      id in `1..n`. */
  lemma {:induction false} ListingMembers(n: nat, snap: ListingReads, c: PropertyCard)
    ensures c in Listing(n, snap) <==> exists i :: 1 <= i <= n && AssembleEntry(i, snap) == Some(c)
  {
    var rs := Results(n, snap);
    if c in Listing(n, snap) {
      var j :| 0 <= j < |Listing(n, snap)| && Listing(n, snap)[j] == c;
      var k :| 0 <= k < |rs| && rs[k] == Some(c);
      assert AssembleEntry(k + 1, snap) == Some(c);
    }
    if exists i :: 1 <= i <= n && AssembleEntry(i, snap) == Some(c) {
      var i :| 1 <= i <= n && AssembleEntry(i, snap) == Some(c);
      assert rs[i - 1] == Some(c);
    }
  }

  /** The registry returns each property under its own id. */
  predicate IdsConsistent(snap: ListingReads)
  {
    forall i :: i in snap.properties && snap.properties[i].Got? ==> snap.properties[i].value.id == i
  }

  /** Strictly ascending ids, each a surviving id in `1..n`. */
  predicate AscendingWithin(l: seq<PropertyCard>, n: nat, snap: ListingReads)
  {
    && (forall j, k :: 0 <= j < k < |l| ==> l[j].id < l[k].id)
    && (forall j :: 0 <= j < |l| ==> 1 <= l[j].id <= n && Survives(l[j].id, snap))
  }

  lemma AscendingWiden(l: seq<PropertyCard>, n: nat, snap: ListingReads)
    requires n > 0 && AscendingWithin(l, n - 1, snap)
    ensures AscendingWithin(l, n, snap)
  {
  }

  lemma AscendingAppend(l: seq<PropertyCard>, n: nat, c: PropertyCard, snap: ListingReads)
    requires n > 0 && AscendingWithin(l, n - 1, snap)
    requires c.id == n && Survives(n, snap)
    ensures AscendingWithin(l + [c], n, snap)
  {
    var m := l + [c];
    forall j, k | 0 <= j < k < |m| ensures m[j].id < m[k].id {
      if k == |l| {
        assert m[j] == l[j];
      }
    }
  }

  /** With a consistent registry a card carries the id it was built for. */
  lemma EntryIdIsOwn(i: nat, snap: ListingReads)
    requires IdsConsistent(snap) && AssembleEntry(i, snap).Some?
    ensures AssembleEntry(i, snap).value.id == i && Survives(i, snap)
  {
    EntryContents(i, snap);
  }

  /** The listing of `1..n` extends that of `1..n-1` by id `n`'s card, if any. */
  lemma ListingStep(n: nat, snap: ListingReads)
    requires n > 0
    ensures AssembleEntry(n, snap).None? ==> Listing(n, snap) == Listing(n - 1, snap)
    ensures AssembleEntry(n, snap).Some? ==> Listing(n, snap) == Listing(n - 1, snap) + [AssembleEntry(n, snap).value]
  {
    var rs := Results(n, snap);
    assert DropLast(rs) == Results(n - 1, snap);
    assert Last(rs) == AssembleEntry(n, snap);
  }

  lemma AscendingStep(n: nat, snap: ListingReads)
    requires IdsConsistent(snap) && n > 0
    requires AscendingWithin(Listing(n - 1, snap), n - 1, snap)
    ensures AscendingWithin(Listing(n, snap), n, snap)
  {
    ListingStep(n, snap);
    var e := AssembleEntry(n, snap);
    if e.Some? {
      EntryIdIsOwn(n, snap);
      AscendingAppend(Listing(n - 1, snap), n, e.value, snap);
    } else {
      AscendingWiden(Listing(n - 1, snap), n, snap);
    }
  }

  /** With a consistent registry the cards come in strictly ascending id
      order, every id in `1..n`, and the ids are exactly the surviving ones. */
  lemma {:induction false} ListingAscending(n: nat, snap: ListingReads)
    requires IdsConsistent(snap)
    ensures AscendingWithin(Listing(n, snap), n, snap)
  {
    if n == 0 {
      assert Results(0, snap) == [];
    } else {
      ListingAscending(n - 1, snap);
      AscendingStep(n, snap);
    }
  }

  /** The ids of the cards are exactly the surviving ids in `1..n`. */
  lemma ListingIds(n: nat, snap: ListingReads, i: nat)
    requires IdsConsistent(snap)
    ensures (exists c :: c in Listing(n, snap) && c.id == i) <==> 1 <= i <= n && Survives(i, snap)
  {
    if 1 <= i <= n && Survives(i, snap) {
      var c := AssembleEntry(i, snap).value;
      EntryContents(i, snap);
      ListingMembers(n, snap, c);
    }
    if exists c :: c in Listing(n, snap) && c.id == i {
      var c :| c in Listing(n, snap) && c.id == i;
      ListingMembers(n, snap, c);
      var k :| 1 <= k <= n && AssembleEntry(k, snap) == Some(c);
      EntryContents(k, snap);
    }
  }

  // ---------------------------------------------------------------------
  // `filteredProperties`

  /** The lower-cased term is included in the lower-cased title or location. */
  predicate MatchesSearch(c: PropertyCard, searchTerm: string)
  {
    || Contains(ToLower(c.title), ToLower(searchTerm))
    || Contains(ToLower(c.location), ToLower(searchTerm))
  }

  /** The tab test: "available" and "rented" add the availability test;
      "all" and every other tab value use the search alone. */
  predicate ShownOnTab(c: PropertyCard, searchTerm: string, activeTab: string)
  {
    if activeTab == "all" then MatchesSearch(c, searchTerm)
    else if activeTab == "available" then MatchesSearch(c, searchTerm) && c.isAvailable
    else if activeTab == "rented" then MatchesSearch(c, searchTerm) && !c.isAvailable
    else MatchesSearch(c, searchTerm)
  }

  /** `properties.filter(...)` */
  function FilterProperties(properties: seq<PropertyCard>, searchTerm: string, activeTab: string): (r: seq<PropertyCard>)
    ensures forall c :: c in r <==> c in properties && ShownOnTab(c, searchTerm, activeTab)
    ensures |r| <= |properties|
    decreases |properties|
  {
    if properties == [] then []
    else
      var front := FilterProperties(DropLast(properties), searchTerm, activeTab);
      assert properties == DropLast(properties) + [Last(properties)];
      if ShownOnTab(Last(properties), searchTerm, activeTab) then front + [Last(properties)] else front
  }

  /** The filter keeps the cards in their order. */
  lemma {:induction false} FilterKeepsOrder(properties: seq<PropertyCard>, searchTerm: string, activeTab: string)
    ensures IsSubsequence(FilterProperties(properties, searchTerm, activeTab), properties)
    decreases |properties|
  {
    if properties != [] {
      var front := FilterProperties(DropLast(properties), searchTerm, activeTab);
      FilterKeepsOrder(DropLast(properties), searchTerm, activeTab);
      assert properties == DropLast(properties) + [Last(properties)];
      if ShownOnTab(Last(properties), searchTerm, activeTab) {
        SubsequenceAppendBoth(front, DropLast(properties), Last(properties));
      } else {
        SubsequenceAppendRight(front, DropLast(properties), Last(properties));
      }
    }
  }

  /** A search matches when the lower-cased term occurs somewhere in the
      lower-cased title or location. */
  lemma SearchMeansOccurrence(c: PropertyCard, searchTerm: string)
    ensures MatchesSearch(c, searchTerm) <==>
              (exists k :: OccursAt(ToLower(c.title), ToLower(searchTerm), k))
              || (exists k :: OccursAt(ToLower(c.location), ToLower(searchTerm), k))
  {
    ContainsIffOccurs(ToLower(c.title), ToLower(searchTerm));
    ContainsIffOccurs(ToLower(c.location), ToLower(searchTerm));
  }

  /** The empty search term on the "all" tab shows every card, in order. */
  lemma {:induction false} EmptySearchShowsAll(properties: seq<PropertyCard>)
    ensures FilterProperties(properties, "", "all") == properties
    decreases |properties|
  {
    if properties != [] {
      EmptySearchShowsAll(DropLast(properties));
      assert ToLower("") == "";
      ContainsEmpty(ToLower(Last(properties).title));
      assert properties == DropLast(properties) + [Last(properties)];
    }
  }

  /** An unknown tab behaves as "all". */
  lemma {:induction false} UnknownTabIsAll(properties: seq<PropertyCard>, searchTerm: string, activeTab: string)
    requires activeTab != "all" && activeTab != "available" && activeTab != "rented"
    ensures FilterProperties(properties, searchTerm, activeTab) == FilterProperties(properties, searchTerm, "all")
    decreases |properties|
  {
    if properties != [] {
      UnknownTabIsAll(DropLast(properties), searchTerm, activeTab);
    }
  }

  /** The "available" and "rented" tabs split the "all" tab's cards between
      them: together they hold each of its cards exactly as often. */
  lemma {:induction false} TabsPartitionAll(properties: seq<PropertyCard>, searchTerm: string)
    ensures multiset(FilterProperties(properties, searchTerm, "available"))
            + multiset(FilterProperties(properties, searchTerm, "rented"))
            == multiset(FilterProperties(properties, searchTerm, "all"))
    decreases |properties|
  {
    if properties != [] {
      TabsPartitionAll(DropLast(properties), searchTerm);
    }
  }

  // ---------------------------------------------------------------------
  // The page's state

  /** The `Home` component's state. */
  class HomePage {
    var searchTerm: string
    var activeTab: string
    var properties: seq<PropertyCard>
    var isLoading: bool

    constructor ()
      ensures searchTerm == "" && activeTab == "all" && properties == [] && isLoading
    {
      searchTerm := "";
      activeTab := "all";
      properties := [];
      isLoading := true;
    }

    /** `fetchAllProperties`: with no provider nothing happens; a failing
        `getTotalProperties` leaves the cards as they were. */
    method FetchAllProperties(hasProvider: bool, totalProperties: Option<nat>, snap: ListingReads)
      modifies this
      ensures !hasProvider ==> unchanged(this)
      ensures hasProvider ==> !isLoading
      ensures hasProvider && totalProperties.Some? ==> properties == Listing(totalProperties.value, snap)
      ensures totalProperties.None? ==> properties == old(properties)
      ensures searchTerm == old(searchTerm) && activeTab == old(activeTab)
    {
      if !hasProvider {
        return;
      }
      isLoading := true;
      if totalProperties.Some? {
        var results := FetchResults(totalProperties.value, snap);
        assert results == Results(totalProperties.value, snap);
        properties := Somes(results);
      }
      isLoading := false;
    }

    method SetSearchTerm(term: string)
      modifies this`searchTerm
      ensures searchTerm == term
    {
      searchTerm := term;
    }

    method SetActiveTab(tab: string)
      modifies this`activeTab
      ensures activeTab == tab
    {
      activeTab := tab;
    }

    /** The cards the grid shows. */
    function FilteredProperties(): (r: seq<PropertyCard>)
      reads this
      ensures forall c :: c in r <==> c in properties && ShownOnTab(c, searchTerm, activeTab)
    {
      FilterProperties(properties, searchTerm, activeTab)
    }
  }

  /** With the empty search term the "available" tab keeps a free card and
      drops a rented one. */
  lemma AvailableTabOfPair(c1: PropertyCard, c2: PropertyCard)
    requires c1.isAvailable && !c2.isAvailable
    ensures FilterProperties([c1, c2], "", "available") == [c1]
  {
    assert ToLower("") == "";
    ContainsEmpty(ToLower(c1.title));
    assert ShownOnTab(c1, "", "available");
    assert DropLast([c1, c2]) == [c1] && DropLast([c1]) == [];
  }

  /** Two listed properties, the first free and the second rented: both
      become cards, with availability true and false, and the "available"
      tab shows only the first. */
  lemma TwoPropertyScenario(p1: PropertyData, p2: PropertyData, ipfs: IpfsEnv)
    requires p1.id == 1 && p2.id == 2 && p1.isListed && p2.isListed
    ensures var snap := ListingReads(map[1 := Got(p1), 2 := Got(p2)], map[1 := 0, 2 := 5], ipfs);
            var l := Listing(2, snap);
            && |l| == 2 && l[0].id == 1 && l[1].id == 2
            && l[0].isAvailable && !l[1].isAvailable
            && FilterProperties(l, "", "available") == [l[0]]
  {
    var snap := ListingReads(map[1 := Got(p1), 2 := Got(p2)], map[1 := 0, 2 := 5], ipfs);
    var rs := Results(2, snap);
    var e1, e2 := AssembleEntry(1, snap), AssembleEntry(2, snap);
    assert rs == [e1, e2];
    assert Survives(1, snap) && Survives(2, snap);
    EntryContents(1, snap);
    EntryContents(2, snap);
    assert Somes([e1]) == [e1.value] by {
      assert DropLast([e1]) == [];
    }
    assert Listing(2, snap) == [e1.value, e2.value] by {
      assert DropLast(rs) == [e1];
    }
    AvailableTabOfPair(e1.value, e2.value);
  }
}
