/** The fixed pools the dummy-listing generator draws from (src/services/dummyData.js:6-47). */
module DummyPools {
  datatype SeedUser = SeedUser(uid: string, displayName: string, email: string)

  const DummyUsers: seq<SeedUser> := [
    SeedUser("dummy1", "Sarah Johnson", "sarah.j@example.com"),
    SeedUser("dummy2", "Mike Thompson", "mike.t@example.com"),
    SeedUser("dummy3", "Emma Wilson", "emma.w@example.com")
  ]

  const SeedIds: seq<string> := ["dummy1", "dummy2", "dummy3"]

  /** Latitudes run south..north, longitudes west..east. */
  const SydneyNorth: real := -33.4489
  const SydneySouth: real := -34.1706
  const SydneyWest: real := 150.5209
  const SydneyEast: real := 151.3430

  datatype Region = Region(name: string, postcode: string, state: string)

  const SydneyRegions: seq<Region> := [
    Region("North Shore", "2060", "NSW"),
    Region("Eastern Suburbs", "2021", "NSW"),
    Region("Inner West", "2042", "NSW"),
    Region("Western Sydney", "2150", "NSW"),
    Region("Northern Beaches", "2100", "NSW")
  ]

  const Categories: seq<string> :=
    ["Furniture", "Electronics", "Clothing", "Books", "Tools", "Kitchen", "Garden", "Toys", "Sports"]

  const Items: map<string, seq<string>> := map[
    "Furniture" := ["Vintage Dining Table", "Leather Sofa", "Bookshelf", "Coffee Table", "Bed Frame"],
    "Electronics" := ["Old TV", "Stereo System", "Vintage Radio", "Computer Monitor", "Speakers"],
    "Clothing" := ["Designer Clothes", "Vintage Clothing", "Kids Clothes", "Shoes", "Accessories"],
    "Books" := ["Book Collection", "Textbooks", "Novels", "Comics", "Magazines"],
    "Tools" := ["Power Tools", "Hand Tools", "Garden Tools", "Tool Box", "Workbench"],
    "Kitchen" := ["Appliances", "Cookware", "Dishes", "Utensils", "Small Appliances"],
    "Garden" := ["Plants", "Pots", "Garden Furniture", "Lawn Mower", "Garden Decor"],
    "Toys" := ["Kids Toys", "Board Games", "Video Games", "Puzzles", "Outdoor Toys"],
    "Sports" := ["Exercise Equipment", "Sports Gear", "Bicycles", "Camping Gear", "Golf Clubs"]
  ]

  const Tags: seq<string> := [
    "vintage", "antique", "like-new", "collectible", "rare",
    "moving-sale", "estate-sale", "downsizing", "renovation",
    "must-go", "negotiable", "bulk-deals", "cheap"
  ]

  /** The street-name stems of a synthetic fallback address (dummyData.js:134). */
  const StreetStems: seq<string> := ["Park", "Beach", "Forest", "Hill"]

  predicate Distinct<T(==)>(s: seq<T>) {
    forall i, j :: 0 <= i < j < |s| ==> s[i] != s[j]
  }

  /** Every category has an item pool of five distinct names; the tags are thirteen distinct words. */
  lemma PoolsWellFormed()
    ensures |DummyUsers| == 3 && |SydneyRegions| == 5 && |Categories| == 9 && |Tags| == 13
    ensures forall i :: 0 <= i < 3 ==> DummyUsers[i].uid == SeedIds[i]
    ensures forall c :: c in Categories ==> c in Items && |Items[c]| == 5 && Distinct(Items[c])
    ensures Distinct(Tags) && Distinct(SeedIds)
  {
  }

  /** `ITEMS[category]` for one of the categories: five distinct item names. */
  function ItemPool(category: string): (pool: seq<string>)
    requires category in Categories
    ensures |pool| == 5 && Distinct(pool)
  {
    PoolsWellFormed();
    Items[category]
  }
}
