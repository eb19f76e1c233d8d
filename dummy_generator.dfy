/**
 * generateDummyListings(count) (src/services/dummyData.js:156-235): check the
 * caller is a signed-in admin, stage three seed-user merges and three writes per
 * listing into one batch, commit it, and return the listings.
 */
module DummyGenerator {
  import opened Wrappers
  import opened Documents
  import opened RandomDraws
  import opened DummyPools
  import opened DummySampling
  import opened DummyCompose
  import opened DummyStore

  const NotSignedInMessage: string := "You must be logged in to generate dummy data"
  const NotAdminMessage: string := "You must have admin privileges to generate dummy data"
  const DefaultMessage: string := "Failed to generate dummy listings. Please check your permissions."

  /** `throw new Error(error.message || 'Failed to generate ...')` */
  function Rethrown(message: string): (m: string)
    ensures m != ""
    ensures message != "" ==> m == message
    ensures message == "" ==> m == DefaultMessage
  {
    if message != "" then message else DefaultMessage
  }

  /** Thrown: the Error the call rejects with. Exhausted: the injected draws or ids ran out (never in JavaScript). */
  datatype GenError = Thrown(message: string) | Exhausted

  /**
   * What the backend does during one call: the auto-generated listing ids, in the order
   * `doc(collection(db, 'listings'))` hands them out, the clock reading `new Date()`
   * gives each listing's generateEventDates, in loop order, a failure of the caller's
   * getDoc, a failure of batch.commit, and the geocoder.
   */
  datatype Backend = Backend(autoIds: seq<string>, clock: seq<int>, readError: Option<string>,
                             commitError: Option<string>, geocode: Geocoder)

  /** `userDoc.exists() && userDoc.data().admin` */
  predicate CallerIsAdmin(users: map<string, Doc>, uid: string) {
    uid in users && "admin" in users[uid] && Truthy(users[uid]["admin"])
  }

  /** The three item names a description lists: distinct names of the category's pool. */
  predicate SampledItems(items: seq<string>, category: string) {
    category in Items && |items| == 3 && Distinct(items) && AllIn(items, Items[category])
  }

  /** The listing object literal of dummyData.js:193-208. */
  function ListingOf(author: SeedUser, category: string, items: seq<string>, isMultiDay: bool,
                     eventDates: seq<EventDate>, location: Location, tags: seq<string>, views: int,
                     featured: bool): (d: ListingDoc)
    ensures d.authorId == author.uid && d.categories == [category] && d.status == "active" && d.images == []
    ensures d.dateCreated == Now && d.lastUpdated == Now
    ensures |author.displayName| <= |d.title| && d.title[..|author.displayName|] == author.displayName
    ensures EndsWith(d.title, category + " Sale")
    ensures EndsWith(d.description, if isMultiDay then MultiDaySuffix else OneDaySuffix)
  {
    ListingDoc(author.uid, Title(author.displayName, category), Description(items, isMultiDay), "active",
               Now, eventDates, isMultiDay, location, tags, views, [], [category], featured, Now)
  }

  /** Author, status, views, images, timestamps and category of a generated listing. */
  predicate WellFormedAuthorship(d: ListingDoc) {
    && d.authorId in SeedIds
    && d.status == "active" && 0 <= d.views < 50 && d.images == []
    && d.dateCreated == Now && d.lastUpdated == Now
    && |d.categories| == 1 && d.categories[0] in Categories
    && exists i :: 0 <= i < 3 && DummyUsers[i].uid == d.authorId && d.title == Title(DummyUsers[i].displayName, d.categories[0])
  }

  /** The description lists three items of the category and ends with the multi-day or one-day suffix. */
  ghost predicate WellFormedText(d: ListingDoc) {
    && |d.categories| == 1
    && (exists items :: SampledItems(items, d.categories[0]) && d.description == Description(items, d.isMultiDay))
    && (EndsWith(d.description, MultiDaySuffix) <==> d.isMultiDay)
    && (EndsWith(d.description, OneDaySuffix) <==> !d.isMultiDay)
  }

  /** One 09:00-16:00 entry starting 0..13 whole days after `now`, ending 0 days later (one-day) or 1-2 days later. */
  predicate ScheduledFrom(eds: seq<EventDate>, isMultiDay: bool, now: int) {
    && ValidEventDates(eds, isMultiDay) && |eds| == 1
    && eds[0].startTime == "09:00" && eds[0].endTime == "16:00"
    && 0 <= eds[0].startDate - now < 14 * MsPerDay && (eds[0].startDate - now) % MsPerDay == 0
    && (isMultiDay ==> eds[0].endDate - eds[0].startDate in {MsPerDay, 2 * MsPerDay})
  }

  /** Three distinct tags and a location inside the Sydney box with a region's state and postcode. */
  predicate WellFormedPlace(d: ListingDoc) {
    && |d.tags| == 3 && Distinct(d.tags) && AllIn(d.tags, Tags)
    && InSydney(d.location.latitude, d.location.longitude) && FromSydneyRegion(d.location)
  }

  /** What every listing of a successful call satisfies, for clock reading `now`. */
  ghost predicate WellFormedListing(l: GeneratedListing, now: int) {
    WellFormedAuthorship(l.doc) && WellFormedText(l.doc) &&
    ScheduledFrom(l.doc.eventDates, l.doc.isMultiDay, now) && WellFormedPlace(l.doc)
  }

  lemma ListingOfWellFormed(l: GeneratedListing, now: int, a: int, category: string, items: seq<string>, isMultiDay: bool,
                            eventDates: seq<EventDate>, location: Location, tags: seq<string>, views: int,
                            featured: bool)
    requires 0 <= a < 3
    requires l.doc == ListingOf(DummyUsers[a], category, items, isMultiDay, eventDates, location, tags, views, featured)
    requires category in Categories && SampledItems(items, category)
    requires ScheduledFrom(eventDates, isMultiDay, now)
    requires InSydney(location.latitude, location.longitude) && FromSydneyRegion(location)
    requires |tags| == 3 && Distinct(tags) && AllIn(tags, Tags)
    requires 0 <= views < 50
    ensures WellFormedListing(l, now)
  {
    AuthorshipOf(l.doc, a, category);
    TextOf(l.doc, items, category);
  }

  /** A seed author's name in the title, with the fixed status, images and timestamps, is well formed. */
  lemma AuthorshipOf(d: ListingDoc, a: int, category: string)
    requires 0 <= a < 3 && category in Categories && 0 <= d.views < 50
    requires d.authorId == DummyUsers[a].uid && d.title == Title(DummyUsers[a].displayName, category)
    requires d.categories == [category] && d.status == "active" && d.images == []
    requires d.dateCreated == Now && d.lastUpdated == Now
    ensures WellFormedAuthorship(d)
  {
    assert DummyUsers[a].uid in SeedIds;
  }

  /** A description of three sampled items ends with the suffix its multi-day flag selects. */
  lemma TextOf(d: ListingDoc, items: seq<string>, category: string)
    requires d.categories == [category] && SampledItems(items, category)
    requires d.description == Description(items, d.isMultiDay)
    ensures WellFormedText(d)
  {
    DescriptionSuffix(items, d.isMultiDay);
  }

  /** The listing object built from its drawn parts, with the id it is stored under. */
  method AssembleListing(id: string, now: int, a: nat, category: string, items: seq<string>, isMultiDay: bool,
                         eventDates: seq<EventDate>, location: Location, tags: seq<string>, views: int,
                         featured: bool) returns (l: GeneratedListing)
    requires a < 3 && category in Categories && SampledItems(items, category)
    requires ScheduledFrom(eventDates, isMultiDay, now)
    requires InSydney(location.latitude, location.longitude) && FromSydneyRegion(location)
    requires |tags| == 3 && Distinct(tags) && AllIn(tags, Tags)
    requires 0 <= views < 50
    ensures l == GeneratedListing(id, ListingOf(DummyUsers[a], category, items, isMultiDay, eventDates, location, tags, views, featured))
    ensures WellFormedListing(l, now)
  {
    l := GeneratedListing(id, ListingOf(DummyUsers[a], category, items, isMultiDay, eventDates, location, tags, views, featured));
    ListingOfWellFormed(l, now, a, category, items, isMultiDay, eventDates, location, tags, views, featured);
  }

  lemma SuffixStep(a: seq<Draw>, b: seq<Draw>, c: seq<Draw>)
    requires IsSuffix(b, a) && IsSuffix(c, b)
    ensures IsSuffix(c, a)
  {
    assert a[|a| - |b|..][|b| - |c|..] == a[|a| - |c|..];
  }

  /** The event dates as the loop draws them: the day offset, then (multi-day only) the extra days. */
  method DrawEventDates(now: int, isMultiDay: bool, rs: seq<Draw>) returns (eventDates: Option<seq<EventDate>>, rest: seq<Draw>)
    ensures eventDates.Some? ==> ScheduledFrom(eventDates.value, isMultiDay, now)
    ensures eventDates.Some? <==> |rs| >= (if isMultiDay then 2 else 1)
    ensures eventDates.Some? ==> rest == rs[(if isMultiDay then 2 else 1)..]
    ensures eventDates.Some? ==> eventDates.value == GenerateEventDates(now, isMultiDay, rs[0], if isMultiDay then rs[1] else 0.0)
    ensures IsSuffix(rest, rs)
  {
    if |rs| < (if isMultiDay then 2 else 1) {
      return None, rs;
    }
    if isMultiDay {
      eventDates, rest := Some(GenerateEventDates(now, true, rs[0], rs[1])), rs[2..];
    } else {
      eventDates, rest := Some(GenerateEventDates(now, false, rs[0], 0.0)), rs[1..];
    }
  }

  /** getRandomItems(category) with its default count of three; None exactly when its sample runs out of draws. */
  method DrawItems(category: string, rs: seq<Draw>) returns (items: Option<seq<string>>, rest: seq<Draw>)
    requires category in Categories
    ensures items.Some? ==> SampledItems(items.value, category)
    ensures items.Some? <==> IndexSample(5, 3, [], rs).Some?
    ensures items.Some? ==> rest == IndexSample(5, 3, [], rs).value
    ensures items.Some? <==> Sample(ItemPool(category), 3, [], rs).complete
    ensures items.Some? ==> items.value == Sample(ItemPool(category), 3, [], rs).picked && rest == Sample(ItemPool(category), 3, [], rs).rest
    ensures IsSuffix(rest, rs)
  {
    PoolsWellFormed();
    var picked, complete;
    picked, rest, complete := GetRandomItems(category, 3, rs);
    items := if complete then Some(picked) else None;
    SampleByIndex(Items[category], 3, [], [], rs);
  }

  /** generateRandomLocation(), seen through what the listing invariant needs and the draws it uses. */
  method DrawLocation(rs: seq<Draw>, geocode: Geocoder) returns (location: Option<Location>, rest: seq<Draw>)
    ensures location.Some? ==> InSydney(location.value.latitude, location.value.longitude) && FromSydneyRegion(location.value)
    ensures location.Some? <==> LocationRest(rs, geocode).Some?
    ensures location.Some? ==> rest == LocationRest(rs, geocode).value
    ensures location.Some? ==> location.value == RandomLocation(rs, geocode)
    ensures IsSuffix(rest, rs)
  {
    location, rest := GenerateRandomLocation(rs, geocode);
  }

  /** getRandomTags() with its default count of three; None exactly when its sample runs out of draws. */
  method DrawTags(rs: seq<Draw>) returns (tags: Option<seq<string>>, rest: seq<Draw>)
    ensures tags.Some? ==> |tags.value| == 3 && Distinct(tags.value) && AllIn(tags.value, Tags)
    ensures tags.Some? <==> IndexSample(13, 3, [], rs).Some?
    ensures tags.Some? ==> rest == IndexSample(13, 3, [], rs).value
    ensures tags.Some? <==> Sample(Tags, 3, [], rs).complete
    ensures tags.Some? ==> tags.value == Sample(Tags, 3, [], rs).picked && rest == Sample(Tags, 3, [], rs).rest
    ensures IsSuffix(rest, rs)
  {
    var picked, complete;
    picked, rest, complete := GetRandomTags(3, rs);
    tags := if complete then Some(picked) else None;
    PoolsWellFormed();
    SampleByIndex(Tags, 3, [], [], rs);
  }

  /**
   * The listing document of one iteration once the author, category, multi-day flag
   * and location are drawn: the items `getRandomItems(category)` samples from the
   * draws rs, then DatedDoc; None when the draws run out.
   */
  function FinishedDoc(a: nat, category: string, isMultiDay: bool, location: Location, now: int, rs: seq<Draw>): Option<ListingDoc>
    requires a < 3 && category in Categories
  {
    var items := Sample(ItemPool(category), 3, [], rs);
    if !items.complete then None else DatedDoc(a, category, items.picked, isMultiDay, location, now, items.rest)
  }

  /** The event dates `generateEventDates(isMultiDay)` draws from rs (one or two draws), then TaggedDoc. */
  function DatedDoc(a: nat, category: string, items: seq<string>, isMultiDay: bool, location: Location, now: int,
                    rs: seq<Draw>): Option<ListingDoc>
    requires a < 3
  {
    var dateDraws := if isMultiDay then 2 else 1;
    if |rs| < dateDraws then None
    else TaggedDoc(a, category, items, isMultiDay, GenerateEventDates(now, isMultiDay, rs[0], if isMultiDay then rs[1] else 0.0),
                   location, rs[dateDraws..])
  }

  /** The tags `getRandomTags()` samples from rs, then `Math.floor(r * 50)` views and `r > 0.8` featured. */
  function TaggedDoc(a: nat, category: string, items: seq<string>, isMultiDay: bool, eventDates: seq<EventDate>,
                     location: Location, rs: seq<Draw>): Option<ListingDoc>
    requires a < 3
  {
    var tags := Sample(Tags, 3, [], rs);
    if !tags.complete || |tags.rest| < 2 then None
    else Some(ListingOf(DummyUsers[a], category, items, isMultiDay, eventDates, location, tags.picked,
                        Pick(tags.rest[0], 50), tags.rest[1] > 0.8))
  }

  /**
   * The listing document one iteration of the loop builds from the draws rs: the author
   * `DUMMY_USERS[floor(r * 3)]`, the location, the category `CATEGORIES[floor(r * 9)]`,
   * multi-day `r > 0.7`, then the rest as FinishedDoc; None when the draws run out.
   */
  function GeneratedDoc(now: int, rs: seq<Draw>, geocode: Geocoder): Option<ListingDoc> {
    if |rs| < 1 || LocationRest(rs[1..], geocode).None? then None
    else
      var draws := LocationRest(rs[1..], geocode).value;
      if |draws| < 2 then None
      else FinishedDoc(Pick(rs[0], |DummyUsers|), Categories[Pick(draws[0], |Categories|)], draws[1] > 0.7,
                       RandomLocation(rs[1..], geocode), now, draws[2..])
  }

  /**
   * The draws left after FinishListing (items, event dates, tags, views, featured flag),
   * or None when the stream runs out before one of them.
   */
  function FinishRest(isMultiDay: bool, rs: seq<Draw>): Option<seq<Draw>> {
    match IndexSample(5, 3, [], rs)
    case None => None
    case Some(afterItems) => DatedRest(isMultiDay, afterItems)
  }

  /** The draws left after the event dates, tags, views and featured flag. */
  function DatedRest(isMultiDay: bool, rs: seq<Draw>): Option<seq<Draw>> {
    var dateDraws := if isMultiDay then 2 else 1;
    if |rs| < dateDraws then None else TaggedRest(rs[dateDraws..])
  }

  /** The draws left after the tags, views and featured flag. */
  function TaggedRest(rs: seq<Draw>): Option<seq<Draw>> {
    match IndexSample(13, 3, [], rs)
    case None => None
    case Some(afterTags) => if |afterTags| < 2 then None else Some(afterTags[2..])
  }

  /** The draws left after one iteration of the loop, or None when the stream runs out first. */
  function ListingRest(rs: seq<Draw>, geocode: Geocoder): Option<seq<Draw>> {
    if |rs| < 1 then None
    else match LocationRest(rs[1..], geocode)
      case None => None
      case Some(draws) => CategorizedRest(draws)
  }

  /** The draws left after the category, the multi-day flag and the rest of the iteration. */
  function CategorizedRest(rs: seq<Draw>): Option<seq<Draw>> {
    if |rs| < 2 then None else FinishRest(rs[1] > 0.7, rs[2..])
  }

  /** Iterations can be drawn, one after the other, for n listings. */
  predicate ListingsFit(n: int, rs: seq<Draw>, geocode: Geocoder)
    decreases n
  {
    n <= 0 || (ListingRest(rs, geocode).Some? && ListingsFit(n - 1, ListingRest(rs, geocode).value, geocode))
  }

  /** One more listing fits exactly when its iteration fits and the rest fit after it. */
  lemma ListingsFitStep(n: int, m: int, rs: seq<Draw>, geocode: Geocoder, l: Option<GeneratedListing>, rest: seq<Draw>)
    requires n > 0 && m == n - 1
    requires l.Some? <==> ListingRest(rs, geocode).Some?
    requires l.Some? ==> rest == ListingRest(rs, geocode).value
    ensures l.None? ==> !ListingsFit(n, rs, geocode)
    ensures l.Some? ==> ListingsFit(n, rs, geocode) == ListingsFit(m, rest, geocode)
  {
  }

  /** The injected ids, clock readings and draws are enough for `count` listings. */
  predicate StreamsSuffice(count: int, rs: seq<Draw>, backend: Backend) {
    Max(count, 0) <= |backend.autoIds| && Max(count, 0) <= |backend.clock| && ListingsFit(count, rs, backend.geocode)
  }

  /**
   * One iteration of the generation loop (dummyData.js:187-208): draws in source
   * order author, location, category, multi-day flag, items, event dates, tags,
   * views and featured flag; `id` is the auto-generated listing id and `now` the clock
   * reading of its generateEventDates. None exactly when the draws run out.
   */
  method GenerateListing(id: string, now: int, rs: seq<Draw>, geocode: Geocoder)
    returns (l: Option<GeneratedListing>, rest: seq<Draw>)
    ensures l.Some? ==> l.value.id == id && WellFormedListing(l.value, now)
    ensures l.Some? <==> ListingRest(rs, geocode).Some?
    ensures l.Some? ==> rest == ListingRest(rs, geocode).value
    ensures l.Some? <==> GeneratedDoc(now, rs, geocode).Some?
    ensures l.Some? ==> l.value == GeneratedListing(id, GeneratedDoc(now, rs, geocode).value)
    ensures IsSuffix(rest, rs)
  {
    l, rest := None, rs;
    if |rs| < 1 { return; }
    var a := Pick(rs[0], |DummyUsers|);

    var location, draws := DrawLocation(rs[1..], geocode);
    SuffixStep(rs, rs[1..], draws);
    if location.None? { return; }
    assert ListingRest(rs, geocode) == CategorizedRest(draws);
    if |draws| < 2 { return; }
    var category := Categories[Pick(draws[0], |Categories|)];
    var isMultiDay := draws[1] > 0.7;
    SuffixStep(rs, draws, draws[2..]);

    var after;
    l, after := FinishListing(id, now, a, category, isMultiDay, location.value, draws[2..]);
    SuffixStep(rs, draws[2..], after);
    rest := after;
  }

  /** The draws after the category and multi-day flag: the items, then FinishDated. */
  method FinishListing(id: string, now: int, a: nat, category: string, isMultiDay: bool, location: Location,
                       rs: seq<Draw>) returns (l: Option<GeneratedListing>, rest: seq<Draw>)
    requires a < 3 && category in Categories
    requires InSydney(location.latitude, location.longitude) && FromSydneyRegion(location)
    ensures l.Some? ==> l.value.id == id && WellFormedListing(l.value, now)
    ensures l.Some? <==> FinishRest(isMultiDay, rs).Some?
    ensures l.Some? ==> rest == FinishRest(isMultiDay, rs).value
    ensures l.Some? <==> FinishedDoc(a, category, isMultiDay, location, now, rs).Some?
    ensures l.Some? ==> l.value == GeneratedListing(id, FinishedDoc(a, category, isMultiDay, location, now, rs).value)
    ensures IsSuffix(rest, rs)
  {
    l, rest := None, rs;
    var items, draws := DrawItems(category, rs);
    if items.None? { return; }
    assert FinishRest(isMultiDay, rs) == DatedRest(isMultiDay, draws);
    assert FinishedDoc(a, category, isMultiDay, location, now, rs) == DatedDoc(a, category, items.value, isMultiDay, location, now, draws);
    var after;
    l, after := FinishDated(id, now, a, category, items.value, isMultiDay, location, draws);
    SuffixStep(rs, draws, after);
    rest := after;
  }

  /** The event dates, then FinishTagged. */
  method FinishDated(id: string, now: int, a: nat, category: string, items: seq<string>, isMultiDay: bool,
                     location: Location, rs: seq<Draw>) returns (l: Option<GeneratedListing>, rest: seq<Draw>)
    requires a < 3 && category in Categories && SampledItems(items, category)
    requires InSydney(location.latitude, location.longitude) && FromSydneyRegion(location)
    ensures l.Some? ==> l.value.id == id && WellFormedListing(l.value, now)
    ensures l.Some? <==> DatedRest(isMultiDay, rs).Some?
    ensures l.Some? ==> rest == DatedRest(isMultiDay, rs).value
    ensures l.Some? <==> DatedDoc(a, category, items, isMultiDay, location, now, rs).Some?
    ensures l.Some? ==> l.value == GeneratedListing(id, DatedDoc(a, category, items, isMultiDay, location, now, rs).value)
    ensures IsSuffix(rest, rs)
  {
    l, rest := None, rs;
    var eventDates, draws := DrawEventDates(now, isMultiDay, rs);
    if eventDates.None? { return; }
    assert DatedRest(isMultiDay, rs) == TaggedRest(draws);
    assert DatedDoc(a, category, items, isMultiDay, location, now, rs) == TaggedDoc(a, category, items, isMultiDay, eventDates.value, location, draws);
    var after;
    l, after := FinishTagged(id, now, a, category, items, isMultiDay, eventDates.value, location, draws);
    SuffixStep(rs, draws, after);
    rest := after;
  }

  /** The tags, then the views and featured draws, and the listing literal. */
  method FinishTagged(id: string, now: int, a: nat, category: string, items: seq<string>, isMultiDay: bool,
                      eventDates: seq<EventDate>, location: Location, rs: seq<Draw>)
    returns (l: Option<GeneratedListing>, rest: seq<Draw>)
    requires a < 3 && category in Categories && SampledItems(items, category)
    requires ScheduledFrom(eventDates, isMultiDay, now)
    requires InSydney(location.latitude, location.longitude) && FromSydneyRegion(location)
    ensures l.Some? ==> l.value.id == id && WellFormedListing(l.value, now)
    ensures l.Some? <==> TaggedRest(rs).Some?
    ensures l.Some? ==> rest == TaggedRest(rs).value
    ensures l.Some? <==> TaggedDoc(a, category, items, isMultiDay, eventDates, location, rs).Some?
    ensures l.Some? ==> l.value == GeneratedListing(id, TaggedDoc(a, category, items, isMultiDay, eventDates, location, rs).value)
    ensures IsSuffix(rest, rs)
  {
    l, rest := None, rs;
    var tags, draws := DrawTags(rs);
    if tags.None? || |draws| < 2 { return; }
    var views := Pick(draws[0], 50);
    var featured := draws[1] > 0.8;
    assert TaggedRest(rs) == Some(draws[2..]);
    assert TaggedDoc(a, category, items, isMultiDay, eventDates, location, rs)
        == Some(ListingOf(DummyUsers[a], category, items, isMultiDay, eventDates, location, tags.value, views, featured));
    SuffixStep(rs, draws, draws[2..]);
    var listing := AssembleListing(id, now, a, category, items, isMultiDay, eventDates, location, tags.value, views, featured);
    l, rest := Some(listing), draws[2..];
  }

  /** `ls` were generated in order under the first |ls| auto ids, each well formed for its own clock reading. */
  ghost predicate GeneratedUnder(ls: seq<GeneratedListing>, ids: seq<string>, clock: seq<int>) {
    |ls| <= |ids| && |ls| <= |clock| &&
    forall j :: 0 <= j < |ls| ==> ls[j].id == ids[j] && WellFormedListing(ls[j], clock[j])
  }

  lemma GeneratedUnderSnoc(ls: seq<GeneratedListing>, l: GeneratedListing, ids: seq<string>, clock: seq<int>)
    requires GeneratedUnder(ls, ids, clock) && |ls| < |ids| && |ls| < |clock|
    requires l.id == ids[|ls|] && WellFormedListing(l, clock[|ls|])
    ensures GeneratedUnder(ls + [l], ids, clock)
  {
    forall j | 0 <= j < |ls| + 1 ensures (ls + [l])[j].id == ids[j] && WellFormedListing((ls + [l])[j], clock[j]) {
      if j < |ls| { assert (ls + [l])[j] == ls[j]; } else { assert (ls + [l])[j] == l; }
    }
  }

  /**
   * The listings the first n iterations of the loop build, in order, each the
   * GeneratedDoc of the draws the earlier iterations leave, under its auto id and clock
   * reading; with them the draws left. None when the ids, the readings or the draws run out.
   */
  function GeneratedRun(n: nat, rs: seq<Draw>, backend: Backend): Option<(seq<GeneratedListing>, seq<Draw>)> {
    if n == 0 then Some(([], rs))
    else match GeneratedRun(n - 1, rs, backend)
      case None => None
      case Some(run) =>
        var j := n - 1;
        if j >= |backend.autoIds| || j >= |backend.clock| then None
        else match (GeneratedDoc(backend.clock[j], run.1, backend.geocode), ListingRest(run.1, backend.geocode))
          case (Some(doc), Some(rest)) => Some((run.0 + [GeneratedListing(backend.autoIds[j], doc)], rest))
          case _ => None
  }

  /** One more iteration extends the run by the listing it builds and leaves the draws after it. */
  lemma GeneratedRunSnoc(i: nat, rs: seq<Draw>, backend: Backend, ls: seq<GeneratedListing>, draws: seq<Draw>,
                         l: GeneratedListing, rest: seq<Draw>)
    requires GeneratedRun(i, rs, backend) == Some((ls, draws))
    requires i < |backend.autoIds| && i < |backend.clock|
    requires GeneratedDoc(backend.clock[i], draws, backend.geocode).Some?
    requires l == GeneratedListing(backend.autoIds[i], GeneratedDoc(backend.clock[i], draws, backend.geocode).value)
    requires ListingRest(draws, backend.geocode) == Some(rest)
    ensures GeneratedRun(i + 1, rs, backend) == Some((ls + [l], rest))
  {
  }

  /** The loop's state after |ls| iterations: their listings, their staged writes and the draws left. */
  ghost predicate Staged(ls: seq<GeneratedListing>, batch: seq<Op>, draws: seq<Draw>, rs: seq<Draw>, backend: Backend) {
    && batch == StagedBatch(ls)
    && GeneratedUnder(ls, backend.autoIds, backend.clock)
    && GeneratedRun(|ls|, rs, backend) == Some((ls, draws))
  }

  /**
   * One iteration of the loop of dummyData.js:187-219: listing i under the i-th auto id
   * and clock reading, its three writes appended to the batch. `fits` is whether
   * the `left` listings still to generate fit the draws that are left.
   */
  method StageNext(i: nat, ls: seq<GeneratedListing>, batch: seq<Op>, draws: seq<Draw>, backend: Backend,
                   ghost rs: seq<Draw>, ghost left: int, ghost fits: bool)
    returns (ranOut: bool, ls': seq<GeneratedListing>, batch': seq<Op>, draws': seq<Draw>, ghost left': int)
    requires i == |ls| && left > 0 && fits == ListingsFit(left, draws, backend.geocode)
    requires Staged(ls, batch, draws, rs, backend)
    ensures ranOut ==> !fits || i >= |backend.autoIds| || i >= |backend.clock|
    ensures !ranOut ==> i < |backend.autoIds| && i < |backend.clock| && |ls'| == i + 1
    ensures left' == left - 1
    ensures !ranOut ==> fits == ListingsFit(left', draws', backend.geocode)
    ensures !ranOut ==> Staged(ls', batch', draws', rs, backend)
  {
    ranOut, ls', batch', draws', left' := true, ls, batch, draws, left - 1;
    if i >= |backend.autoIds| || i >= |backend.clock| { return; }
    var l;
    l, draws' := GenerateListing(backend.autoIds[i], backend.clock[i], draws, backend.geocode);
    ListingsFitStep(left, left', draws, backend.geocode, l, draws');
    if l.None? { return; }
    StagedBatchSnoc(ls, l.value);
    GeneratedUnderSnoc(ls, l.value, backend.autoIds, backend.clock);
    GeneratedRunSnoc(i, rs, backend, ls, draws, l.value, draws');
    ranOut, ls', batch' := false, ls + [l.value], batch + ListingOps(l.value);
  }

  /** How the loop ends: it stops early exactly when the streams do not suffice. */
  lemma StagingOutcome(count: int, rs: seq<Draw>, backend: Backend, i: int, ranOut: bool, draws: seq<Draw>, fits: bool)
    requires 0 <= i <= Max(count, 0) && i <= |backend.autoIds| && i <= |backend.clock|
    requires fits == ListingsFit(count, rs, backend.geocode)
    requires ranOut ==> i < count && (!fits || i >= |backend.autoIds| || i >= |backend.clock|)
    requires !ranOut ==> i >= count && fits == ListingsFit(count - i, draws, backend.geocode)
    ensures !ranOut <==> StreamsSuffice(count, rs, backend)
    ensures !ranOut ==> i == Max(count, 0)
  {
  }

  /**
   * The loop of dummyData.js:187-219: generate `count` listings under the backend's
   * auto ids and clock readings and stage their writes after the seed-user merges.
   * None exactly when the ids, the clock readings or the draws run out.
   */
  method StageListings(count: int, rs: seq<Draw>, backend: Backend)
    returns (listings: Option<seq<GeneratedListing>>, batch: seq<Op>)
    ensures listings.Some? <==> StreamsSuffice(count, rs, backend)
    ensures listings.Some? ==> batch == StagedBatch(listings.value)
    ensures listings.Some? ==> |listings.value| == Max(count, 0) && GeneratedUnder(listings.value, backend.autoIds, backend.clock)
    ensures listings.Some? ==>
      GeneratedRun(Max(count, 0), rs, backend).Some? && GeneratedRun(Max(count, 0), rs, backend).value.0 == listings.value
  {
    batch := SeedOps();
    var ls: seq<GeneratedListing> := [];
    var draws := rs;
    var i := 0;
    var ranOut := false;
    ghost var left := count;
    ghost var fits := ListingsFit(count, rs, backend.geocode);
    while i < count && !ranOut
      invariant 0 <= i == |ls| && i <= Max(count, 0) && left == count - i
      invariant i <= |backend.autoIds| && i <= |backend.clock|
      invariant ranOut ==> i < count && (!fits || i >= |backend.autoIds| || i >= |backend.clock|)
      invariant !ranOut ==> fits == ListingsFit(left, draws, backend.geocode)
      invariant Staged(ls, batch, draws, rs, backend)
      decreases count - i, if ranOut then 0 else 1
    {
      var ls', batch', draws';
      ghost var left';
      ranOut, ls', batch', draws', left' := StageNext(i, ls, batch, draws, backend, rs, left, fits);
      if !ranOut {
        ls, batch, draws, i, left := ls', batch', draws', i + 1, left';
      }
    }
    StagingOutcome(count, rs, backend, i, ranOut, draws, fits);
    listings := if ranOut then None else Some(ls);
  }

  /** The caller passes the sign-in, read and admin checks of dummyData.js:163-172. */
  predicate AdminCaller(users: map<string, Doc>, currentUser: Option<string>, backend: Backend) {
    currentUser.Some? && backend.readError.None? && CallerIsAdmin(users, currentUser.value)
  }

  method GenerateDummyListings(store: Store, currentUser: Option<string>, count: int, rs: seq<Draw>, backend: Backend)
    returns (result: Result<seq<GeneratedListing>, GenError>)
    modifies store
    ensures currentUser.None? ==> result == Failure(Thrown(NotSignedInMessage))
    ensures currentUser.Some? && backend.readError.Some? ==> result == Failure(Thrown(Rethrown(backend.readError.value)))
    ensures currentUser.Some? && backend.readError.None? && !CallerIsAdmin(old(store.users), currentUser.value) ==>
      result == Failure(Thrown(NotAdminMessage))
    ensures AdminCaller(old(store.users), currentUser, backend) ==>
      (result == Failure(Exhausted) <==> !StreamsSuffice(count, rs, backend))
    ensures AdminCaller(old(store.users), currentUser, backend) && StreamsSuffice(count, rs, backend) ==>
      (backend.commitError.Some? ==> result == Failure(Thrown(Rethrown(backend.commitError.value)))) &&
      (backend.commitError.None? ==> result.Success?)
    ensures result.Success? ==> AdminCaller(old(store.users), currentUser, backend) && backend.commitError.None?
    ensures result.Success? ==> |result.value| == Max(count, 0) && GeneratedUnder(result.value, backend.autoIds, backend.clock)
    ensures result.Success? ==>
      GeneratedRun(Max(count, 0), rs, backend).Some? && GeneratedRun(Max(count, 0), rs, backend).value.0 == result.value
    ensures result.Success? ==> Some(store.Snapshot()) == ApplyAll(old(store.Snapshot()), StagedBatch(result.value))
    ensures result.Success? ==> Committed(old(store.Snapshot()), store.Snapshot(), result.value)
    ensures result.Failure? ==> store.Snapshot() == old(store.Snapshot())
  {
    if currentUser.None? {
      return Failure(Thrown(NotSignedInMessage));
    }
    if backend.readError.Some? {
      return Failure(Thrown(Rethrown(backend.readError.value)));
    }
    if !CallerIsAdmin(store.users, currentUser.value) {
      return Failure(Thrown(NotAdminMessage));
    }

    var staged, batch := StageListings(count, rs, backend);
    if staged.None? { return Failure(Exhausted); }
    var listings := staged.value;
    forall j | 0 <= j < |listings| ensures listings[j].doc.authorId in SeedIds {
      assert WellFormedListing(listings[j], backend.clock[j]);
    }
    ListingsCommitted(store.Snapshot(), listings);
    var err := store.Commit(batch, backend.commitError);
    if err.Some? {
      return Failure(Thrown(Rethrown(err.value)));
    }
    return Success(listings);
  }
}
