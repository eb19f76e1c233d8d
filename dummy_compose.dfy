/**
 * The expression-only parts of the generator (src/services/dummyData.js:66-154,
 * 195-196): event dates, coordinates, location records, title and description.
 */
module DummyCompose {
  import opened Wrappers
  import opened RandomDraws
  import opened DummyPools

  // ---------------------------------------------------------------- event dates

  const MsPerDay: int := 24 * 60 * 60 * 1000

  /** Dates are epoch milliseconds; times are the fixed 'HH:MM' strings. */
  datatype EventDate = EventDate(startDate: int, endDate: int, startTime: string, endTime: string)

  /** The listing invariant: at least one entry, and a one-day sale ends on its start date. */
  predicate ValidEventDates(eds: seq<EventDate>, isMultiDay: bool) {
    |eds| >= 1 && eds[0].startDate <= eds[0].endDate &&
    (!isMultiDay ==> eds[0].endDate == eds[0].startDate)
  }

  /**
   * generateEventDates(isMultiDay) at clock `now`: `offsetDraw` picks the 0..13 day
   * offset; `extraDraw` (drawn only when multi-day) picks 1 or 2 further days.
   */
  function GenerateEventDates(now: int, isMultiDay: bool, offsetDraw: Draw, extraDraw: Draw): (r: seq<EventDate>)
    ensures |r| == 1 && r[0].startTime == "09:00" && r[0].endTime == "16:00"
    ensures 0 <= r[0].startDate - now < 14 * MsPerDay && (r[0].startDate - now) % MsPerDay == 0
    ensures !isMultiDay ==> r[0].endDate == r[0].startDate
    ensures isMultiDay ==> r[0].endDate - r[0].startDate in {MsPerDay, 2 * MsPerDay}
    ensures ValidEventDates(r, isMultiDay)
  {
    var startDate := now + Pick(offsetDraw, 14) * MsPerDay;
    var endDate := if isMultiDay then startDate + (Pick(extraDraw, 2) + 1) * MsPerDay else startDate;
    [EventDate(startDate, endDate, "09:00", "16:00")]
  }

  // ---------------------------------------------------------------- coordinates

  /** getRandomCoordinate(min, max) = r * (max - min) + min. */
  function GetRandomCoordinate(min: real, max: real, r: Draw): (c: real)
    requires min <= max
    ensures min <= c <= max
    ensures min < max ==> c < max
  {
    var width := max - min;
    ScaledWithin(r, width);
    r * width + min
  }

  predicate InSydney(latitude: real, longitude: real) {
    SydneySouth <= latitude < SydneyNorth && SydneyWest <= longitude < SydneyEast
  }

  lemma DrawnCoordinatesInSydney(r1: Draw, r2: Draw)
    ensures InSydney(GetRandomCoordinate(SydneySouth, SydneyNorth, r1), GetRandomCoordinate(SydneyWest, SydneyEast, r2))
  {
  }

  // ---------------------------------------------------------------- geocoder replies

  /** One entry of a geocoder hit's address_components. */
  datatype Component = Component(longName: string, types: seq<string>)

  /** One geocoder hit; None stands for a hit without address_components. */
  datatype Hit = Hit(components: Option<seq<Component>>)

  /** The geocoder oracle's answer: it throws, or resolves to a (possibly empty) list of hits. */
  datatype GeocodeReply = Threw | Results(hits: seq<Hit>)

  type Geocoder = (real, real) -> GeocodeReply

  /** `results && results[0]` and a usable results[0].address_components. */
  predicate IsUsableHit(reply: GeocodeReply) {
    reply.Results? && |reply.hits| > 0 && reply.hits[0].components.Some?
  }

  /** `components.find(c => c.types.includes(t))`, as the index of the first match. */
  function FindComponent(comps: seq<Component>, t: string): (r: Option<nat>)
    ensures r.Some? ==> r.value < |comps| && t in comps[r.value].types
    ensures r.Some? ==> forall j :: 0 <= j < r.value ==> t !in comps[j].types
    ensures r.None? ==> forall j :: 0 <= j < |comps| ==> t !in comps[j].types
  {
    if comps == [] then None
    else if t in comps[0].types then Some(0)
    else match FindComponent(comps[1..], t)
      case None => None
      case Some(k) => Some(k + 1)
  }

  /** comps[i] is the first component of type t. */
  predicate FirstWith(comps: seq<Component>, t: string, i: int) {
    0 <= i < |comps| && t in comps[i].types && forall j :: 0 <= j < i ==> t !in comps[j].types
  }

  /** `find(...)?.long_name || fallback`: an empty long_name also falls back. */
  function ComponentName(comps: seq<Component>, t: string, fallback: string): (name: string)
    ensures (forall j :: 0 <= j < |comps| ==> t !in comps[j].types) ==> name == fallback
    ensures forall i :: FirstWith(comps, t, i) ==> name == (if comps[i].longName != "" then comps[i].longName else fallback)
  {
    match FindComponent(comps, t)
    case Some(k) => if comps[k].longName != "" then comps[k].longName else fallback
    case None => fallback
  }

  // ---------------------------------------------------------------- locations

  /**
   * A geocoded location has a suburb; the synthetic fallback spreads the region
   * object instead, so it carries the region's `name` and no `suburb` key.
   */
  datatype Location =
    | Geocoded(address: string, suburb: string, state: string, postcode: string, latitude: real, longitude: real)
    | Fallback(address: string, name: string, postcode: string, state: string, latitude: real, longitude: real)

  /** The location built from a usable geocoder hit (dummyData.js:111-130). */
  function GeocodedLocation(comps: seq<Component>, region: Region, latitude: real, longitude: real): (loc: Location)
    ensures loc.Geocoded? && loc.state == region.state && loc.postcode == region.postcode
    ensures loc.latitude == latitude && loc.longitude == longitude
    ensures (forall j :: 0 <= j < |comps| ==> "locality" !in comps[j].types) ==> loc.suburb == region.name
    ensures forall i :: FirstWith(comps, "locality", i) && comps[i].longName != "" ==> loc.suburb == comps[i].longName
    ensures loc.suburb == ComponentName(comps, "locality", region.name)
    ensures loc.address == ComponentName(comps, "street_number", "") + " " + ComponentName(comps, "route", "")
    ensures region.name != "" ==> loc.suburb != ""
  {
    var streetNumber := ComponentName(comps, "street_number", "");
    var street := ComponentName(comps, "route", "");
    Geocoded(streetNumber + " " + street, ComponentName(comps, "locality", region.name),
             region.state, region.postcode, latitude, longitude)
  }

  function DigitChar(d: nat): char
    requires d < 10
  {
    "0123456789"[d]
  }

  /** A JavaScript template literal's rendering of a non-negative integer. */
  function DecimalString(n: nat): (s: string)
    ensures |s| > 0 && forall i :: 0 <= i < |s| ==> '0' <= s[i] <= '9'
    decreases n
  {
    if n < 10 then [DigitChar(n)] else DecimalString(n / 10) + [DigitChar(n % 10)]
  }

  function DigitValue(c: char): nat
    requires '0' <= c <= '9'
  {
    (c - '0') as nat
  }

  function ParseDecimal(s: string): nat
    requires forall i :: 0 <= i < |s| ==> '0' <= s[i] <= '9'
  {
    if s == [] then 0 else ParseDecimal(s[..|s| - 1]) * 10 + DigitValue(s[|s| - 1])
  }

  lemma {:induction false} DecimalRoundTrip(n: nat)
    ensures ParseDecimal(DecimalString(n)) == n
    decreases n
  {
    var s := DecimalString(n);
    if n >= 10 {
      DecimalRoundTrip(n / 10);
      assert s[..|s| - 1] == DecimalString(n / 10);
    }
  }

  /** `${n} ${stem} Street`, the synthetic street address. */
  function StreetAddress(houseNumber: nat, stem: string): string {
    DecimalString(houseNumber) + " " + stem + " Street"
  }

  /** The fallback house number `Math.floor(Math.random() * 200) + 1`. */
  function FallbackHouseNumber(r: Draw): (n: nat)
    ensures 1 <= n <= 200
  {
    Pick(r, 200) + 1
  }

  /** The fallback street stem `['Park', 'Beach', 'Forest', 'Hill'][Math.floor(Math.random() * 4)]`. */
  function FallbackStem(r: Draw): (stem: string)
    ensures stem in StreetStems
  {
    StreetStems[Pick(r, 4)]
  }

  /** The synthetic location of dummyData.js:133-140 and 145-152. */
  function FallbackLocation(numberDraw: Draw, stemDraw: Draw, region: Region, latitude: real, longitude: real): (loc: Location)
    ensures loc.Fallback? && loc.name == region.name && loc.postcode == region.postcode && loc.state == region.state
    ensures loc.latitude == latitude && loc.longitude == longitude
    ensures loc.address == StreetAddress(FallbackHouseNumber(numberDraw), FallbackStem(stemDraw))
  {
    Fallback(StreetAddress(FallbackHouseNumber(numberDraw), FallbackStem(stemDraw)),
             region.name, region.postcode, region.state, latitude, longitude)
  }

  /** The house number and the stem of a synthetic address can be read back from it. */
  lemma FallbackAddressDecodes(houseNumber: nat, stem: string)
    ensures var a := StreetAddress(houseNumber, stem);
      var k := |DecimalString(houseNumber)|;
      k < |a| && ParseDecimal(a[..k]) == houseNumber && a[k] == ' ' &&
      a[k + 1..] == stem + " Street"
  {
    var a := StreetAddress(houseNumber, stem);
    var k := |DecimalString(houseNumber)|;
    assert a[..k] == DecimalString(houseNumber);
    DecimalRoundTrip(houseNumber);
  }

  predicate FromSydneyRegion(loc: Location) {
    exists i :: 0 <= i < |SydneyRegions| && SydneyRegions[i].state == loc.state && SydneyRegions[i].postcode == loc.postcode
  }

  /** The number of draws generateRandomLocation makes for a given first geocoder reply. */
  function LocationDrawCount(reply: GeocodeReply): nat {
    if IsUsableHit(reply) then 3 else if reply.Results? && reply.hits == [] then 5 else 8
  }

  /** The draws left once generateRandomLocation() is done, or None when the stream runs out first. */
  function LocationRest(rs: seq<Draw>, geocode: Geocoder): (rest: Option<seq<Draw>>)
    ensures rest.Some? ==> |rest.value| <= |rs| - 3 && rest.value == rs[|rs| - |rest.value|..]
  {
    if |rs| < 3 then None
    else
      var reply := geocode(GetRandomCoordinate(SydneySouth, SydneyNorth, rs[0]), GetRandomCoordinate(SydneyWest, SydneyEast, rs[1]));
      if |rs| < LocationDrawCount(reply) then None else Some(rs[LocationDrawCount(reply)..])
  }

  /** The location generateRandomLocation() resolves to with the draws rs, when they suffice. */
  function RandomLocation(rs: seq<Draw>, geocode: Geocoder): Location
    requires LocationRest(rs, geocode).Some?
  {
    var latitude := GetRandomCoordinate(SydneySouth, SydneyNorth, rs[0]);
    var longitude := GetRandomCoordinate(SydneyWest, SydneyEast, rs[1]);
    var reply := geocode(latitude, longitude);
    var region := SydneyRegions[Pick(rs[2], |SydneyRegions|)];
    if IsUsableHit(reply) then GeocodedLocation(reply.hits[0].components.value, region, latitude, longitude)
    else if reply.Results? && reply.hits == [] then FallbackLocation(rs[3], rs[4], region, latitude, longitude)
    else FallbackLocation(rs[4], rs[5], SydneyRegions[Pick(rs[3], |SydneyRegions|)],
      GetRandomCoordinate(SydneySouth, SydneyNorth, rs[6]), GetRandomCoordinate(SydneyWest, SydneyEast, rs[7]))
  }

  /**
   * generateRandomLocation() (dummyData.js:85-154), apart from the wait for the maps
   * script. It draws latitude, longitude and region, asks the geocoder; a usable hit
   * gives a geocoded location; no hit gives a fallback with the same region and
   * coordinates; a throw (or a hit without address_components) is caught and
   * redraws region and coordinates. None: the draws ran out.
   */
  method GenerateRandomLocation(rs: seq<Draw>, geocode: Geocoder) returns (loc: Option<Location>, rest: seq<Draw>)
    ensures loc.Some? ==> InSydney(loc.value.latitude, loc.value.longitude) && FromSydneyRegion(loc.value)
    ensures loc.Some? ==> |rs| >= 3
    ensures |rs| >= 3 ==>
      var latitude := GetRandomCoordinate(SydneySouth, SydneyNorth, rs[0]);
      var longitude := GetRandomCoordinate(SydneyWest, SydneyEast, rs[1]);
      var reply := geocode(latitude, longitude);
      var region := SydneyRegions[Pick(rs[2], |SydneyRegions|)];
      && (loc.Some? <==> |rs| >= LocationDrawCount(reply))
      && (loc.Some? ==> rest == rs[LocationDrawCount(reply)..])
      && (loc.Some? ==> (loc.value.Geocoded? <==> IsUsableHit(reply)))
      && (IsUsableHit(reply) ==> loc == Some(GeocodedLocation(reply.hits[0].components.value, region, latitude, longitude)))
      && (reply.Results? && reply.hits == [] && loc.Some? ==>
            loc.value == FallbackLocation(rs[3], rs[4], region, latitude, longitude))
      && (!IsUsableHit(reply) && !(reply.Results? && reply.hits == []) && loc.Some? ==>
            loc.value == FallbackLocation(rs[4], rs[5], SydneyRegions[Pick(rs[3], |SydneyRegions|)],
              GetRandomCoordinate(SydneySouth, SydneyNorth, rs[6]), GetRandomCoordinate(SydneyWest, SydneyEast, rs[7])))
    ensures loc.Some? <==> LocationRest(rs, geocode).Some?
    ensures loc.Some? ==> rest == LocationRest(rs, geocode).value
    ensures loc.Some? ==> loc.value == RandomLocation(rs, geocode)
    ensures IsSuffix(rest, rs)
  {
    if |rs| < 3 {
      return None, rs;
    }
    DrawnCoordinatesInSydney(rs[0], rs[1]);
    var latitude := GetRandomCoordinate(SydneySouth, SydneyNorth, rs[0]);
    var longitude := GetRandomCoordinate(SydneyWest, SydneyEast, rs[1]);
    var region := SydneyRegions[Pick(rs[2], |SydneyRegions|)];
    var reply := geocode(latitude, longitude);
    if IsUsableHit(reply) {
      loc := Some(GeocodedLocation(reply.hits[0].components.value, region, latitude, longitude));
      rest := rs[3..];
    } else if reply.Results? && reply.hits == [] {
      if |rs| < 5 {
        return None, rs;
      }
      loc := Some(FallbackLocation(rs[3], rs[4], region, latitude, longitude));
      rest := rs[5..];
    } else {
      // the catch block: a fresh region, address and coordinates
      if |rs| < 8 {
        return None, rs;
      }
      var region' := SydneyRegions[Pick(rs[3], |SydneyRegions|)];
      DrawnCoordinatesInSydney(rs[6], rs[7]);
      loc := Some(FallbackLocation(rs[4], rs[5], region',
        GetRandomCoordinate(SydneySouth, SydneyNorth, rs[6]), GetRandomCoordinate(SydneyWest, SydneyEast, rs[7])));
      rest := rs[8..];
    }
  }

  // ---------------------------------------------------------------- title and description

  /** `${author.displayName}'s ${category} Sale`: it starts with the author's name and ends with the category and " Sale". */
  function Title(displayName: string, category: string): (t: string)
    ensures |displayName| <= |t| && t[..|displayName|] == displayName
    ensures EndsWith(t, category + " Sale")
  {
    var t := displayName + ("'s " + category + " Sale");
    assert t[..|displayName|] == displayName;
    assert t[|t| - |category + " Sale"|..] == category + " Sale";
    t
  }

  /** `items.join(', ')`: the first item leads, the last one closes, and a single item is the whole text. */
  function Join(items: seq<string>): (text: string)
    ensures items != [] ==> |items[0]| <= |text| && text[..|items[0]|] == items[0]
    ensures items != [] ==> EndsWith(text, items[|items| - 1])
    ensures |items| == 1 ==> text == items[0]
    ensures items == [] ==> text == ""
  {
    if items == [] then ""
    else if |items| == 1 then items[0]
    else
      var init := items[..|items| - 1];
      var head := Join(init);
      assert init[0] == items[0];
      var text := head + ", " + items[|items| - 1];
      assert text[..|head|] == head;
      assert text[|text| - |items[|items| - 1]|..] == items[|items| - 1];
      text
  }

  const MultiDaySuffix: string := "Multi-day sale!"
  const OneDaySuffix: string := "One day only!"

  /** `${items.join(', ')} and more! ${isMultiDay ? 'Multi-day sale!' : 'One day only!'}` */
  function Description(items: seq<string>, isMultiDay: bool): (d: string)
    ensures |Join(items)| <= |d| && d[..|Join(items)|] == Join(items)
    ensures EndsWith(d, if isMultiDay then MultiDaySuffix else OneDaySuffix)
  {
    var suffix := if isMultiDay then MultiDaySuffix else OneDaySuffix;
    var joined := Join(items);
    var d := joined + (" and more! " + suffix);
    assert d[..|joined|] == joined;
    assert d[|d| - |suffix|..] == suffix;
    d
  }

  predicate EndsWith(s: string, suffix: string) {
    |suffix| <= |s| && s[|s| - |suffix|..] == suffix
  }

  /** The description ends in 'Multi-day sale!' exactly for multi-day sales, and in 'One day only!' otherwise. */
  lemma DescriptionSuffix(items: seq<string>, isMultiDay: bool)
    ensures EndsWith(Description(items, isMultiDay), MultiDaySuffix) <==> isMultiDay
    ensures EndsWith(Description(items, isMultiDay), OneDaySuffix) <==> !isMultiDay
  {
    var d := Description(items, isMultiDay);
    var head := Join(items) + " and more! ";
    if isMultiDay {
      assert d[|d| - |MultiDaySuffix|..] == MultiDaySuffix;
      assert d[|d| - 2] == 'e' != OneDaySuffix[|OneDaySuffix| - 2];
    } else {
      assert d == head + OneDaySuffix;
      assert d[|d| - |OneDaySuffix|..] == OneDaySuffix;
      assert d[|d| - 2] == 'y' != MultiDaySuffix[|MultiDaySuffix| - 2];
    }
  }
}
