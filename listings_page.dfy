/**
 * The listings page (src/pages/listings/ListingsPage.js): the fetched rows with
 * their date fallbacks, the delete filter, the generate-and-refresh flow with its
 * loading flag and snackbar, and the status, date-range and views cells.
 */
module ListingsPage {
  import opened Wrappers
  import opened Documents
  import opened Rows
  import DummyGenerator
  import DummyStore

  const NotAvailable: string := "N/A"

  /** `v?.[0]`: the first element of an array, the first character of a string, an object's field "0". */
  function FirstElement(v: Option<Value>): (e: Option<Value>)
    ensures v == Some(Arr([])) || v.None? || v == Some(Null) ==> e.None?
    ensures v.Some? && v.value.Arr? && |v.value.items| > 0 ==> e == Some(v.value.items[0])
  {
    match v
    case Some(Arr(items)) => if |items| > 0 then Some(items[0]) else None
    case Some(Obj(fields)) => Get(fields, "0")
    case Some(Str(s)) => if |s| > 0 then Some(Str([s[0]])) else None
    case _ => None
  }

  /** `v?.k`: only an object has the date fields read here. */
  function Member(v: Option<Value>, k: string): (m: Option<Value>)
    ensures m.Some? <==> v.Some? && v.value.Obj? && k in v.value.fields
    ensures m.Some? ==> m.value == v.value.fields[k]
  {
    match v
    case Some(Obj(fields)) => Get(fields, k)
    case _ => None
  }

  /** The start or end date cell: `doc.data().eventDates?.[0]?.<field>?.toDate().toLocaleDateString() || 'N/A'`. */
  function EventDateText(data: Doc, field: string, format: DateFormat): (text: Option<string>)
    ensures text.None? <==> var e := FirstElement(Get(data, "eventDates"));
      e.Some? && e.value.Obj? && field in e.value.fields && !e.value.fields[field].Null? && !HasToDate(e.value.fields[field])
    ensures FirstElement(Get(data, "eventDates")).None? ==> text == Some(NotAvailable)
    ensures text.Some? ==> text.value != ""
  {
    DateText(Member(FirstElement(Get(data, "eventDates")), field), format, NotAvailable)
  }

  /** The three date overrides a listing row carries, in source order. */
  datatype DateCells = DateCells(created: string, start: string, end: string)

  function ListingDates(data: Doc, format: DateFormat): (cells: Option<DateCells>)
    ensures cells.Some? <==>
      DateText(Get(data, "dateCreated"), format, NotAvailable).Some? &&
      EventDateText(data, "startDate", format).Some? && EventDateText(data, "endDate", format).Some?
    ensures cells.Some? ==> cells.value.created != "" && cells.value.start != "" && cells.value.end != ""
    ensures cells.Some? ==>
      && cells.value.created == DateText(Get(data, "dateCreated"), format, NotAvailable).value
      && cells.value.start == EventDateText(data, "startDate", format).value
      && cells.value.end == EventDateText(data, "endDate", format).value
  {
    var created := DateText(Get(data, "dateCreated"), format, NotAvailable);
    var start := EventDateText(data, "startDate", format);
    var end := EventDateText(data, "endDate", format);
    if created.Some? && start.Some? && end.Some? then Some(DateCells(created.value, start.value, end.value)) else None
  }

  /** `{ id: doc.id, ...doc.data(), dateCreated: ..., startDate: ..., endDate: ... }`; None: a `toDate` call threw. */
  function ListingRow(d: FetchedDoc, format: DateFormat): (row: Option<Doc>)
    ensures row.Some? <==> ListingDates(d.data, format).Some?
    ensures row.Some? ==> row.value.Keys == d.data.Keys + {"id", "dateCreated", "startDate", "endDate"}
    ensures row.Some? && "id" !in d.data ==> row.value["id"] == Str(d.id)
    ensures row.Some? ==> forall k :: k in d.data && k !in {"dateCreated", "startDate", "endDate"} ==> row.value[k] == d.data[k]
    ensures row.Some? ==> var cells := ListingDates(d.data, format).value;
      row.value["dateCreated"] == Str(cells.created) && row.value["startDate"] == Str(cells.start) &&
      row.value["endDate"] == Str(cells.end)
  {
    match ListingDates(d.data, format)
    case None => None
    case Some(cells) =>
      Some(BaseRow(d)["dateCreated" := Str(cells.created)]["startDate" := Str(cells.start)]["endDate" := Str(cells.end)])
  }

  function ListingRows(docs: seq<FetchedDoc>, format: DateFormat): (rows: Option<seq<Doc>>)
    ensures rows.Some? <==> forall i :: 0 <= i < |docs| ==> ListingRow(docs[i], format).Some?
    ensures rows.Some? ==> |rows.value| == |docs| && forall i :: 0 <= i < |docs| ==> rows.value[i] == ListingRow(docs[i], format).value
  {
    MapRows(docs, d => ListingRow(d, format))
  }

  /** Start and end cells read `eventDates[0]` only: two documents with the same first entry get the same cells. */
  lemma DatesFromFirstEntry(a: Doc, b: Doc, format: DateFormat)
    requires FirstElement(Get(a, "eventDates")) == FirstElement(Get(b, "eventDates"))
    ensures EventDateText(a, "startDate", format) == EventDateText(b, "startDate", format)
    ensures EventDateText(a, "endDate", format) == EventDateText(b, "endDate", format)
  {
  }

  /** A listing without event dates (missing, null or empty) shows N/A for both ends, and never throws for them. */
  lemma MissingEventDatesShowNA(data: Doc, format: DateFormat)
    requires Get(data, "eventDates") in {None, Some(Null), Some(Arr([]))}
    ensures EventDateText(data, "startDate", format) == Some(NotAvailable)
    ensures EventDateText(data, "endDate", format) == Some(NotAvailable)
  {
  }

  /** A first entry whose start and end are timestamps shows their formatted dates (or N/A when formatting gives ""). */
  lemma TimestampEventDates(data: Doc, format: DateFormat, start: int, end: int)
    requires Get(data, "eventDates").Some? && data["eventDates"].Arr? && |data["eventDates"].items| > 0
    requires data["eventDates"].items[0].Obj?
    requires "startDate" in data["eventDates"].items[0].fields
    requires data["eventDates"].items[0].fields["startDate"] == Timestamp(start)
    requires "endDate" in data["eventDates"].items[0].fields
    requires data["eventDates"].items[0].fields["endDate"] == Timestamp(end)
    ensures EventDateText(data, "startDate", format) == Some(if format(start) != "" then format(start) else NotAvailable)
    ensures EventDateText(data, "endDate", format) == Some(if format(end) != "" then format(end) else NotAvailable)
  {
    var first := data["eventDates"].items[0];
    assert FirstElement(Get(data, "eventDates")) == Some(first);
    assert Member(Some(first), "startDate") == Some(Timestamp(start));
    assert Member(Some(first), "endDate") == Some(Timestamp(end));
  }

  /** `listing.filter(l => l.id !== id)` */
  function WithoutId(listings: seq<Doc>, id: Value): (r: seq<Doc>)
    ensures |r| <= |listings|
    ensures forall x :: x in r <==> x in listings && !HasId(x, id)
    decreases |listings|
  {
    if listings == [] then []
    else (if HasId(listings[0], id) then [] else [listings[0]]) + WithoutId(listings[1..], id)
  }

  /** The filter works entry by entry, so it keeps the survivors' relative order. */
  lemma {:induction false} WithoutIdAppend(a: seq<Doc>, b: seq<Doc>, id: Value)
    ensures WithoutId(a + b, id) == WithoutId(a, id) + WithoutId(b, id)
    decreases |a|
  {
    if a == [] {
      assert a + b == b;
    } else {
      assert (a + b)[1..] == a[1..] + b;
      WithoutIdAppend(a[1..], b, id);
    }
  }

  /** Deleting an id that no entry carries leaves the list as it is. */
  lemma {:induction false} WithoutIdAbsent(listings: seq<Doc>, id: Value)
    requires forall i :: 0 <= i < |listings| ==> !HasId(listings[i], id)
    ensures WithoutId(listings, id) == listings
    decreases |listings|
  {
    if listings != [] {
      WithoutIdAbsent(listings[1..], id);
      assert listings == [listings[0]] + listings[1..];
    }
  }

  /** Exactly the entries with the id go: the list shrinks by their number. */
  function CountWithId(listings: seq<Doc>, id: Value): nat
    decreases |listings|
  {
    if listings == [] then 0 else (if HasId(listings[0], id) then 1 else 0) + CountWithId(listings[1..], id)
  }

  lemma {:induction false} WithoutIdLength(listings: seq<Doc>, id: Value)
    ensures |WithoutId(listings, id)| == |listings| - CountWithId(listings, id)
    decreases |listings|
  {
    if listings != [] {
      WithoutIdLength(listings[1..], id);
    }
  }

  /** Deleting twice is deleting once. */
  lemma WithoutIdIdempotent(listings: seq<Doc>, id: Value)
    ensures WithoutId(WithoutId(listings, id), id) == WithoutId(listings, id)
  {
    var r := WithoutId(listings, id);
    forall i | 0 <= i < |r| ensures !HasId(r[i], id) {
      assert r[i] in r;
    }
    WithoutIdAbsent(r, id);
  }

  /** The status chip colour: `status === 'active' ? 'success' : status === 'completed' ? 'default' : 'error'`. */
  function StatusColor(status: Option<Value>): (c: ChipColor)
    ensures c == ColorSuccess <==> status == Some(Str("active"))
    ensures c == ColorDefault <==> status == Some(Str("completed"))
    ensures c == ColorError <==> status !in {Some(Str("active")), Some(Str("completed"))}
  {
    if status == Some(Str("active")) then ColorSuccess
    else if status == Some(Str("completed")) then ColorDefault
    else ColorError
  }

  /** Every listing the generator writes is active, so its chip is green. */
  lemma GeneratedListingsShowActive(d: DummyStore.ListingDoc)
    requires DummyGenerator.WellFormedAuthorship(d)
    ensures StatusColor(Some(Str(d.status))) == ColorSuccess
  {
  }

  /** The date-range cell: `isMultiDay ? `${startDate} - ${endDate}` : startDate`. */
  function DateRange(isMultiDay: Option<Value>, start: string, end: string): (cell: string)
    ensures isMultiDay.Some? && Truthy(isMultiDay.value) ==> cell == start + " - " + end
    ensures !(isMultiDay.Some? && Truthy(isMultiDay.value)) ==> cell == start
  {
    if isMultiDay.Some? && Truthy(isMultiDay.value) then start + " - " + end else start
  }

  /** The end date shows only for multi-day listings: the cell is longer than the start exactly then. */
  lemma DateRangeShowsEndIffMultiDay(isMultiDay: Option<Value>, start: string, end: string)
    ensures |DateRange(isMultiDay, start, end)| > |start| <==> isMultiDay.Some? && Truthy(isMultiDay.value)
    ensures DateRange(isMultiDay, start, end)[..|start|] == start
  {
  }

  /** The views cell: `listing.views || 0`. */
  function ViewsCell(listing: Doc): (v: Value)
    ensures "views" in listing && Truthy(listing["views"]) ==> v == listing["views"]
    ensures !("views" in listing && Truthy(listing["views"])) ==> v == Num(0)
  {
    FieldOr(listing, "views", Num(0))
  }

  datatype Severity = SuccessSeverity | ErrorSeverity

  datatype Snackbar = Snackbar(open: bool, message: string, severity: Severity)

  const GeneratedSnackbar: Snackbar := Snackbar(true, "Successfully generated dummy listings!", SuccessSeverity)
  const FailedSnackbar: Snackbar := Snackbar(true, "Error generating dummy listings", ErrorSeverity)

  /** The component state: `listings`, `loading` and `snackbar`. */
  class State {
    var listings: seq<Doc>
    var loading: bool
    var snackbar: Snackbar

    constructor ()
      ensures listings == [] && loading && snackbar == Snackbar(false, "", SuccessSeverity)
    {
      listings, loading, snackbar := [], true, Snackbar(false, "", SuccessSeverity);
    }

    /** The fetch effect settling: rows on success, the list untouched on any throw, loading cleared in `finally`. */
    method FetchSettled(reply: FetchReply, format: DateFormat)
      modifies this
      ensures !loading && snackbar == old(snackbar)
      ensures reply.Docs? && ListingRows(reply.docs, format).Some? ==> listings == ListingRows(reply.docs, format).value
      ensures !(reply.Docs? && ListingRows(reply.docs, format).Some?) ==> listings == old(listings)
    {
      if reply.Docs? {
        var rows := ListingRows(reply.docs, format);
        if rows.Some? {
          listings := rows.value;
        }
      }
      loading := false;
    }

    /**
     * handleDelete(id): `confirmed` is the answer to window.confirm, `failure` how
     * `deleteDoc` rejects (None when it resolves).
     */
    method HandleDelete(id: Value, confirmed: bool, failure: Option<string>)
      modifies this
      ensures confirmed && failure.None? ==> listings == WithoutId(old(listings), id)
      ensures !(confirmed && failure.None?) ==> listings == old(listings)
      ensures loading == old(loading) && snackbar == old(snackbar)
    {
      if confirmed && failure.None? {
        listings := WithoutId(listings, id);
      }
    }

    /** handleGenerateDummy up to its first await: `setLoading(true)`. */
    method StartGenerateDummy()
      modifies this
      ensures loading
      ensures listings == old(listings) && snackbar == old(snackbar)
    {
      loading := true;
    }

    /**
     * handleGenerateDummy after `generateDummyListings(10)` settled with `generated` and
     * the refresh query with `refresh`: on success the rows and the success snackbar,
     * on any throw the error snackbar; loading is cleared in `finally` either way.
     */
    method FinishGenerateDummy(generated: Result<seq<DummyStore.GeneratedListing>, DummyGenerator.GenError>,
                               refresh: FetchReply, format: DateFormat)
      modifies this
      ensures !loading
      ensures var ok := generated.Success? && refresh.Docs? && ListingRows(refresh.docs, format).Some?;
        && (ok ==> listings == ListingRows(refresh.docs, format).value && snackbar == GeneratedSnackbar)
        && (!ok ==> listings == old(listings) && snackbar == FailedSnackbar)
    {
      var ok := false;
      if generated.Success? && refresh.Docs? {
        var rows := ListingRows(refresh.docs, format);
        if rows.Some? {
          listings := rows.value;
          ok := true;
        }
      }
      snackbar := if ok then GeneratedSnackbar else FailedSnackbar;
      loading := false;
    }

    /** The snackbar's onClose: `{...snackbar, open: false}`. */
    method CloseSnackbar()
      modifies this
      ensures snackbar == old(snackbar).(open := false)
      ensures listings == old(listings) && loading == old(loading)
    {
      snackbar := snackbar.(open := false);
    }
  }
}
