/** The itinerary list editor: append a day, remove a day and renumber, patch one field of
    one day, and patch the itinerary's own summary or picture. Every operation builds a new
    record from the old one. */
module ItineraryEditor {
  import opened Options
  import opened Keys
  import opened FormRecord

  // ---------------------------------------------------------------------------
  // Adding a day
  // ---------------------------------------------------------------------------

  /** The blank entry appended by the add button. */
  function NewDay(day: int): ItineraryItem {
    ItineraryItem(day, Some(""), Some(""), Some(""))
  }

  /** Appends one blank day numbered one past the current count (1 for an absent list).
      The earlier days, the summary, the picture and the top-level fields are untouched. */
  function AddItinerary(f: FormData): (r: FormData)
    ensures r.(productItinerary := f.productItinerary) == f
    ensures r.productItinerary.summary == f.productItinerary.summary
    ensures r.productItinerary.image == f.productItinerary.image
    ensures r.productItinerary.itineraries.Some?
    ensures |Items(r)| == |Items(f)| + 1
    ensures Items(r)[..|Items(f)|] == Items(f)
    ensures Items(r)[|Items(f)|] == NewDay(|Items(f)| + 1)
    ensures f.productItinerary.itineraries.None? ==> Items(r) == [NewDay(1)]
    ensures WellFormed(f) ==> WellFormed(r)
  {
    var days := f.productItinerary.itineraries;
    var day := if days.Some? then |days.value| + 1 else 1;
    var prior := if days.Some? then days.value else [];
    var r := f.(productItinerary := f.productItinerary.(itineraries := Some(prior + [NewDay(day)])));
    assert Items(r)[..|Items(f)|] == prior;
    r
  }

  // ---------------------------------------------------------------------------
  // Removing a day
  // ---------------------------------------------------------------------------

  /** `filter(itinerary => itinerary.day !== day)`: the entries whose day differs, in order. */
  function Filter(s: seq<ItineraryItem>, day: int): (r: seq<ItineraryItem>)
    ensures |r| <= |s|
    ensures forall i :: 0 <= i < |r| ==> r[i].day != day
    decreases |s|
  {
    if s == [] then []
    else if s[0].day != day then [s[0]] + Filter(s[1..], day)
    else Filter(s[1..], day)
  }

  /** Filter keeps every entry whose day differs and nothing else. */
  lemma {:induction false} FilterMembers(s: seq<ItineraryItem>, day: int)
    ensures forall x :: x in Filter(s, day) <==> x in s && x.day != day
    decreases |s|
  {
    if s != [] {
      FilterMembers(s[1..], day);
      assert s == [s[0]] + s[1..];
    }
  }

  /** Filter keeps the relative order of what it keeps: it distributes over concatenation. */
  lemma {:induction false} FilterAppend(a: seq<ItineraryItem>, b: seq<ItineraryItem>, day: int)
    ensures Filter(a + b, day) == Filter(a, day) + Filter(b, day)
    decreases |a|
  {
    if a != [] {
      assert (a + b)[0] == a[0];
      assert (a + b)[1..] == a[1..] + b;
      FilterAppend(a[1..], b, day);
    } else {
      assert a + b == b;
    }
  }

  /** A list with no entry for `day` passes through the filter unchanged. */
  lemma {:induction false} FilterNoMatch(s: seq<ItineraryItem>, day: int)
    requires forall i :: 0 <= i < |s| ==> s[i].day != day
    ensures Filter(s, day) == s
    decreases |s|
  {
    if s != [] {
      FilterNoMatch(s[1..], day);
      assert [s[0]] + s[1..] == s;
    }
  }

  /** `map((itinerary, index) => ({ ...itinerary, day: index + 1 }))`: renumber from 1,
      changing nothing but the day. */
  function Renumber(s: seq<ItineraryItem>): (r: seq<ItineraryItem>)
    ensures |r| == |s|
    ensures Contiguous(r)
    ensures forall i :: 0 <= i < |s| ==> r[i].(day := s[i].day) == s[i]
    ensures Contiguous(s) ==> r == s
  {
    seq(|s|, i requires 0 <= i < |s| => s[i].(day := i + 1))
  }

  /** The list after removing `day`: the surviving entries, renumbered 1..m in their
      original order, with their icon, image and content. No entry for `day` survives
      unless it is renumbered into it. */
  function RemoveDay(s: seq<ItineraryItem>, day: int): (r: seq<ItineraryItem>)
    ensures |r| == |Filter(s, day)| <= |s|
    ensures Contiguous(r)
    ensures forall i :: 0 <= i < |r| ==> r[i].(day := Filter(s, day)[i].day) == Filter(s, day)[i]
  {
    Renumber(Filter(s, day))
  }

  /** When index i holds the only entry for `day`, filtering drops exactly that entry. */
  lemma {:induction false} FilterUnique(s: seq<ItineraryItem>, i: nat, day: int)
    requires i < |s| && s[i].day == day
    requires forall j :: 0 <= j < |s| && j != i ==> s[j].day != day
    ensures Filter(s, day) == s[..i] + s[i + 1..]
    decreases |s|
  {
    if i == 0 {
      FilterNoMatch(s[1..], day);
    } else {
      assert s[0].day != day;
      FilterUnique(s[1..], i - 1, day);
      assert s[1..][..i - 1] == s[1..i];
      assert s[1..][i..] == s[i + 1..];
      assert [s[0]] + s[1..i] == s[..i];
    }
  }

  /** Removing a day 1..n from a contiguous list of n days removes exactly that entry:
      the earlier entries stay as they were and the later ones move down by one, each
      renumbered to its new position. */
  lemma RemoveInRange(s: seq<ItineraryItem>, day: int)
    requires Contiguous(s) && 1 <= day <= |s|
    ensures |RemoveDay(s, day)| == |s| - 1
    ensures Contiguous(RemoveDay(s, day))
    ensures RemoveDay(s, day)[..day - 1] == s[..day - 1]
    ensures forall i :: day - 1 <= i < |s| - 1 ==> RemoveDay(s, day)[i] == s[i + 1].(day := i + 1)
  {
    FilterUnique(s, day - 1, day);
    var kept := Filter(s, day);
    var r := RemoveDay(s, day);
    assert |kept| == |s| - 1;
    forall i | 0 <= i < day - 1
      ensures r[i] == s[i]
    {
      assert kept[i] == s[i];
    }
    forall i | day - 1 <= i < |s| - 1
      ensures r[i] == s[i + 1].(day := i + 1)
    {
      assert kept[i] == s[i + 1];
    }
  }

  /** Removing a day outside 1..n from a contiguous list of n days changes nothing. */
  lemma RemoveOutOfRange(s: seq<ItineraryItem>, day: int)
    requires Contiguous(s) && !(1 <= day <= |s|)
    ensures RemoveDay(s, day) == s
  {
    FilterNoMatch(s, day);
  }

  /** The remove handler: an absent list stays absent; otherwise it becomes RemoveDay of
      itself. Everything outside the list is untouched. */
  function RemoveItinerary(f: FormData, day: int): (r: FormData)
    ensures r.(productItinerary := f.productItinerary) == f
    ensures r.productItinerary.summary == f.productItinerary.summary
    ensures r.productItinerary.image == f.productItinerary.image
    ensures f.productItinerary.itineraries.None? ==> r == f
    ensures f.productItinerary.itineraries.Some? ==>
      r.productItinerary.itineraries.Some? && Items(r) == RemoveDay(Items(f), day)
    ensures WellFormed(f) ==> WellFormed(r)
  {
    match f.productItinerary.itineraries
    case None => f
    case Some(s) => f.(productItinerary := f.productItinerary.(itineraries := Some(RemoveDay(s, day))))
  }

  // ---------------------------------------------------------------------------
  // Patching one field of one day
  // ---------------------------------------------------------------------------

  /** Whether the entry's day is strictly equal to the parsed day; NaN matches nothing. */
  predicate Matches(x: ItineraryItem, day: Option<nat>) {
    day.Some? && x.day == day.value
  }

  /** `find(itinerary => itinerary.day === parsedDay)` followed by `indexOf` of what it
      found: the index of the first entry with that day, if any. */
  function FindDay(s: seq<ItineraryItem>, day: Option<nat>): (r: Option<nat>)
    ensures r.Some? ==> r.value < |s| && Matches(s[r.value], day)
    ensures r.Some? ==> forall j :: 0 <= j < r.value ==> !Matches(s[j], day)
    ensures r.None? <==> forall j :: 0 <= j < |s| ==> !Matches(s[j], day)
    decreases |s|
  {
    if s == [] then None
    else if Matches(s[0], day) then Some(0)
    else match FindDay(s[1..], day)
      case None => None
      case Some(i) => Some(i + 1)
  }

  function GetItemField(x: ItineraryItem, k: ItemField): Option<string> {
    match k
    case Icon => x.icon
    case Image => x.image
    case Content => x.content
  }

  /** `{ ...targetItinerary, [type]: value }`: the named field takes the value; the day
      and the other two fields keep theirs. */
  function SetItemField(x: ItineraryItem, k: ItemField, value: string): (r: ItineraryItem)
    ensures GetItemField(r, k) == Some(value)
    ensures forall k' :: k' != k ==> GetItemField(r, k') == GetItemField(x, k')
    ensures r.day == x.day
  {
    match k
    case Icon => x.(icon := Some(value))
    case Image => x.(image := Some(value))
    case Content => x.(content := Some(value))
  }

  /** The day-field handler for an input named `"<field>-<day>"`. When the list is absent,
      the day token is not a number or no entry has that day, the record is returned as it
      was. Otherwise exactly the named field of the first entry with that day changes. */
  function ChangeItineraryItem(f: FormData, name: string, value: string): (r: FormData)
    requires ItemFieldOf(name).Some?
    ensures r.(productItinerary := f.productItinerary) == f
    ensures r.productItinerary.(itineraries := f.productItinerary.itineraries) == f.productItinerary
    ensures DecodeItemKey(name).day.None? ==> r == f
    ensures FindDay(Items(f), DecodeItemKey(name).day).None? ==> r == f
    ensures FindDay(Items(f), DecodeItemKey(name).day).Some? ==>
      var i := FindDay(Items(f), DecodeItemKey(name).day).value;
      r.productItinerary.itineraries.Some? &&
      |Items(r)| == |Items(f)| &&
      Items(r)[i] == SetItemField(Items(f)[i], ItemFieldOf(name).value, value) &&
      forall j :: 0 <= j < |Items(f)| && j != i ==> Items(r)[j] == Items(f)[j]
    ensures WellFormed(f) ==> WellFormed(r)
  {
    var key := DecodeItemKey(name);
    match f.productItinerary.itineraries
    case None => f
    case Some(s) =>
      match FindDay(s, key.day)
      case None => f
      case Some(i) =>
        var updated := s[..i] + [SetItemField(s[i], ItemFieldOf(name).value, value)] + s[i + 1..];
        f.(productItinerary := f.productItinerary.(itineraries := Some(updated)))
  }

  /** For a well-formed record, the input the editor generates for `field` of day `day`
      edits the entry at index day-1 when that day exists, and nothing otherwise. */
  lemma ChangeByGeneratedKey(f: FormData, field: ItemField, day: nat, value: string)
    requires WellFormed(f)
    ensures 1 <= day <= |Items(f)| ==>
      Items(ChangeItineraryItem(f, ItemKey(field, day), value)) ==
        Items(f)[day - 1 := SetItemField(Items(f)[day - 1], field, value)]
    ensures !(1 <= day <= |Items(f)|) ==> ChangeItineraryItem(f, ItemKey(field, day), value) == f
  {
  }

  // ---------------------------------------------------------------------------
  // Patching the itinerary's own fields
  // ---------------------------------------------------------------------------

  function GetItineraryField(it: Itinerary, k: ItineraryField): Option<string> {
    match k
    case Summary => it.summary
    case Picture => it.image
  }

  /** The summary/picture handler for an input named `"productItinerary-<field>"`: the named
      field of the itinerary takes the value; the other one, the list of days and the
      top-level fields are untouched. */
  function ChangeProductItinerary(f: FormData, name: string, value: string): (r: FormData)
    requires ItineraryFieldOf(name).Some?
    ensures r.(productItinerary := f.productItinerary) == f
    ensures r.productItinerary.itineraries == f.productItinerary.itineraries
    ensures GetItineraryField(r.productItinerary, ItineraryFieldOf(name).value) == Some(value)
    ensures forall k :: k != ItineraryFieldOf(name).value ==>
      GetItineraryField(r.productItinerary, k) == GetItineraryField(f.productItinerary, k)
    ensures WellFormed(f) ==> WellFormed(r)
  {
    var it := f.productItinerary;
    match ItineraryFieldOf(name).value
    case Summary => f.(productItinerary := it.(summary := Some(value)))
    case Picture => f.(productItinerary := it.(image := Some(value)))
  }

  // ---------------------------------------------------------------------------
  // A worked session
  // ---------------------------------------------------------------------------

  /** From the empty record: name and type are set, two days are added, day 1's content is
      edited through its generated key, and then day 1 is removed. The survivor is the old
      day 2, renumbered 1. */
  lemma AcmeCruiseSession()
    ensures
      var f1 := SetField(SetField(InitialState(), ProductName, "Acme Cruise"), ProductType, "Cruise");
      var f2 := AddItinerary(AddItinerary(f1));
      var f3 := ChangeItineraryItem(f2, ItemKey(Content, 1), "Embark");
      var f4 := RemoveItinerary(f3, 1);
      f3.productName == "Acme Cruise" && f3.productType == "Cruise" &&
      Items(f3) == [ItineraryItem(1, Some(""), Some(""), Some("Embark")), NewDay(2)] &&
      Items(f4) == [NewDay(1)]
  {
  }
}
