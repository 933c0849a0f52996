/** The product record the form edits, its canonical empty and demonstration values,
    and the top-level field patch. */
module FormRecord {
  import opened Options
  import opened Keys

  /** One day of the itinerary. The day number is a JavaScript number; only integral
      values are ever stored. */
  datatype ItineraryItem = ItineraryItem(
    day: int,
    icon: Option<string>,
    image: Option<string>,
    content: Option<string>)

  /** The itinerary's summary, picture and list of days; all three are optional. */
  datatype Itinerary = Itinerary(
    summary: Option<string>,
    image: Option<string>,
    itineraries: Option<seq<ItineraryItem>>)

  datatype FormData = FormData(
    productName: string,
    productType: string,
    productPrice: string,
    productItinerary: Itinerary,
    productInclusions: seq<string>,
    productExclusions: seq<string>)

  /** The list of days, an absent list read as empty (`itineraries ?? []`). */
  function Items(f: FormData): seq<ItineraryItem> {
    match f.productItinerary.itineraries
    case Some(s) => s
    case None => []
  }

  /** Day numbers run 1, 2, ..., n in list order. */
  predicate Contiguous(s: seq<ItineraryItem>) {
    forall i :: 0 <= i < |s| ==> s[i].day == i + 1
  }

  /** The invariant every handler keeps: the list of days is present and numbered from 1. */
  predicate WellFormed(f: FormData) {
    f.productItinerary.itineraries.Some? && Contiguous(Items(f))
  }

  /** All text fields empty and all lists empty. */
  predicate IsEmptyRecord(f: FormData) {
    f.productName == "" && f.productType == "" && f.productPrice == "" &&
    f.productItinerary.summary == Some("") && f.productItinerary.image == Some("") &&
    f.productItinerary.itineraries == Some([]) &&
    f.productInclusions == [] && f.productExclusions == []
  }

  // ---------------------------------------------------------------------------
  // Product types and icon keys
  // ---------------------------------------------------------------------------

  /** The closed set of product types offered by the type selector. */
  datatype ProductKind = Cruise | Tour | Accommodation | Flight | HolidayPackage

  function Label(k: ProductKind): string {
    match k
    case Cruise => "Cruise"
    case Tour => "Tour"
    case Accommodation => "Accommodation"
    case Flight => "Flight"
    case HolidayPackage => "Holiday Package"
  }

  function LowerChar(c: char): char {
    if 'A' <= c <= 'Z' then (c as int + 32) as char else c
  }

  /** `toLowerCase` on ASCII letters, the only letters the labels use. */
  function ToLower(s: string): (r: string)
    ensures |r| == |s|
  {
    seq(|s|, i requires 0 <= i < |s| => LowerChar(s[i]))
  }

  /** The value the day icon selector stores for a product type. */
  function IconKey(k: ProductKind): (r: string)
    ensures r == ToLower(Label(k))
  {
    var r := match k
      case Cruise => "cruise"
      case Tour => "tour"
      case Accommodation => "accommodation"
      case Flight => "flight"
      case HolidayPackage => "holiday package";
    assert forall i :: 0 <= i < |r| ==> r[i] == LowerChar(Label(k)[i]);
    r
  }

  /** Distinct product types have distinct labels and distinct icon keys, so a stored
      value names one type. */
  lemma KindsDistinct(k1: ProductKind, k2: ProductKind)
    requires k1 != k2
    ensures Label(k1) != Label(k2)
    ensures IconKey(k1) != IconKey(k2)
  {
  }

  // ---------------------------------------------------------------------------
  // Initial, reset and demonstration records
  // ---------------------------------------------------------------------------

  /** The state the component starts in. */
  function InitialState(): (r: FormData)
    ensures IsEmptyRecord(r) && WellFormed(r)
  {
    FormData("", "", "", Itinerary(Some(""), Some(""), Some([])), [], [])
  }

  /** The record the reset action installs, written out separately in the component. */
  function ResetState(): (r: FormData)
    ensures IsEmptyRecord(r) && WellFormed(r)
  {
    FormData("", "", "", Itinerary(Some(""), Some(""), Some([])), [], [])
  }

  /** There is exactly one empty record, so reset restores the initial state. */
  lemma ResetIsInitial()
    ensures ResetState() == InitialState()
    ensures forall f :: IsEmptyRecord(f) ==> f == InitialState()
  {
  }

  /** The fixed demonstration record installed by the fill action. */
  function DemoState(): (r: FormData)
    ensures WellFormed(r) && |Items(r)| == 2
    ensures r.productType == Label(Cruise)
    ensures Items(r)[0].icon == Some(IconKey(Cruise))
    ensures Items(r)[1].icon == Some(IconKey(Accommodation))
    ensures r.productInclusions == [] && r.productExclusions == []
  {
    FormData(
      "Product XYZ",
      "Cruise",
      "1000",
      Itinerary(
        Some("This is a summary of the product's itinerary"),
        Some("https://picsum.photos/id/49/1280/792"),
        Some([
          ItineraryItem(1, Some("cruise"), Some("https://picsum.photos/id/11/2500/1667"), Some("Day 1 content")),
          ItineraryItem(2, Some("accommodation"), Some("https://picsum.photos/200"), Some("Day 2 content"))
        ])),
      [],
      [])
  }

  // ---------------------------------------------------------------------------
  // Top-level field patch
  // ---------------------------------------------------------------------------

  function GetField(f: FormData, k: TopField): string {
    match k
    case ProductName => f.productName
    case ProductType => f.productType
    case ProductPrice => f.productPrice
  }

  /** `{ ...formData, [name]: value }` for one of the three top-level text fields: the
      named field takes the value and nothing else changes. */
  function SetField(f: FormData, k: TopField, value: string): (r: FormData)
    ensures GetField(r, k) == value
    ensures forall k' :: k' != k ==> GetField(r, k') == GetField(f, k')
    ensures r.productItinerary == f.productItinerary
    ensures r.productInclusions == f.productInclusions && r.productExclusions == f.productExclusions
    ensures WellFormed(f) ==> WellFormed(r)
  {
    match k
    case ProductName => f.(productName := value)
    case ProductType => f.(productType := value)
    case ProductPrice => f.(productPrice := value)
  }

  /** The change handler: decode the input's name, then patch that field. */
  function HandleChange(f: FormData, name: string, value: string): (r: FormData)
    requires ParseTopField(name).Some?
    ensures forall k :: TopFieldName(k) == name ==> GetField(r, k) == value
    ensures forall k :: TopFieldName(k) != name ==> GetField(r, k) == GetField(f, k)
    ensures r.productItinerary == f.productItinerary
    ensures r.productInclusions == f.productInclusions && r.productExclusions == f.productExclusions
  {
    SetField(f, ParseTopField(name).value, value)
  }

  /** One input event on a top-level field. */
  datatype Patch = Patch(field: TopField, value: string)

  /** A sequence of patches applied in order. */
  function ApplyPatches(f: FormData, ps: seq<Patch>): FormData
    decreases |ps|
  {
    if ps == [] then f else ApplyPatches(SetField(f, ps[0].field, ps[0].value), ps[1..])
  }

  /** The value of the last patch to field `k`, or `otherwise` when none touches it. */
  function LastWrite(ps: seq<Patch>, k: TopField, otherwise: string): string
    decreases |ps|
  {
    if ps == [] then otherwise
    else if ps[|ps| - 1].field == k then ps[|ps| - 1].value
    else LastWrite(ps[..|ps| - 1], k, otherwise)
  }

  lemma {:induction false} ApplyPatchesSnoc(f: FormData, ps: seq<Patch>, p: Patch)
    ensures ApplyPatches(f, ps + [p]) == SetField(ApplyPatches(f, ps), p.field, p.value)
    decreases |ps|
  {
    if ps != [] {
      assert (ps + [p])[1..] == ps[1..] + [p];
      ApplyPatchesSnoc(SetField(f, ps[0].field, ps[0].value), ps[1..], p);
    }
  }

  /** Last write wins: after any sequence of patches each field holds the value of the
      last patch to it, and the rest of the record is untouched. */
  lemma {:induction false} LastWriteWins(f: FormData, ps: seq<Patch>, k: TopField)
    ensures GetField(ApplyPatches(f, ps), k) == LastWrite(ps, k, GetField(f, k))
    ensures ApplyPatches(f, ps).productItinerary == f.productItinerary
    ensures ApplyPatches(f, ps).productInclusions == f.productInclusions
    ensures ApplyPatches(f, ps).productExclusions == f.productExclusions
    decreases |ps|
  {
    if ps != [] {
      var init := ps[..|ps| - 1];
      var p := ps[|ps| - 1];
      assert ps == init + [p];
      ApplyPatchesSnoc(f, init, p);
      LastWriteWins(f, init, k);
    }
  }
}
