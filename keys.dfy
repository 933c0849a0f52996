/** The composite input names the form component generates and decodes: an item key
    `"<field>-<day>"`, an itinerary key `"productItinerary-<field>"` and the plain
    top-level names. Decoding splits on '-' and reads the day with a leading-digit parse. */
module Keys {
  import opened Options

  // ---------------------------------------------------------------------------
  // Splitting on '-'
  // ---------------------------------------------------------------------------

  /** `s.split("-")`: the pieces between the dashes, empty pieces included. */
  function Split(s: string): (r: seq<string>)
    ensures |r| >= 1
    ensures forall p :: p in r ==> '-' !in p
    decreases |s|
  {
    if s == [] then [""]
    else
      var rest := Split(s[1..]);
      if s[0] == '-' then [""] + rest
      else
        assert rest[0] in rest;
        [[s[0]] + rest[0]] + rest[1..]
  }

  /** `parts.join("-")`, the inverse of Split. */
  function Join(parts: seq<string>): string
    requires |parts| >= 1
    decreases |parts|
  {
    if |parts| == 1 then parts[0] else parts[0] + "-" + Join(parts[1..])
  }

  /** Joining the pieces of a split gives back the original text. */
  lemma {:induction false} JoinSplit(s: string)
    ensures Join(Split(s)) == s
    decreases |s|
  {
    if s != [] {
      JoinSplit(s[1..]);
      var rest := Split(s[1..]);
      if s[0] == '-' {
        assert ([""] + rest)[1..] == rest;
      } else {
        var parts := [[s[0]] + rest[0]] + rest[1..];
        if |rest| > 1 {
          assert parts[1..] == rest[1..];
        }
        assert Join(parts) == [s[0]] + Join(rest);
        assert s == [s[0]] + s[1..];
      }
    }
  }

  /** A piece without a dash splits into itself. */
  lemma {:induction false} SplitNoDash(a: string)
    requires '-' !in a
    ensures Split(a) == [a]
    decreases |a|
  {
    if a != [] {
      assert a[0] in a;
      assert forall c :: c in a[1..] ==> c in a;
      SplitNoDash(a[1..]);
      assert [a[0]] + a[1..] == a;
    }
  }

  /** A dash-free piece followed by a dash is split off as the first piece. */
  lemma {:induction false} SplitDashCons(a: string, t: string)
    requires '-' !in a
    ensures Split(a + "-" + t) == [a] + Split(t)
    decreases |a|
  {
    var s := a + "-" + t;
    if a == [] {
      assert s[0] == '-' && s[1..] == t;
    } else {
      assert a[0] in a;
      assert forall c :: c in a[1..] ==> c in a;
      SplitDashCons(a[1..], t);
      assert s[0] == a[0] && s[1..] == a[1..] + "-" + t;
      assert [a[0]] + a[1..] == a;
    }
  }

  /** Splitting a join of dash-free pieces gives back the pieces. */
  lemma {:induction false} SplitJoin(parts: seq<string>)
    requires |parts| >= 1
    requires forall p :: p in parts ==> '-' !in p
    ensures Split(Join(parts)) == parts
    decreases |parts|
  {
    assert parts[0] in parts;
    if |parts| == 1 {
      SplitNoDash(parts[0]);
    } else {
      assert forall p :: p in parts[1..] ==> p in parts;
      SplitJoin(parts[1..]);
      SplitDashCons(parts[0], Join(parts[1..]));
      assert [parts[0]] + parts[1..] == parts;
    }
  }

  // ---------------------------------------------------------------------------
  // Decimal digits
  // ---------------------------------------------------------------------------

  predicate IsDigit(c: char) {
    '0' <= c <= '9'
  }

  function DigitValue(c: char): nat
    requires IsDigit(c)
  {
    c as int - '0' as int
  }

  function DigitChar(n: nat): (c: char)
    requires n < 10
    ensures IsDigit(c) && DigitValue(c) == n
  {
    ('0' as int + n) as char
  }

  /** The length of the run of decimal digits at the start of `s`. */
  function LeadingDigits(s: string): (n: nat)
    ensures n <= |s|
    ensures forall i :: 0 <= i < n ==> IsDigit(s[i])
    ensures n < |s| ==> !IsDigit(s[n])
    decreases |s|
  {
    if s == [] || !IsDigit(s[0]) then 0 else 1 + LeadingDigits(s[1..])
  }

  /** The number a string of decimal digits denotes, most significant digit first. */
  function DecimalValue(ds: string): nat
    requires forall i :: 0 <= i < |ds| ==> IsDigit(ds[i])
    decreases |ds|
  {
    if ds == [] then 0 else 10 * DecimalValue(ds[..|ds| - 1]) + DigitValue(ds[|ds| - 1])
  }

  /** `parseInt(s, 10)` on the tokens the component produces: the value of the leading
      decimal digits, or None (JavaScript's NaN) when `s` does not begin with a digit. */
  function ParseDay(s: string): (r: Option<nat>)
    ensures r.None? <==> (s == [] || !IsDigit(s[0]))
    ensures r.Some? ==> r.value == DecimalValue(s[..LeadingDigits(s)])
  {
    var n := LeadingDigits(s);
    if n == 0 then None else Some(DecimalValue(s[..n]))
  }

  /** The decimal text of a day number, as a template literal `${day}` writes it. */
  function Decimal(n: nat): (r: string)
    ensures |r| >= 1
    ensures forall i :: 0 <= i < |r| ==> IsDigit(r[i])
    ensures '-' !in r
  {
    if n < 10 then [DigitChar(n)] else Decimal(n / 10) + [DigitChar(n % 10)]
  }

  lemma {:induction false} DecimalValueOfDecimal(n: nat)
    ensures DecimalValue(Decimal(n)) == n
  {
    if n >= 10 {
      var d := Decimal(n);
      assert d[..|d| - 1] == Decimal(n / 10);
      DecimalValueOfDecimal(n / 10);
    }
  }

  /** Parsing the decimal text of a number, followed by anything that is not a digit,
      gives the number back. */
  lemma ParseDecimal(n: nat, rest: string)
    requires rest == [] || !IsDigit(rest[0])
    ensures ParseDay(Decimal(n) + rest) == Some(n)
  {
    var d := Decimal(n);
    var s := d + rest;
    var k := LeadingDigits(s);
    assert forall i :: 0 <= i < |d| ==> s[i] == d[i];
    assert |d| == |s| || s[|d|] == rest[0];
    assert k == |d|;
    assert s[..k] == d;
    DecimalValueOfDecimal(n);
  }

  // ---------------------------------------------------------------------------
  // Field names
  // ---------------------------------------------------------------------------

  /** The top-level record fields that have an input control. */
  datatype TopField = ProductName | ProductType | ProductPrice

  function TopFieldName(k: TopField): string {
    match k
    case ProductName => "productName"
    case ProductType => "productType"
    case ProductPrice => "productPrice"
  }

  /** The field an input's `name` attribute addresses, if it is one of the three. */
  function ParseTopField(name: string): (r: Option<TopField>)
    ensures r.Some? ==> TopFieldName(r.value) == name
    ensures forall k :: TopFieldName(k) == name ==> r == Some(k)
  {
    if name == "productName" then Some(ProductName)
    else if name == "productType" then Some(ProductType)
    else if name == "productPrice" then Some(ProductPrice)
    else None
  }

  /** The fields of one itinerary day that have an input control. */
  datatype ItemField = Icon | Image | Content

  function ItemFieldName(k: ItemField): string {
    match k
    case Icon => "icon"
    case Image => "image"
    case Content => "content"
  }

  function ParseItemField(token: string): (r: Option<ItemField>)
    ensures r.Some? ==> ItemFieldName(r.value) == token
    ensures forall k :: ItemFieldName(k) == token ==> r == Some(k)
  {
    if token == "icon" then Some(Icon)
    else if token == "image" then Some(Image)
    else if token == "content" then Some(Content)
    else None
  }

  /** The itinerary's own fields that have an input control. */
  datatype ItineraryField = Summary | Picture

  function ItineraryFieldName(k: ItineraryField): string {
    match k
    case Summary => "summary"
    case Picture => "image"
  }

  function ParseItineraryField(token: string): (r: Option<ItineraryField>)
    ensures r.Some? ==> ItineraryFieldName(r.value) == token
    ensures forall k :: ItineraryFieldName(k) == token ==> r == Some(k)
  {
    if token == "summary" then Some(Summary)
    else if token == "image" then Some(Picture)
    else None
  }

  // ---------------------------------------------------------------------------
  // Item keys "<field>-<day>"
  // ---------------------------------------------------------------------------

  /** What `const [type, day] = name.split("-")` followed by `parseInt(day, 10)` yields:
      the type token and the parsed day (None for NaN, including a missing day token). */
  datatype ItemKeyParts = ItemKeyParts(field: string, day: Option<nat>)

  function DecodeItemKey(name: string): (r: ItemKeyParts)
    ensures r.field == Split(name)[0]
    ensures |Split(name)| == 1 ==> r.day == None
    ensures |Split(name)| >= 2 ==> r.day == ParseDay(Split(name)[1])
  {
    var parts := Split(name);
    ItemKeyParts(parts[0], if |parts| >= 2 then ParseDay(parts[1]) else None)
  }

  /** The item field an item key addresses, if its type token names one. */
  function ItemFieldOf(name: string): Option<ItemField> {
    ParseItemField(DecodeItemKey(name).field)
  }

  /** The name the editor gives the input for `field` of day `day`; it decodes back to
      that field and that day. */
  function ItemKey(field: ItemField, day: nat): (r: string)
    ensures DecodeItemKey(r) == ItemKeyParts(ItemFieldName(field), Some(day))
    ensures ItemFieldOf(r) == Some(field)
  {
    var r := ItemFieldName(field) + "-" + Decimal(day);
    SplitJoin([ItemFieldName(field), Decimal(day)]);
    assert r == Join([ItemFieldName(field), Decimal(day)]);
    ParseDecimal(day, []);
    assert Decimal(day) + [] == Decimal(day);
    r
  }

  // ---------------------------------------------------------------------------
  // Itinerary keys "productItinerary-<field>"
  // ---------------------------------------------------------------------------

  /** `name.split("-")[1]`: the second piece of the name, if there is one. The first
      piece is not looked at. */
  function ItineraryFieldOf(name: string): (r: Option<ItineraryField>)
    ensures |Split(name)| == 1 ==> r == None
    ensures |Split(name)| >= 2 ==> r == ParseItineraryField(Split(name)[1])
  {
    var parts := Split(name);
    if |parts| >= 2 then ParseItineraryField(parts[1]) else None
  }

  /** The name the editor gives the input for the itinerary's own `field`; it decodes
      back to that field. */
  function ItineraryKey(field: ItineraryField): (r: string)
    ensures ItineraryFieldOf(r) == Some(field)
  {
    var r := "productItinerary" + "-" + ItineraryFieldName(field);
    SplitJoin(["productItinerary", ItineraryFieldName(field)]);
    assert r == Join(["productItinerary", ItineraryFieldName(field)]);
    r
  }
}
