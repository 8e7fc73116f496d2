/** The fixed three-day itinerary that the backend returns when no API key is
    configured (generateMockItinerary in server/index.js). Three slots echo
    the caller's destination, start date and end date, unconverted; the
    title interpolates the destination; every other field is a literal,
    including the day-2 date. */
module MockItinerary {
  import opened JsValue

  /** One day of an itinerary. `date` echoes a request value for days 1
      and 3, so it is a JavaScript value rather than a string. */
  datatype DayPlan = DayPlan(day: int, date: Json, highlights: seq<string>, meals: seq<string>, notes: string)

  /** The mock itinerary document. */
  datatype Itinerary = Itinerary(
    title: string,
    destination: Json,
    startDate: Json,
    endDate: Json,
    days: int,
    budget: string,
    items: seq<DayPlan>)

  const Day2Date: string := "2025-11-09"
  const MockBudget: string := "Medium"

  /** The itinerary object literal, given the text of its title. */
  function Document(title: string, destination: Json, startDate: Json, endDate: Json): (r: Itinerary)
  {
    Itinerary(
      title,
      destination,
      startDate,
      endDate,
      3,
      MockBudget,
      [ DayPlan(1, startDate,
                ["Arrival", "Explore city center", "Try local food"],
                ["Breakfast at hotel", "Lunch in city square", "Dinner at rooftop cafe"],
                "Take it easy after travel."),
        DayPlan(2, Str(Day2Date),
                ["Visit museum", "Boat tour", "Evening market"],
                ["Breakfast buffet", "Lunch by river", "Dinner street food"],
                "Carry water and comfortable shoes."),
        DayPlan(3, endDate,
                ["Morning walk", "Souvenir shopping", "Departure"],
                ["Breakfast at cafe", "Lunch at airport"],
                "Check out by 11 AM.") ])
  }

  /** generateMockItinerary: the title's template literal converts the
      destination to a string first, and that conversion may throw. */
  function Generate(destination: Json, startDate: Json, endDate: Json): (r: Result<Itinerary, string>)
    ensures r.Success? <==> Printable(destination)
    ensures r.Failure? ==> r.error == "Cannot convert object to primitive value"
  {
    match ConvertToString(destination)
    case Success(t) => Success(Document("Mock Itinerary for " + t, destination, startDate, endDate))
    case Failure(m) => Failure(m)
  }

  // ----- the document as the JSON object the response carries -----

  function StringsJson(ss: seq<string>): (r: Json)
    ensures r.Arr? && |r.elems| == |ss|
    ensures forall i :: 0 <= i < |ss| ==> r.elems[i] == Str(ss[i])
  {
    Arr(seq(|ss|, i requires 0 <= i < |ss| => Str(ss[i])))
  }

  function DayPlanJson(p: DayPlan): (r: Json) {
    Obj([("day", Num(p.day)), ("date", p.date), ("highlights", StringsJson(p.highlights)),
         ("meals", StringsJson(p.meals)), ("notes", Str(p.notes))])
  }

  function ItemsJson(items: seq<DayPlan>): (r: Json)
    ensures r.Arr? && |r.elems| == |items|
    ensures forall i :: 0 <= i < |items| ==> r.elems[i] == DayPlanJson(items[i])
  {
    Arr(seq(|items|, i requires 0 <= i < |items| => DayPlanJson(items[i])))
  }

  /** The itinerary as a JSON object, keys in the order the literal lists them. */
  function ToJson(it: Itinerary): (r: Json) {
    Obj([("title", Str(it.title)), ("destination", it.destination), ("startDate", it.startDate),
         ("endDate", it.endDate), ("days", Num(it.days)), ("budget", Str(it.budget)),
         ("items", ItemsJson(it.items))])
  }

  // ----- properties of the mock document -----

  /** The three echo slots hold the inputs, the title names the destination,
      and the day count and budget are fixed. */
  lemma EchoesInputs(destination: Json, startDate: Json, endDate: Json)
    ensures Generate(destination, startDate, endDate).Success? ==>
      var r := Generate(destination, startDate, endDate).value;
      && r.destination == destination && r.startDate == startDate && r.endDate == endDate
      && r.title == "Mock Itinerary for " + ToStr(destination)
      && r.days == 3
      && r.budget == "Medium"
  {
  }

  /** Three days numbered 1, 2, 3 in order; day 1 is the start date, day 3
      the end date, and day 2 is "2025-11-09" whatever the dates are. Every
      day has three highlights; the meal lists have 3, 3 and 2 entries. */
  lemma DayShapes(destination: Json, startDate: Json, endDate: Json)
    ensures Generate(destination, startDate, endDate).Success? ==>
      var items := Generate(destination, startDate, endDate).value.items;
      && |items| == 3
      && (forall k :: 0 <= k < 3 ==> items[k].day == k + 1 && |items[k].highlights| == 3)
      && items[0].date == startDate
      && items[1].date == Str("2025-11-09")
      && items[2].date == endDate
      && |items[0].meals| == 3 && |items[1].meals| == 3 && |items[2].meals| == 2
  {
  }

  /** The document with its echoed slots blanked out. */
  function Skeleton(it: Itinerary): (r: Itinerary) {
    var items := seq(|it.items|, k requires 0 <= k < |it.items| =>
                   if k == 0 || k == |it.items| - 1 then it.items[k].(date := Null) else it.items[k]);
    it.(title := "", destination := Null, startDate := Null, endDate := Null, items := items)
  }

  /** Determinism: two mock documents differ at most in the echoed slots
      (title, destination, startDate, endDate, and the dates of days 1 and
      3), and equal inputs give equal documents. */
  lemma OnlyEchoesVary(d1: Json, s1: Json, e1: Json, d2: Json, s2: Json, e2: Json)
    requires Printable(d1) && Printable(d2)
    ensures Skeleton(Generate(d1, s1, e1).value) == Skeleton(Generate(d2, s2, e2).value)
    ensures ToStr(d1) == ToStr(d2) && s1 == s2 && e1 == e2 ==>
      Generate(d1, s1, e1).value.(destination := d2) == Generate(d2, s2, e2).value
  {
  }

  /** Lookup in an object literal gives the value written next to a key
      that is not repeated later in the literal. */
  lemma {:induction false} LookupLastBinding(fields: seq<(string, Json)>, k: nat)
    requires k < |fields|
    requires forall j :: k < j < |fields| ==> fields[j].0 != fields[k].0
    ensures LookupField(fields, fields[k].0) == fields[k].1
  {
    if k < |fields| - 1 {
      var init := fields[..|fields| - 1];
      assert init[k] == fields[k];
      LookupLastBinding(init, k);
    }
  }

  /** Reading the rendered document's properties gives back the fields of
      the itinerary. */
  lemma {:induction false} ToJsonFields(it: Itinerary)
    ensures Get(ToJson(it), "title") == Str(it.title)
    ensures Get(ToJson(it), "destination") == it.destination
    ensures Get(ToJson(it), "startDate") == it.startDate
    ensures Get(ToJson(it), "endDate") == it.endDate
    ensures Get(ToJson(it), "days") == Num(it.days)
    ensures Get(ToJson(it), "budget") == Str(it.budget)
    ensures Get(ToJson(it), "items") == ItemsJson(it.items)
  {
    var fs := ToJson(it).fields;
    LookupLastBinding(fs, 0);
    LookupLastBinding(fs, 1);
    LookupLastBinding(fs, 2);
    LookupLastBinding(fs, 3);
    LookupLastBinding(fs, 4);
    LookupLastBinding(fs, 5);
    LookupLastBinding(fs, 6);
  }

  lemma {:induction false} DayPlanJsonFields(p: DayPlan)
    ensures Get(DayPlanJson(p), "day") == Num(p.day)
    ensures Get(DayPlanJson(p), "date") == p.date
    ensures Get(DayPlanJson(p), "highlights") == StringsJson(p.highlights)
    ensures Get(DayPlanJson(p), "meals") == StringsJson(p.meals)
    ensures Get(DayPlanJson(p), "notes") == Str(p.notes)
  {
    var fs := DayPlanJson(p).fields;
    LookupLastBinding(fs, 0);
    LookupLastBinding(fs, 1);
    LookupLastBinding(fs, 2);
    LookupLastBinding(fs, 3);
    LookupLastBinding(fs, 4);
  }

  /** The worked example: Paris, 2025-11-08 to 2025-11-10. */
  lemma ParisExample()
    ensures Generate(Str("Paris"), Str("2025-11-08"), Str("2025-11-10")).Success?
    ensures var doc := ToJson(Generate(Str("Paris"), Str("2025-11-08"), Str("2025-11-10")).value);
      && Get(doc, "title") == Str("Mock Itinerary for Paris")
      && Get(doc, "items").Arr?
      && |Get(doc, "items").elems| == 3
      && Get(Get(doc, "items").elems[0], "date") == Str("2025-11-08")
      && Get(Get(doc, "items").elems[1], "date") == Str("2025-11-09")
      && Get(Get(doc, "items").elems[2], "date") == Str("2025-11-10")
  {
    var it := Generate(Str("Paris"), Str("2025-11-08"), Str("2025-11-10")).value;
    ToJsonFields(it);
    DayPlanJsonFields(it.items[0]);
    DayPlanJsonFields(it.items[1]);
    DayPlanJsonFields(it.items[2]);
  }
}
